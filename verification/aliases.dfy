/** The alias and observer routing tables of a run (MCEqRun._init_alias_tables,
    set_obs_particles) and the two lookups that read them (MCEqRun._alias and
    MCEqRun._alternate_score).

    A lepton produced in the decay of a charged pion is scored under a separate
    species whose id is 7100 + the lepton id ("pi_numu" for 7114), from a kaon
    under 7200 + id, from a short-lived ("prompt") mother under 7000 + id; a
    mother the user declared as observed additionally scores its leptons under
    7300 + id. */
module Aliases {
  import opened Base
  import opened Particles

  /** The leptons both tables are built for: nu_e, mu, nu_mu, nu_tau. */
  const Leptons: seq<int> := [12, 13, 14, 16]

  const PromptBase := 7000
  const PionBase := 7100
  const KaonBase := 7200
  const ObsBase := 7300

  /** The mother id the prompt threshold is read from: D+. */
  const PromptReference := 411

  type Table = map<(int, int), int>

  // ---------------------------------------------------------------------------
  // Prompt mothers.

  /** A species that passes the `continue` test of the first loop. */
  predicate Qualifies(p: Species)
  {
    !p.isLepton && !p.isAlias && p.pdgid >= 0
  }

  /** A mother whose leptons count as prompt: at least as short-lived as D+. */
  predicate IsPrompt(p: Species, eCritD: real)
  {
    Qualifies(p) && p.eCrit >= eCritD
  }

  /** `prompt_ids`, in list order. */
  function PromptIds(s: seq<Species>, eCritD: real): seq<int>
  {
    if s == [] then []
    else PromptIds(s[..|s| - 1], eCritD) + (if IsPrompt(s[|s| - 1], eCritD) then [s[|s| - 1].pdgid] else [])
  }

  /** An id is a prompt id exactly when some species with that id is prompt. */
  lemma {:induction false} PromptIdsMembers(s: seq<Species>, eCritD: real, m: int)
    ensures m in PromptIds(s, eCritD) <==> exists i :: 0 <= i < |s| && s[i].pdgid == m && IsPrompt(s[i], eCritD)
  {
    if s != [] {
      var p := s[..|s| - 1];
      PromptIdsMembers(p, eCritD, m);
      if exists i :: 0 <= i < |p| && p[i].pdgid == m && IsPrompt(p[i], eCritD) {
        var i :| 0 <= i < |p| && p[i].pdgid == m && IsPrompt(p[i], eCritD);
        assert s[i] == p[i];
      }
      if exists i :: 0 <= i < |s| && s[i].pdgid == m && IsPrompt(s[i], eCritD) {
        var i :| 0 <= i < |s| && s[i].pdgid == m && IsPrompt(s[i], eCritD);
        if i < |p| { assert p[i] == s[i]; }
      }
    }
  }

  /** What the first loop of `_init_alias_tables` yields: the prompt ids, or the
      KeyError (carrying 411) that `pdg2pref[411]` raises at the first species
      passing the `continue` test when D+ is not in the catalog. */
  function PromptScan(s: seq<Species>, ref: map<int, Species>): Result<seq<int>, int>
  {
    if PromptReference in ref then Ok(PromptIds(s, ref[PromptReference].eCrit))
    else if exists i :: 0 <= i < |s| && Qualifies(s[i]) then Failure(PromptReference)
    else Ok([])
  }

  /** The first loop of `_init_alias_tables`. */
  method ScanPromptIds(s: seq<Species>, ref: map<int, Species>) returns (r: Result<seq<int>, int>)
    ensures r == PromptScan(s, ref)
    ensures r.Failure? <==> PromptReference !in ref && exists i :: 0 <= i < |s| && Qualifies(s[i])
    ensures r.Ok? ==> forall m :: m in r.value <==> exists i :: 0 <= i < |s| && s[i].pdgid == m && PromptReference in ref && IsPrompt(s[i], ref[PromptReference].eCrit)
  {
    var prompt: seq<int> := [];
    var i := 0;
    while i < |s|
      invariant 0 <= i <= |s|
      invariant PromptReference in ref ==> prompt == PromptIds(s[..i], ref[PromptReference].eCrit)
      invariant PromptReference !in ref ==> prompt == [] && forall j :: 0 <= j < i ==> !Qualifies(s[j])
    {
      var p := s[i];
      assert s[..i + 1] == s[..i] + [p];
      if Qualifies(p) {
        if PromptReference !in ref {
          return Failure(PromptReference);
        }
        if p.eCrit >= ref[PromptReference].eCrit {
          prompt := prompt + [p.pdgid];
        }
      }
      i := i + 1;
    }
    assert s[..i] == s;
    r := Ok(prompt);
    if PromptReference in ref {
      forall m ensures m in prompt <==> exists i :: 0 <= i < |s| && s[i].pdgid == m && IsPrompt(s[i], ref[PromptReference].eCrit) {
        PromptIdsMembers(s, ref[PromptReference].eCrit, m);
      }
    }
  }

  // ---------------------------------------------------------------------------
  // The alias table.

  /** The writes the nested loop makes for one lepton: pion, kaon, then prompt. */
  function AliasChunk(l: int, prompt: seq<int>): seq<((int, int), int)>
  {
    [((211, l), PionBase + l), ((321, l), KaonBase + l)] + PromptPairs(l, prompt)
  }

  function PromptPairs(l: int, prompt: seq<int>): (r: seq<((int, int), int)>)
    ensures |r| == |prompt| && forall j :: 0 <= j < |prompt| ==> r[j] == ((prompt[j], l), PromptBase + l)
  {
    seq(|prompt|, j requires 0 <= j < |prompt| => ((prompt[j], l), PromptBase + l))
  }

  /** The writes for the leptons `ls`, in loop order. */
  function AliasPairs(ls: seq<int>, prompt: seq<int>): seq<((int, int), int)>
  {
    if ls == [] then [] else AliasPairs(ls[..|ls| - 1], prompt) + AliasChunk(ls[|ls| - 1], prompt)
  }

  /** `alias_table` as `_init_alias_tables` leaves it. */
  function AliasTable(prompt: seq<int>): Table
  {
    Build(AliasPairs(Leptons, prompt))
  }

  /** The value an alias key carries: a prompt write comes last and wins. */
  function AliasValue(prompt: seq<int>, m: int, l: int): int
  {
    if m in prompt then PromptBase + l else if m == 211 then PionBase + l else KaonBase + l
  }

  ghost predicate AliasKey(prompt: seq<int>, m: int)
  {
    m == 211 || m == 321 || m in prompt
  }

  lemma ChunkContents(l: int, prompt: seq<int>, m: int, l': int)
    ensures (m, l') in Build(AliasChunk(l, prompt)) <==> l' == l && AliasKey(prompt, m)
    ensures (m, l') in Build(AliasChunk(l, prompt)) ==> Build(AliasChunk(l, prompt))[(m, l')] == AliasValue(prompt, m, l)
  {
    var head := [((211, l), PionBase + l), ((321, l), KaonBase + l)];
    var pp := PromptPairs(l, prompt);
    BuildConcat(head, pp);
    BuildKeys(pp);
    var h0 := [head[0]];
    assert Build(h0) == map[(211, l) := PionBase + l] by {
      assert h0[..0] == [];
    }
    assert head[..1] == h0;
    assert Build(head) == map[(211, l) := PionBase + l, (321, l) := KaonBase + l];
    if (m, l') in Build(pp) {
      BuildUniform(pp, (m, l'), PromptBase + l);
    }
    if m in prompt && l' == l {
      var j :| 0 <= j < |prompt| && prompt[j] == m;
      assert pp[j].0 == (m, l);
    }
  }

  lemma {:induction false} AliasPairsContents(ls: seq<int>, prompt: seq<int>, m: int, l: int)
    ensures (m, l) in Build(AliasPairs(ls, prompt)) <==> l in ls && AliasKey(prompt, m)
    ensures (m, l) in Build(AliasPairs(ls, prompt)) ==> Build(AliasPairs(ls, prompt))[(m, l)] == AliasValue(prompt, m, l)
  {
    if ls != [] {
      var init := ls[..|ls| - 1];
      var last := ls[|ls| - 1];
      assert ls == init + [last];
      AliasPairsContents(init, prompt, m, l);
      BuildConcat(AliasPairs(init, prompt), AliasChunk(last, prompt));
      ChunkContents(last, prompt, m, l);
    }
  }

  /** The alias table holds, for each lepton l of 12, 13, 14, 16: (211, l) -> 7100 + l,
      (321, l) -> 7200 + l, and (m, l) -> 7000 + l for every prompt mother m (which
      wins should a pion or kaon ever be prompt); nothing else. */
  lemma AliasTableContents(prompt: seq<int>, m: int, l: int)
    ensures (m, l) in AliasTable(prompt) <==> l in Leptons && (m == 211 || m == 321 || m in prompt)
    ensures (m, l) in AliasTable(prompt) && m in prompt ==> AliasTable(prompt)[(m, l)] == PromptBase + l
    ensures (m, l) in AliasTable(prompt) && m !in prompt && m == 211 ==> AliasTable(prompt)[(m, l)] == PionBase + l
    ensures (m, l) in AliasTable(prompt) && m !in prompt && m != 211 ==> AliasTable(prompt)[(m, l)] == KaonBase + l
  {
    AliasPairsContents(Leptons, prompt, m, l);
  }

  lemma AliasHeadStep(done: seq<((int, int), int)>, l: int)
    ensures Build(done + [((211, l), PionBase + l), ((321, l), KaonBase + l)])
         == Build(done)[(211, l) := PionBase + l][(321, l) := KaonBase + l]
  {
    var x := ((211, l), PionBase + l);
    var y := ((321, l), KaonBase + l);
    var once := done + [x];
    BuildSnoc(done, x);
    BuildSnoc(once, y);
    assert done + [x, y] == once + [y];
  }

  lemma PromptStep(head: seq<((int, int), int)>, l: int, prompt: seq<int>, j: int)
    requires 0 <= j < |prompt|
    ensures Build(head + PromptPairs(l, prompt[..j + 1]))
         == Build(head + PromptPairs(l, prompt[..j]))[(prompt[j], l) := PromptBase + l]
  {
    assert PromptPairs(l, prompt[..j + 1]) == PromptPairs(l, prompt[..j]) + [((prompt[j], l), PromptBase + l)];
    assert head + PromptPairs(l, prompt[..j + 1]) == (head + PromptPairs(l, prompt[..j])) + [((prompt[j], l), PromptBase + l)];
    BuildSnoc(head + PromptPairs(l, prompt[..j]), ((prompt[j], l), PromptBase + l));
  }

  lemma ChunkStep(ls: seq<int>, i: int, prompt: seq<int>)
    requires 0 <= i < |ls|
    ensures AliasPairs(ls[..i + 1], prompt)
         == AliasPairs(ls[..i], prompt) + [((211, ls[i]), PionBase + ls[i]), ((321, ls[i]), KaonBase + ls[i])] + PromptPairs(ls[i], prompt)
  {
    assert ls[..i + 1][..i] == ls[..i];
  }

  /** The nested loop of `_init_alias_tables` that fills `alias_table`. */
  method FillAliasTable(prompt: seq<int>) returns (table: Table)
    ensures table == AliasTable(prompt)
    ensures forall m, l :: (m, l) in table <==> l in Leptons && (m == 211 || m == 321 || m in prompt)
    ensures forall m, l :: (m, l) in table ==> table[(m, l)] == AliasValue(prompt, m, l)
  {
    table := map[];
    var li := 0;
    while li < |Leptons|
      invariant 0 <= li <= |Leptons|
      invariant table == Build(AliasPairs(Leptons[..li], prompt))
    {
      var l := Leptons[li];
      ghost var head := AliasPairs(Leptons[..li], prompt) + [((211, l), PionBase + l), ((321, l), KaonBase + l)];
      AliasHeadStep(AliasPairs(Leptons[..li], prompt), l);
      table := table[(211, l) := PionBase + l];
      table := table[(321, l) := KaonBase + l];
      assert head + PromptPairs(l, prompt[..0]) == head;
      var j := 0;
      while j < |prompt|
        invariant 0 <= j <= |prompt|
        invariant table == Build(head + PromptPairs(l, prompt[..j]))
      {
        PromptStep(head, l, prompt, j);
        table := table[(prompt[j], l) := PromptBase + l];
        j := j + 1;
      }
      assert prompt[..j] == prompt;
      ChunkStep(Leptons, li, prompt);
      li := li + 1;
    }
    assert Leptons[..li] == Leptons;
    forall m, l ensures ((m, l) in table <==> l in Leptons && (m == 211 || m == 321 || m in prompt))
      && ((m, l) in table ==> table[(m, l)] == AliasValue(prompt, m, l))
    {
      AliasPairsContents(Leptons, prompt, m, l);
    }
  }

  // ---------------------------------------------------------------------------
  // The observer table.

  /** The writes of `obs_table.update({...})` for the observed ids, skipping ids
      that are not in the catalog. */
  function ObsPairs(ids: seq<int>, known: set<int>): seq<((int, int), int)>
  {
    if ids == [] then []
    else
      var last := ids[|ids| - 1];
      ObsPairs(ids[..|ids| - 1], known)
      + (if last in known then [((last, 12), ObsBase + 12), ((last, 13), ObsBase + 13), ((last, 14), ObsBase + 14), ((last, 16), ObsBase + 16)] else [])
  }

  /** `obs_table`: empty when no observer ids were given. */
  function ObsTable(obsIds: Option<seq<int>>, known: set<int>): Table
  {
    if obsIds.None? then map[] else Build(ObsPairs(obsIds.value, known))
  }

  lemma {:induction false} ObsPairsWrites(ids: seq<int>, known: set<int>, m: int, l: int)
    ensures (m, l) in KeysOf(ObsPairs(ids, known)) <==> m in ids && m in known && l in Leptons
    ensures forall i :: 0 <= i < |ObsPairs(ids, known)| ==> ObsPairs(ids, known)[i].1 == ObsBase + ObsPairs(ids, known)[i].0.1
  {
    if ids != [] {
      var init := ids[..|ids| - 1];
      var last := ids[|ids| - 1];
      assert ids == init + [last];
      ObsPairsWrites(init, known, m, l);
      var a := ObsPairs(init, known);
      var t := ObsPairs(ids, known);
      assert t[..|a|] == a;
      if (m, l) in KeysOf(a) {
        var i :| 0 <= i < |a| && a[i].0 == (m, l);
        assert t[i].0 == (m, l);
      }
      if m == last && m in known && l in Leptons {
        assert t[|a| + (if l == 12 then 0 else if l == 13 then 1 else if l == 14 then 2 else 3)].0 == (m, l);
      }
    }
  }

  /** The observer table maps (m, l) to 7300 + l exactly when observer ids were
      given, m is one of them, m is in the catalog and l is one of the four
      leptons; an observed id missing from the catalog is silently ignored. */
  lemma ObsTableContents(obsIds: Option<seq<int>>, known: set<int>, m: int, l: int)
    ensures (m, l) in ObsTable(obsIds, known) <==> obsIds.Some? && m in obsIds.value && m in known && l in Leptons
    ensures (m, l) in ObsTable(obsIds, known) ==> ObsTable(obsIds, known)[(m, l)] == ObsBase + l
  {
    if obsIds.Some? {
      var pairs := ObsPairs(obsIds.value, known);
      ObsPairsWrites(obsIds.value, known, m, l);
      BuildKeys(pairs);
      if (m, l) in Build(pairs) {
        BuildUniform(pairs, (m, l), ObsBase + l);
      }
    }
  }

  lemma ObsStep(ids: seq<int>, i: int, known: set<int>)
    requires 0 <= i < |ids|
    ensures var obs := ids[i];
      Build(ObsPairs(ids[..i + 1], known)) ==
        if obs in known then
          Build(ObsPairs(ids[..i], known))[(obs, 12) := ObsBase + 12][(obs, 13) := ObsBase + 13][(obs, 14) := ObsBase + 14][(obs, 16) := ObsBase + 16]
        else Build(ObsPairs(ids[..i], known))
  {
    var obs := ids[i];
    assert ids[..i + 1][..i] == ids[..i];
    var done := ObsPairs(ids[..i], known);
    if obs in known {
      var w := [((obs, 12), ObsBase + 12), ((obs, 13), ObsBase + 13), ((obs, 14), ObsBase + 14), ((obs, 16), ObsBase + 16)];
      assert ObsPairs(ids[..i + 1], known) == done + w;
      BuildSnoc(done, w[0]);
      BuildSnoc(done + w[..1], w[1]);
      BuildSnoc(done + w[..2], w[2]);
      BuildSnoc(done + w[..3], w[3]);
      assert done + w[..1] == done + [w[0]];
      assert done + w[..1] + [w[1]] == done + w[..2];
      assert done + w[..2] + [w[2]] == done + w[..3];
      assert done + w[..3] + [w[3]] == done + w;
    } else {
      assert ObsPairs(ids[..i + 1], known) == done;
    }
  }

  /** The second part of `_init_alias_tables`, which fills `obs_table`. */
  method FillObsTable(obsIds: Option<seq<int>>, known: set<int>) returns (table: Table)
    ensures table == ObsTable(obsIds, known)
    ensures forall m, l :: (m, l) in table <==> obsIds.Some? && m in obsIds.value && m in known && l in Leptons
    ensures forall k :: k in table ==> table[k] == ObsBase + k.1
  {
    table := map[];
    if obsIds.Some? {
      var ids := obsIds.value;
      var i := 0;
      while i < |ids|
        invariant 0 <= i <= |ids|
        invariant table == Build(ObsPairs(ids[..i], known))
      {
        var obs := ids[i];
        ObsStep(ids, i, known);
        if obs in known {
          table := table[(obs, 12) := ObsBase + 12][(obs, 13) := ObsBase + 13][(obs, 14) := ObsBase + 14][(obs, 16) := ObsBase + 16];
        }
        i := i + 1;
      }
      assert ids[..i] == ids;
    }
    forall m, l ensures ((m, l) in table <==> obsIds.Some? && m in obsIds.value && m in known && l in Leptons)
      && ((m, l) in table ==> table[(m, l)] == ObsBase + l)
    {
      ObsTableContents(obsIds, known, m, l);
    }
  }

  // ---------------------------------------------------------------------------
  // `_alias` and `_alternate_score`.

  /** What `_alias` (on the alias table) and `_alternate_score` (on the observer
      table) return: the state-vector range of the species whose id is the table
      value for (|mother|, |daughter|) with the daughter's sign put back; None when
      the pair has no entry; Failure(id) for the KeyError `pdg2pref[id]` raises
      when that species is not in the catalog. */
  function Lookup(table: Table, ref: map<int, Species>, d: nat, mother: int, daughter: int): (r: Result<Option<Range>, int>)
    ensures r == Ok(None) <==> (Abs(mother), Abs(daughter)) !in table
    ensures r.Failure? ==> r.error !in ref && (Abs(mother), Abs(daughter)) in table
  {
    var key := (Abs(mother), Abs(daughter));
    if key in table then
      var target := Sign(daughter) * table[key];
      if target in ref then Ok(Some(RangeOf(ref[target], d))) else Failure(target)
    else Ok(None)
  }

  /** The sign of the mother never matters, and the antiparticle of the daughter
      is routed to the antiparticle of the target. */
  lemma LookupSymmetry(table: Table, ref: map<int, Species>, d: nat, mother: int, daughter: int)
    requires (Abs(mother), Abs(daughter)) in table && daughter != 0
    ensures Lookup(table, ref, d, -mother, daughter) == Lookup(table, ref, d, mother, daughter)
    ensures var v := table[(Abs(mother), Abs(daughter))];
      && (Sign(daughter) * v in ref ==> Lookup(table, ref, d, mother, daughter) == Ok(Some(RangeOf(ref[Sign(daughter) * v], d))))
      && (-Sign(daughter) * v in ref ==> Lookup(table, ref, d, mother, -daughter) == Ok(Some(RangeOf(ref[-Sign(daughter) * v], d))))
  {
    assert Abs(-daughter) == Abs(daughter) && Sign(-daughter) == -Sign(daughter);
    assert Abs(-mother) == Abs(mother);
  }

  /** A lepton from a charged pion goes to the pion category, from a charged kaon
      to the kaon category, and from a prompt mother to the prompt category, with
      the lepton's charge kept: nu_mu from pi+ is scored as 7114, anti-nu_mu from
      pi- as -7114. */
  lemma AliasRouting(prompt: seq<int>, ref: map<int, Species>, d: nat, mother: int, lepton: int)
    requires Abs(lepton) in Leptons
    requires Abs(mother) == 211 || Abs(mother) == 321 || Abs(mother) in prompt
    ensures var base := if Abs(mother) in prompt then PromptBase
                        else if Abs(mother) == 211 then PionBase else KaonBase;
      var target := Sign(lepton) * (base + Abs(lepton));
      Lookup(AliasTable(prompt), ref, d, mother, lepton) ==
        if target in ref then Ok(Some(RangeOf(ref[target], d))) else Failure(target)
  {
    AliasTableContents(prompt, Abs(mother), Abs(lepton));
  }

  /** Nothing but the four leptons is ever aliased, whatever the mother. */
  lemma OnlyLeptonsAliased(prompt: seq<int>, obsIds: Option<seq<int>>, known: set<int>,
                           ref: map<int, Species>, d: nat, mother: int, daughter: int)
    requires Abs(daughter) !in Leptons
    ensures Lookup(AliasTable(prompt), ref, d, mother, daughter) == Ok(None)
    ensures Lookup(ObsTable(obsIds, known), ref, d, mother, daughter) == Ok(None)
  {
    AliasTableContents(prompt, Abs(mother), Abs(daughter));
    ObsTableContents(obsIds, known, Abs(mother), Abs(daughter));
  }

  // ---------------------------------------------------------------------------
  // `set_obs_particles`.

  /** An observer given as a number, or as a string: a string that `int()`
      accepts is used as a number, any other is a particle name. */
  datatype ObsRef = Number(n: int) | Text(s: string)

  predicate IsDigit(c: char) { '0' as int <= c as int <= '9' as int }

  function DigitsValue(s: string): nat
    requires forall i :: 0 <= i < |s| ==> IsDigit(s[i])
  {
    if s == [] then 0
    else
      assert IsDigit(s[|s| - 1]);
      10 * DigitsValue(s[..|s| - 1]) + (s[|s| - 1] as int - '0' as int)
  }

  /** `int(s)` on a string: an optional sign followed by one or more digits. */
  function ParseInt(s: string): (r: Option<int>)
    ensures r.Some? ==> |s| > 0
  {
    var sign := if |s| > 0 && (s[0] == '-' || s[0] == '+') then 1 else 0;
    var digits := s[sign..];
    if |digits| > 0 && forall i :: 0 <= i < |digits| ==> IsDigit(digits[i]) then
      Some(if sign == 1 && s[0] == '-' then -(DigitsValue(digits) as int) else DigitsValue(digits))
    else None
  }

  /** The digits of a natural number. */
  function Show(n: nat): (s: string)
    ensures |s| > 0 && forall i :: 0 <= i < |s| ==> IsDigit(s[i])
  {
    if n < 10 then [('0' as int + n) as char] else Show(n / 10) + [('0' as int + n % 10) as char]
  }

  /** Writing a number out and reading it back gives the number. */
  lemma {:induction false} ShowParse(n: nat)
    ensures DigitsValue(Show(n)) == n
    ensures ParseInt(Show(n)) == Some(n)
    ensures ParseInt("-" + Show(n)) == Some(-(n as int))
  {
    if n >= 10 {
      ShowParse(n / 10);
      assert Show(n)[..|Show(n)| - 1] == Show(n / 10);
    }
    assert ("-" + Show(n))[1..] == Show(n);
  }

  /** `z` zero digits. */
  function Zeros(z: nat): (s: string)
    ensures |s| == z && forall i :: 0 <= i < z ==> s[i] == '0'
  {
    if z == 0 then [] else ['0'] + Zeros(z - 1)
  }

  /** A leading zero does not change the value of a digit string. */
  lemma {:induction false} ZeroPrefix(s: string)
    requires forall i :: 0 <= i < |s| ==> IsDigit(s[i])
    ensures DigitsValue("0" + s) == DigitsValue(s)
    decreases |s|
  {
    if s != [] {
      assert ("0" + s)[..|"0" + s| - 1] == "0" + s[..|s| - 1];
      ZeroPrefix(s[..|s| - 1]);
    } else {
      assert ("0" + s)[..0] == [];
    }
  }

  /** Any number of leading zeros before the digits of `n` leaves the value `n`. */
  lemma {:induction false} PaddedValue(n: nat, z: nat)
    ensures forall i :: 0 <= i < |Zeros(z) + Show(n)| ==> IsDigit((Zeros(z) + Show(n))[i])
    ensures DigitsValue(Zeros(z) + Show(n)) == n
  {
    if z == 0 {
      assert Zeros(z) + Show(n) == Show(n);
      ShowParse(n);
    } else {
      PaddedValue(n, z - 1);
      assert Zeros(z) + Show(n) == "0" + (Zeros(z - 1) + Show(n));
      ZeroPrefix(Zeros(z - 1) + Show(n));
    }
  }

  /** `int()` on a digit string, with no sign, a plus or a minus. */
  lemma ParseSigned(t: string)
    requires |t| > 0 && forall i :: 0 <= i < |t| ==> IsDigit(t[i])
    ensures ParseInt(t) == Some(DigitsValue(t))
    ensures ParseInt("+" + t) == Some(DigitsValue(t))
    ensures ParseInt("-" + t) == Some(-(DigitsValue(t) as int))
  {
    assert ("+" + t)[1..] == t;
    assert ("-" + t)[1..] == t;
  }

  /** Any number of leading zeros before the digits of `n` still reads as `n`,
      with or without a sign. */
  lemma ParsePadded(n: nat, z: nat)
    ensures ParseInt(Zeros(z) + Show(n)) == Some(n)
    ensures ParseInt("+" + (Zeros(z) + Show(n))) == Some(n)
    ensures ParseInt("-" + (Zeros(z) + Show(n))) == Some(-(n as int))
  {
    PaddedValue(n, z);
    ParseSigned(Zeros(z) + Show(n));
  }

  /** One observer converted to an id; Failure(name) is the KeyError of
      `modname2pdg[name]`. */
  function ConvertObs(o: ObsRef, modname2pdg: map<string, int>): Result<int, string>
  {
    match o
    case Number(n) => Ok(n)
    case Text(s) =>
      if ParseInt(s).Some? then Ok(ParseInt(s).value)
      else if s in modname2pdg then Ok(modname2pdg[s])
      else Failure(s)
  }

  /** The conversion loop of `set_obs_particles`: the ids in the given order, or
      the first name that is neither a number nor a known particle name. */
  method ConvertObsIds(refs: seq<ObsRef>, modname2pdg: map<string, int>) returns (r: Result<seq<int>, string>)
    ensures r.Ok? ==> |r.value| == |refs| && forall i :: 0 <= i < |refs| ==> ConvertObs(refs[i], modname2pdg) == Ok(r.value[i])
    ensures r.Failure? ==> exists i :: (0 <= i < |refs| && ConvertObs(refs[i], modname2pdg) == Failure(r.error)
                                        && forall j :: 0 <= j < i ==> ConvertObs(refs[j], modname2pdg).Ok?)
  {
    var ids: seq<int> := [];
    var i := 0;
    while i < |refs|
      invariant 0 <= i <= |refs| && |ids| == i
      invariant forall j :: 0 <= j < i ==> ConvertObs(refs[j], modname2pdg) == Ok(ids[j])
    {
      var c := ConvertObs(refs[i], modname2pdg);
      if c.Failure? {
        return Failure(c.error);
      }
      ids := ids + [c.value];
      i := i + 1;
    }
    r := Ok(ids);
  }

  /** The observer part of a run's state. */
  datatype ObsState = ObsState(obsIds: Option<seq<int>>, obsTable: Table)

  /** `set_obs_particles` as written: `None` returns before the tables are rebuilt,
      so the observer table of an earlier call stays in force. */
  function SetObsAsWritten(st: ObsState, obsIds: Option<seq<int>>, known: set<int>): ObsState
  {
    if obsIds.None? then ObsState(None, st.obsTable) else ObsState(obsIds, ObsTable(obsIds, known))
  }

  /** `set_obs_particles` as its documentation promises: the tables are rebuilt
      from the new observer ids in every case. */
  function SetObs(obsIds: Option<seq<int>>, known: set<int>): ObsState
  {
    ObsState(obsIds, ObsTable(obsIds, known))
  }

  /** Observing D+ and then clearing the observers with `None` leaves D+'s
      leptons routed to the observer category. */
  lemma SetObsAsWrittenKeepsStaleTable()
    ensures var st := SetObsAsWritten(SetObsAsWritten(ObsState(None, map[]), Some([411]), {411}), None, {411});
      st.obsIds.None? && (411, 14) in st.obsTable && st.obsTable != ObsTable(None, {411})
  {
    ObsTableContents(Some([411]), {411}, 411, 14);
  }

  /** After the corrected call no pair is observed unless its mother is one of the
      observer ids now in force. */
  lemma SetObsCurrent(obsIds: Option<seq<int>>, known: set<int>, ref: map<int, Species>, d: nat, mother: int, daughter: int)
    requires obsIds.None? || Abs(mother) !in obsIds.value
    ensures Lookup(SetObs(obsIds, known).obsTable, ref, d, mother, daughter) == Ok(None)
  {
    ObsTableContents(obsIds, known, Abs(mother), Abs(daughter));
  }
}
