/** ParticleIndex: the list of particle species of a run, ordered by critical
    energy, the block of the state vector each cascade particle owns, and the six
    lookup dictionaries between PDG ids, names, state-vector indices and species
    (MCEqRun._gen_list_of_particles and the loop in MCEqRun.__init__). */
module Particles {
  import opened Base

  /** One particle species as the run sees it (data.NCEParticle). The flags and
      the critical energy come from the particle tables; `nceidx` is the position
      in the state vector, present only on cascade particles. */
  datatype Species = Species(
    pdgid: int,
    name: string,
    eCrit: real,
    isHadron: bool,
    isResonance: bool,
    isMixed: bool,
    isLepton: bool,
    isAlias: bool,
    nceidx: Option<nat>)

  /** A half-open range [lo, hi) of the state vector (lidx(), uidx()). */
  datatype Range = Range(lo: int, hi: int)

  function PdgOf(p: Species): int { p.pdgid }
  function NameOf(p: Species): string { p.name }
  function SpeciesOf(p: Species): Species { p }

  /** The index the lookup dictionaries store: `p.nceidx`, or -1 when the species
      has none (the `except` branch). */
  function IndexOf(p: Species): int { if p.nceidx.Some? then p.nceidx.value else -1 }

  /** The block of `d` energy bins a species owns; empty for a species without an
      index (a pure resonance is never part of the state vector). */
  function RangeOf(p: Species, d: nat): Range
  {
    if p.nceidx.Some? then Range(p.nceidx.value * d, (p.nceidx.value + 1) * d) else Range(0, 0)
  }

  ghost predicate SortedByECrit(s: seq<Species>)
  {
    forall i, j :: 0 <= i < j < |s| ==> s[i].eCrit <= s[j].eCrit
  }

  ghost predicate UniqueIds(s: seq<Species>)
  {
    forall i, j :: 0 <= i < j < |s| ==> s[i].pdgid != s[j].pdgid
  }

  ghost predicate UniqueNames(s: seq<Species>)
  {
    forall i, j :: 0 <= i < j < |s| ==> s[i].name != s[j].name
  }

  /** A freshly created species has no state-vector index yet. */
  ghost predicate Unindexed(s: seq<Species>)
  {
    forall i :: 0 <= i < |s| ==> s[i].nceidx.None?
  }

  // ---------------------------------------------------------------------------
  // Sorting by critical energy (`list.sort(key=lambda x: x.E_crit)`).

  /** Puts `x` after every element whose critical energy is not larger. */
  function Insert(r: seq<Species>, x: Species): seq<Species>
  {
    if r == [] then [x]
    else if x.eCrit < r[0].eCrit then [x] + r
    else [r[0]] + Insert(r[1..], x)
  }

  /** Python's stable sort by `E_crit`, as an insertion sort. */
  function SortByECrit(s: seq<Species>): seq<Species>
  {
    if s == [] then [] else Insert(SortByECrit(s[..|s| - 1]), s[|s| - 1])
  }

  ghost predicate AtLeast(b: real, s: seq<Species>)
  {
    forall k :: 0 <= k < |s| ==> b <= s[k].eCrit
  }

  lemma SortedCons(a: Species, t: seq<Species>)
    requires SortedByECrit(t) && AtLeast(a.eCrit, t)
    ensures SortedByECrit([a] + t)
  {
    var s := [a] + t;
    forall i, j | 0 <= i < j < |s| ensures s[i].eCrit <= s[j].eCrit {
      if i > 0 { assert s[i] == t[i - 1] && s[j] == t[j - 1]; } else { assert s[j] == t[j - 1]; }
    }
  }

  lemma {:induction false} InsertAtLeast(b: real, r: seq<Species>, x: Species)
    requires AtLeast(b, r) && b <= x.eCrit
    ensures AtLeast(b, Insert(r, x))
  {
    if r != [] && x.eCrit >= r[0].eCrit {
      InsertAtLeast(b, r[1..], x);
    }
  }

  lemma {:induction false} InsertSorted(r: seq<Species>, x: Species)
    requires SortedByECrit(r)
    ensures SortedByECrit(Insert(r, x))
    ensures multiset(Insert(r, x)) == multiset(r) + multiset{x}
  {
    if r == [] {
    } else if x.eCrit < r[0].eCrit {
      assert AtLeast(x.eCrit, r);
      SortedCons(x, r);
    } else {
      assert r == [r[0]] + r[1..];
      InsertSorted(r[1..], x);
      assert AtLeast(r[0].eCrit, r[1..]);
      InsertAtLeast(r[0].eCrit, r[1..], x);
      SortedCons(r[0], Insert(r[1..], x));
    }
  }

  /** The sorted list is ordered by critical energy and holds the same species. */
  lemma {:induction false} SortByECritCorrect(s: seq<Species>)
    ensures SortedByECrit(SortByECrit(s))
    ensures multiset(SortByECrit(s)) == multiset(s)
  {
    if s != [] {
      var p := s[..|s| - 1];
      SortByECritCorrect(p);
      InsertSorted(SortByECrit(p), s[|s| - 1]);
      assert s == p + [s[|s| - 1]];
    }
  }

  // ---------------------------------------------------------------------------
  // Splitting into cascade particles and resonances.

  /** `[p for p in particle_list if not p.is_resonance]` */
  function NonResonant(s: seq<Species>): (c: seq<Species>)
    ensures forall i :: 0 <= i < |c| ==> !c[i].isResonance
  {
    if s == [] then []
    else if s[0].isResonance then NonResonant(s[1..])
    else [s[0]] + NonResonant(s[1..])
  }

  /** `[p for p in particle_list if p.is_resonance]` */
  function Resonant(s: seq<Species>): (r: seq<Species>)
    ensures forall i :: 0 <= i < |r| ==> r[i].isResonance
  {
    if s == [] then []
    else if s[0].isResonance then [s[0]] + Resonant(s[1..])
    else Resonant(s[1..])
  }

  lemma {:induction false} SplitAtLeast(b: real, s: seq<Species>)
    requires AtLeast(b, s)
    ensures AtLeast(b, NonResonant(s)) && AtLeast(b, Resonant(s))
  {
    if s != [] {
      SplitAtLeast(b, s[1..]);
    }
  }

  /** Splitting keeps every species exactly once and keeps the order. */
  lemma {:induction false} SplitCorrect(s: seq<Species>)
    ensures multiset(NonResonant(s)) + multiset(Resonant(s)) == multiset(s)
    ensures SortedByECrit(s) ==> SortedByECrit(NonResonant(s)) && SortedByECrit(Resonant(s))
  {
    if s != [] {
      SplitCorrect(s[1..]);
      assert s == [s[0]] + s[1..];
      if SortedByECrit(s) {
        assert SortedByECrit(s[1..]);
        assert AtLeast(s[0].eCrit, s[1..]);
        SplitAtLeast(s[0].eCrit, s[1..]);
        if s[0].isResonance {
          SortedCons(s[0], Resonant(s[1..]));
        } else {
          SortedCons(s[0], NonResonant(s[1..]));
        }
      }
    }
  }

  /** The cascade particles with their state-vector index set, in order. */
  function Numbered(c: seq<Species>): (n: seq<Species>)
    ensures |n| == |c|
    ensures forall i :: 0 <= i < |c| ==> n[i] == c[i].(nceidx := Some(i))
  {
    seq(|c|, i requires 0 <= i < |c| => c[i].(nceidx := Some(i)))
  }

  /** The cascade particles `_gen_list_of_particles` returns. */
  function CascadeOf(records: seq<Species>): seq<Species>
  {
    Numbered(NonResonant(SortByECrit(records)))
  }

  /** The resonances `_gen_list_of_particles` returns. */
  function ResonancesOf(records: seq<Species>): seq<Species>
  {
    Resonant(SortByECrit(records))
  }

  /** `_gen_list_of_particles`: sort the species by critical energy, split off the
      resonances and number the cascade particles 0, 1, ... in that order. The
      species list is the cascade particles followed by the resonances. */
  method GenListOfParticles(records: seq<Species>)
    returns (all: seq<Species>, cascade: seq<Species>, resonances: seq<Species>)
    ensures cascade == CascadeOf(records) && resonances == ResonancesOf(records)
    ensures all == cascade + resonances
    ensures |cascade| + |resonances| == |records|
    ensures SortedByECrit(cascade) && SortedByECrit(resonances)
    ensures forall i :: 0 <= i < |cascade| ==> cascade[i].nceidx == Some(i) && !cascade[i].isResonance
    ensures forall i :: 0 <= i < |resonances| ==> resonances[i].isResonance
  {
    var sorted := SortByECrit(records);
    SortByECritCorrect(records);
    SplitCorrect(sorted);
    assert |multiset(NonResonant(sorted))| + |multiset(Resonant(sorted))| == |multiset(records)|;
    var c := NonResonant(sorted);
    resonances := Resonant(sorted);
    cascade := c;
    var i := 0;
    while i < |cascade|
      invariant 0 <= i <= |cascade| == |c|
      invariant forall j :: 0 <= j < i ==> cascade[j] == c[j].(nceidx := Some(j))
      invariant forall j :: i <= j < |c| ==> cascade[j] == c[j]
    {
      cascade := cascade[i := cascade[i].(nceidx := Some(i))];
      i := i + 1;
    }
    all := cascade + resonances;
  }

  // ---------------------------------------------------------------------------
  // Uniqueness survives reordering.

  lemma TwoPositions(s: seq<Species>, i: int, j: int)
    requires 0 <= i < j < |s| && s[i] == s[j]
    ensures multiset(s)[s[i]] >= 2
  {
    assert s == s[..i] + [s[i]] + s[i + 1..j] + [s[j]] + s[j + 1..];
  }

  lemma OtherPosition(s: seq<Species>, x: Species)
    requires multiset(s)[x] >= 2
    ensures exists i, j :: 0 <= i < j < |s| && s[i] == x && s[j] == x
  {
    var i :| 0 <= i < |s| && s[i] == x;
    assert s == s[..i] + [s[i]] + s[i + 1..];
    var rest := s[..i] + s[i + 1..];
    assert multiset(rest)[x] >= 1;
    assert x in rest;
    var k :| 0 <= k < |rest| && rest[k] == x;
    if k < i {
      assert s[k] == x;
    } else {
      assert s[k + 1] == x;
    }
  }

  /** A reordering of a list with unique ids has unique ids. */
  lemma UniqueIdsPermutation(a: seq<Species>, b: seq<Species>)
    requires multiset(a) == multiset(b) && UniqueIds(b)
    ensures UniqueIds(a)
  {
    forall i, j | 0 <= i < j < |a| ensures a[i].pdgid != a[j].pdgid {
      if a[i] == a[j] {
        TwoPositions(a, i, j);
        OtherPosition(b, a[i]);
      } else {
        assert a[i] in multiset(b) && a[j] in multiset(b);
        var i' :| 0 <= i' < |b| && b[i'] == a[i];
        var j' :| 0 <= j' < |b| && b[j'] == a[j];
      }
    }
  }

  /** A reordering of a list with unique names has unique names. */
  lemma UniqueNamesPermutation(a: seq<Species>, b: seq<Species>)
    requires multiset(a) == multiset(b) && UniqueNames(b)
    ensures UniqueNames(a)
  {
    forall i, j | 0 <= i < j < |a| ensures a[i].name != a[j].name {
      if a[i] == a[j] {
        TwoPositions(a, i, j);
        OtherPosition(b, a[i]);
      } else {
        assert a[i] in multiset(b) && a[j] in multiset(b);
        var i' :| 0 <= i' < |b| && b[i'] == a[i];
        var j' :| 0 <= j' < |b| && b[j'] == a[j];
      }
    }
  }

  /** The species list of a catalog without repeated ids or names has none either,
      and it is a reordering of the catalog with state-vector indices attached. */
  lemma {:induction false} SpeciesListCorrect(records: seq<Species>)
    requires UniqueIds(records) && UniqueNames(records) && Unindexed(records)
    ensures UniqueIds(CascadeOf(records) + ResonancesOf(records))
    ensures UniqueNames(CascadeOf(records) + ResonancesOf(records))
    ensures Unindexed(ResonancesOf(records))
    ensures multiset(NonResonant(SortByECrit(records)) + ResonancesOf(records)) == multiset(records)
  {
    var sorted := SortByECrit(records);
    SortByECritCorrect(records);
    SplitCorrect(sorted);
    var c := NonResonant(sorted);
    var r := ResonancesOf(records);
    assert multiset(c + r) == multiset(records);
    UniqueIdsPermutation(c + r, records);
    UniqueNamesPermutation(c + r, records);
    var all := CascadeOf(records) + r;
    assert forall k :: 0 <= k < |all| ==> all[k].pdgid == (c + r)[k].pdgid && all[k].name == (c + r)[k].name;
    forall k | 0 <= k < |r| ensures r[k].nceidx.None? {
      assert r[k] in multiset(records);
    }
  }

  /** The ids of a list of species. */
  function IdsOf(s: seq<Species>): set<int>
  {
    set p | p in s :: p.pdgid
  }

  /** The species list holds exactly the ids of the catalog it was built from. */
  lemma SpeciesListIds(records: seq<Species>)
    ensures IdsOf(CascadeOf(records) + ResonancesOf(records)) == IdsOf(records)
  {
    var sorted := SortByECrit(records);
    SortByECritCorrect(records);
    SplitCorrect(sorted);
    var c := NonResonant(sorted);
    var r := ResonancesOf(records);
    var cr := c + r;
    var all := CascadeOf(records) + r;
    assert multiset(cr) == multiset(records);
    assert |all| == |cr|;
    assert forall k :: 0 <= k < |all| ==> all[k].pdgid == cr[k].pdgid;
    forall id | id in IdsOf(records) ensures id in IdsOf(all) {
      var p :| p in records && p.pdgid == id;
      assert p in multiset(cr);
      var k :| 0 <= k < |cr| && cr[k] == p;
      assert all[k] in all;
    }
    forall id | id in IdsOf(all) ensures id in IdsOf(records) {
      var q :| q in all && q.pdgid == id;
      var k :| 0 <= k < |all| && all[k] == q;
      assert cr[k] in multiset(records);
    }
  }

  /** A catalog without repeated ids or names, whose species carry no index yet,
      yields a species list that its dictionaries can index, with the same ids. */
  lemma SpeciesListIndexed(records: seq<Species>)
    requires UniqueIds(records) && UniqueNames(records) && Unindexed(records)
    ensures WellIndexed(CascadeOf(records), ResonancesOf(records))
    ensures IdsOf(CascadeOf(records) + ResonancesOf(records)) == IdsOf(records)
  {
    SpeciesListCorrect(records);
    SpeciesListIds(records);
  }

  // ---------------------------------------------------------------------------
  // The six lookup dictionaries of MCEqRun.__init__.

  /** The pairs a loop over `s` writes into one dictionary. */
  function Pairs<K, V>(s: seq<Species>, key: Species -> K, val: Species -> V): seq<(K, V)>
  {
    if s == [] then [] else Pairs(s[..|s| - 1], key, val) + [(key(s[|s| - 1]), val(s[|s| - 1]))]
  }

  /** The `i`-th pair is written from the `i`-th species. */
  lemma {:induction false} PairsAt<K, V>(s: seq<Species>, key: Species -> K, val: Species -> V)
    ensures |Pairs(s, key, val)| == |s|
    ensures forall i :: 0 <= i < |s| ==> Pairs(s, key, val)[i] == (key(s[i]), val(s[i]))
  {
    if s != [] {
      PairsAt(s[..|s| - 1], key, val);
    }
  }

  lemma PairsSnoc<K, V>(s: seq<Species>, i: int, key: Species -> K, val: Species -> V)
    requires 0 <= i < |s|
    ensures Pairs(s[..i + 1], key, val) == Pairs(s[..i], key, val) + [(key(s[i]), val(s[i]))]
  {
    assert s[..i + 1][..i] == s[..i];
  }

  function Pdg2Nceidx(s: seq<Species>): map<int, int> { Build(Pairs(s, PdgOf, IndexOf)) }
  function Pname2Nceidx(s: seq<Species>): map<string, int> { Build(Pairs(s, NameOf, IndexOf)) }
  function Nceidx2Pdg(s: seq<Species>): map<int, int> { Build(Pairs(s, IndexOf, PdgOf)) }
  function Nceidx2Pname(s: seq<Species>): map<int, string> { Build(Pairs(s, IndexOf, NameOf)) }
  function Pdg2Pref(s: seq<Species>): map<int, Species> { Build(Pairs(s, PdgOf, SpeciesOf)) }
  function Pname2Pref(s: seq<Species>): map<string, Species> { Build(Pairs(s, NameOf, SpeciesOf)) }

  /** One more species of the loop writes one more entry into each dictionary. */
  lemma DictionariesStep(s: seq<Species>, i: int)
    requires 0 <= i < |s|
    ensures Pdg2Nceidx(s[..i + 1]) == Pdg2Nceidx(s[..i])[s[i].pdgid := IndexOf(s[i])]
    ensures Pname2Nceidx(s[..i + 1]) == Pname2Nceidx(s[..i])[s[i].name := IndexOf(s[i])]
    ensures Nceidx2Pdg(s[..i + 1]) == Nceidx2Pdg(s[..i])[IndexOf(s[i]) := s[i].pdgid]
    ensures Nceidx2Pname(s[..i + 1]) == Nceidx2Pname(s[..i])[IndexOf(s[i]) := s[i].name]
    ensures Pdg2Pref(s[..i + 1]) == Pdg2Pref(s[..i])[s[i].pdgid := s[i]]
    ensures Pname2Pref(s[..i + 1]) == Pname2Pref(s[..i])[s[i].name := s[i]]
  {
    var p := s[i];
    PairsSnoc(s, i, PdgOf, IndexOf);
    BuildSnoc(Pairs(s[..i], PdgOf, IndexOf), (p.pdgid, IndexOf(p)));
    PairsSnoc(s, i, NameOf, IndexOf);
    BuildSnoc(Pairs(s[..i], NameOf, IndexOf), (p.name, IndexOf(p)));
    PairsSnoc(s, i, IndexOf, PdgOf);
    BuildSnoc(Pairs(s[..i], IndexOf, PdgOf), (IndexOf(p), p.pdgid));
    PairsSnoc(s, i, IndexOf, NameOf);
    BuildSnoc(Pairs(s[..i], IndexOf, NameOf), (IndexOf(p), p.name));
    PairsSnoc(s, i, PdgOf, SpeciesOf);
    BuildSnoc(Pairs(s[..i], PdgOf, SpeciesOf), (p.pdgid, p));
    PairsSnoc(s, i, NameOf, SpeciesOf);
    BuildSnoc(Pairs(s[..i], NameOf, SpeciesOf), (p.name, p));
  }

  /** A key written by one species only reads back that species' value. */
  lemma PairsLookup<K, V>(s: seq<Species>, key: Species -> K, val: Species -> V, i: int)
    requires 0 <= i < |s|
    requires forall j :: 0 <= j < |s| && key(s[j]) == key(s[i]) ==> j == i
    ensures key(s[i]) in Build(Pairs(s, key, val)) && Build(Pairs(s, key, val))[key(s[i])] == val(s[i])
  {
    var pairs := Pairs(s, key, val);
    PairsAt(s, key, val);
    BuildKeys(pairs);
    assert pairs[i].0 == key(s[i]);
    forall j | 0 <= j < |pairs| && pairs[j].0 == key(s[i])
      ensures pairs[j].1 == val(s[i])
    {
      assert pairs[j] == (key(s[j]), val(s[j]));
    }
    BuildUniform(pairs, key(s[i]), val(s[i]));
  }

  /** The loop of `MCEqRun.__init__` that fills the six dictionaries from the
      species list, one species at a time. */
  method FillDictionaries(s: seq<Species>)
    returns (pdg2nceidx: map<int, int>, pname2nceidx: map<string, int>,
             nceidx2pdg: map<int, int>, nceidx2pname: map<int, string>,
             pdg2pref: map<int, Species>, pname2pref: map<string, Species>)
    ensures pdg2nceidx == Pdg2Nceidx(s) && pname2nceidx == Pname2Nceidx(s)
    ensures nceidx2pdg == Nceidx2Pdg(s) && nceidx2pname == Nceidx2Pname(s)
    ensures pdg2pref == Pdg2Pref(s) && pname2pref == Pname2Pref(s)
    ensures pdg2pref.Keys == IdsOf(s)
  {
    pdg2nceidx, pname2nceidx, nceidx2pdg, nceidx2pname, pdg2pref, pname2pref :=
      map[], map[], map[], map[], map[], map[];
    var i := 0;
    while i < |s|
      invariant 0 <= i <= |s|
      invariant pdg2nceidx == Pdg2Nceidx(s[..i]) && pname2nceidx == Pname2Nceidx(s[..i])
      invariant nceidx2pdg == Nceidx2Pdg(s[..i]) && nceidx2pname == Nceidx2Pname(s[..i])
      invariant pdg2pref == Pdg2Pref(s[..i]) && pname2pref == Pname2Pref(s[..i])
    {
      var p := s[i];
      var nceidx := if p.nceidx.Some? then p.nceidx.value else -1;
      DictionariesStep(s, i);
      pdg2nceidx := pdg2nceidx[p.pdgid := nceidx];
      pname2nceidx := pname2nceidx[p.name := nceidx];
      nceidx2pdg := nceidx2pdg[nceidx := p.pdgid];
      nceidx2pname := nceidx2pname[nceidx := p.name];
      pdg2pref := pdg2pref[p.pdgid := p];
      pname2pref := pname2pref[p.name := p];
      i := i + 1;
    }
    assert s[..i] == s;
    LookupKeys(s);
  }

  /** The lists a run is built from: numbered cascade particles, then resonances. */
  ghost predicate WellIndexed(cascade: seq<Species>, resonances: seq<Species>)
  {
    && (forall i :: 0 <= i < |cascade| ==> cascade[i].nceidx == Some(i))
    && Unindexed(resonances)
    && UniqueIds(cascade + resonances)
    && UniqueNames(cascade + resonances)
  }

  /** Only the i-th cascade particle writes index i. */
  lemma IndexWrittenOnce(cascade: seq<Species>, resonances: seq<Species>, i: int)
    requires WellIndexed(cascade, resonances) && 0 <= i < |cascade|
    ensures forall j :: 0 <= j < |cascade + resonances| ==> (IndexOf((cascade + resonances)[j]) == i ==> j == i)
  {
    var all := cascade + resonances;
    forall j | 0 <= j < |all| ensures IndexOf(all[j]) == i ==> j == i {
      if j < |cascade| {
        assert all[j] == cascade[j];
      } else {
        assert all[j] == resonances[j - |cascade|];
      }
    }
  }

  /** A cascade particle's id and name look up as its index, and its index looks
      up as its id and name. */
  lemma CascadeLookup(cascade: seq<Species>, resonances: seq<Species>, i: int)
    requires WellIndexed(cascade, resonances) && 0 <= i < |cascade|
    ensures cascade[i].pdgid in Pdg2Nceidx(cascade + resonances) && cascade[i].name in Pname2Nceidx(cascade + resonances)
    ensures i in Nceidx2Pdg(cascade + resonances) && i in Nceidx2Pname(cascade + resonances)
    ensures cascade[i].pdgid in Pdg2Pref(cascade + resonances) && cascade[i].name in Pname2Pref(cascade + resonances)
    ensures Pdg2Nceidx(cascade + resonances)[cascade[i].pdgid] == i
    ensures Pname2Nceidx(cascade + resonances)[cascade[i].name] == i
    ensures Nceidx2Pdg(cascade + resonances)[i] == cascade[i].pdgid
    ensures Nceidx2Pname(cascade + resonances)[i] == cascade[i].name
    ensures Pdg2Pref(cascade + resonances)[cascade[i].pdgid] == cascade[i]
    ensures Pname2Pref(cascade + resonances)[cascade[i].name] == cascade[i]
  {
    var all := cascade + resonances;
    assert all[i] == cascade[i];
    IndexWrittenOnce(cascade, resonances, i);
    PairsLookup(all, PdgOf, IndexOf, i);
    PairsLookup(all, NameOf, IndexOf, i);
    PairsLookup(all, PdgOf, SpeciesOf, i);
    PairsLookup(all, NameOf, SpeciesOf, i);
    PairsLookup(all, IndexOf, PdgOf, i);
    PairsLookup(all, IndexOf, NameOf, i);
  }

  /** A resonance's id and name look up as -1 and as the resonance itself. */
  lemma ResonanceLookup(cascade: seq<Species>, resonances: seq<Species>, k: int)
    requires WellIndexed(cascade, resonances) && 0 <= k < |resonances|
    ensures resonances[k].pdgid in Pdg2Nceidx(cascade + resonances) && resonances[k].name in Pname2Nceidx(cascade + resonances)
    ensures resonances[k].pdgid in Pdg2Pref(cascade + resonances) && resonances[k].name in Pname2Pref(cascade + resonances)
    ensures Pdg2Nceidx(cascade + resonances)[resonances[k].pdgid] == -1
    ensures Pname2Nceidx(cascade + resonances)[resonances[k].name] == -1
    ensures Pdg2Pref(cascade + resonances)[resonances[k].pdgid] == resonances[k]
    ensures Pname2Pref(cascade + resonances)[resonances[k].name] == resonances[k]
  {
    var all := cascade + resonances;
    var j := |cascade| + k;
    assert all[j] == resonances[k];
    PairsLookup(all, PdgOf, IndexOf, j);
    PairsLookup(all, NameOf, IndexOf, j);
    PairsLookup(all, PdgOf, SpeciesOf, j);
    PairsLookup(all, NameOf, SpeciesOf, j);
  }

  /** The id and name dictionaries hold exactly the ids and names of the list. */
  lemma LookupKeys(all: seq<Species>)
    ensures Pdg2Pref(all).Keys == set p | p in all :: p.pdgid
    ensures Pname2Pref(all).Keys == set p | p in all :: p.name
    ensures Pdg2Nceidx(all).Keys == set p | p in all :: p.pdgid
    ensures Pname2Nceidx(all).Keys == set p | p in all :: p.name
  {
    PairsAt(all, PdgOf, SpeciesOf);
    PairsAt(all, NameOf, SpeciesOf);
    PairsAt(all, PdgOf, IndexOf);
    PairsAt(all, NameOf, IndexOf);
    BuildKeys(Pairs(all, PdgOf, SpeciesOf));
    BuildKeys(Pairs(all, NameOf, SpeciesOf));
    BuildKeys(Pairs(all, PdgOf, IndexOf));
    BuildKeys(Pairs(all, NameOf, IndexOf));
    assert forall p | p in all :: exists i :: 0 <= i < |all| && all[i] == p;
  }

  lemma MulMono(a: int, b: int, d: nat)
    requires a <= b
    ensures a * d <= b * d
  {
    assert b * d - a * d == (b - a) * d;
  }

  /** Each cascade particle owns a block of `d` bins inside [0, d * n). */
  lemma BlockBounds(cascade: seq<Species>, d: nat, i: int)
    requires forall k :: 0 <= k < |cascade| ==> cascade[k].nceidx == Some(k)
    requires 0 <= i < |cascade|
    ensures 0 <= RangeOf(cascade[i], d).lo
    ensures RangeOf(cascade[i], d).hi - RangeOf(cascade[i], d).lo == d
    ensures RangeOf(cascade[i], d).hi <= d * |cascade|
  {
    assert RangeOf(cascade[i], d) == Range(i * d, (i + 1) * d);
    MulMono(0, i, d);
    MulMono(i + 1, |cascade|, d);
  }

  /** Cascade particles own disjoint blocks of `d` bins that tile [0, d * n). */
  lemma BlocksTile(cascade: seq<Species>, d: nat, i: int, j: int)
    requires forall k :: 0 <= k < |cascade| ==> cascade[k].nceidx == Some(k)
    requires 0 <= i < j < |cascade|
    ensures 0 <= RangeOf(cascade[i], d).lo
    ensures RangeOf(cascade[i], d).hi <= RangeOf(cascade[j], d).lo
    ensures RangeOf(cascade[j], d).hi <= d * |cascade|
    ensures RangeOf(cascade[i], d).hi - RangeOf(cascade[i], d).lo == d
  {
    assert RangeOf(cascade[i], d) == Range(i * d, (i + 1) * d);
    assert RangeOf(cascade[j], d) == Range(j * d, (j + 1) * d);
    MulMono(0, i, d);
    MulMono(i + 1, j, d);
    MulMono(j + 1, |cascade|, d);
  }
}
