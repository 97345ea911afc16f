/** The routing done by `_follow_chains` and `_fill_matrices`: which block of the
    interaction matrix C and the decay matrix D receives which contribution.

    A contribution is one `+=` on a block: the rows are the destination range, the
    columns the source range, and the value is a product of redistribution
    matrices that the data providers fill in. The model keeps that product
    symbolically, as the list of matrices in the order they are applied: the
    first is applied to the source particle, and `dprop.dot(pprod)` is the list
    `pprod` followed by `dprop`. The numbers inside the matrices are not modelled. */
module Chains {
  import opened Base
  import opened Particles
  import opened Aliases

  /** Which index set of a species a redistribution matrix starts from or ends
      in: `hadridx()` (the species as it propagates) or `residx()` (the species
      as a short-lived intermediate that decays at once). */
  datatype Sub = Had | Res

  /** One redistribution matrix: a decay matrix filled by `assign_d_idx`, or a
      yield matrix filled by `assign_yield_idx` (which always reads the
      projectile's `hadridx()`). */
  datatype Hop =
    | Decay(mother: int, entry: Sub, daughter: int, exit: Sub)
    | Yield(projectile: int, secondary: int, exit: Sub)

  /** One `propmat[rows, cols] += term`. */
  datatype Contribution = Contribution(rows: Range, cols: Range, term: seq<Hop>)

  /** What the routing reads: the block size `d`, `pdg2pref`, the two routing
      tables, the decay channels of each mother (`ds.daughters`) and the
      secondaries of each projectile (`y.secondary_dict`; a species is a
      projectile when it has an entry there). */
  datatype Catalog = Catalog(
    d: nat,
    ref: map<int, Species>,
    aliasTable: Table,
    obsTable: Table,
    daughters: map<int, seq<int>>,
    secondaries: map<int, seq<int>>)

  /** `ds.daughters(p)`; a species without decay channels has none. */
  function Daughters(cat: Catalog, p: int): seq<int>
  {
    if p in cat.daughters then cat.daughters[p] else []
  }

  /** Every species the routing looks up is in `pdg2pref`, and every table entry
      it hits points at a species in `pdg2pref`; otherwise the source stops with
      a KeyError, which is outside this model. */
  ghost predicate Closed(cat: Catalog)
  {
    && (forall p, x :: p in cat.daughters && x in cat.daughters[p] ==>
          && x in cat.ref
          && !Lookup(cat.aliasTable, cat.ref, cat.d, p, x).Failure?
          && !Lookup(cat.obsTable, cat.ref, cat.d, p, x).Failure?)
    && (forall p, s :: p in cat.secondaries && s in cat.secondaries[p] ==> s in cat.ref)
  }

  /** Decay chains end: each daughter ranks strictly below its mother. */
  ghost predicate Ranked(cat: Catalog, rank: int -> nat)
  {
    forall p, x :: p in cat.daughters && x in cat.daughters[p] ==> rank(x) < rank(p)
  }

  lemma DaughterFacts(cat: Catalog, rank: int -> nat, p: int, x: int)
    requires Closed(cat) && Ranked(cat, rank) && x in Daughters(cat, p)
    ensures x in cat.ref && rank(x) < rank(p)
    ensures !Lookup(cat.aliasTable, cat.ref, cat.d, p, x).Failure?
    ensures !Lookup(cat.obsTable, cat.ref, cat.d, p, x).Failure?
  {
  }

  /** Where the decay of `m` into `x` is scored: the alias range when `_alias`
      has one, otherwise the daughter's own range. */
  ghost function Dest(cat: Catalog, m: int, x: int): (r: Range)
    requires Closed(cat) && x in Daughters(cat, m)
    ensures Lookup(cat.aliasTable, cat.ref, cat.d, m, x) == Ok(None) ==> r == RangeOf(cat.ref[x], cat.d)
    ensures Lookup(cat.aliasTable, cat.ref, cat.d, m, x) != Ok(None) ==> Lookup(cat.aliasTable, cat.ref, cat.d, m, x) == Ok(Some(r))
  {
    var alias := Lookup(cat.aliasTable, cat.ref, cat.d, m, x);
    if alias.Ok? && alias.value.Some? then alias.value.value else RangeOf(cat.ref[x], cat.d)
  }

  /** The observer range `_alternate_score` adds on top, if any. */
  ghost function Extra(cat: Catalog, m: int, x: int): (r: seq<Range>)
    requires Closed(cat) && x in Daughters(cat, m)
    ensures |r| <= 1
    ensures r == [] <==> Lookup(cat.obsTable, cat.ref, cat.d, m, x) == Ok(None)
    ensures forall o :: o in r ==> Lookup(cat.obsTable, cat.ref, cat.d, m, x) == Ok(Some(o))
  {
    match Lookup(cat.obsTable, cat.ref, cat.d, m, x)
    case Ok(Some(o)) => [o]
    case _ => []
  }

  ghost predicate IsMixed(cat: Catalog, x: int)
  {
    x in cat.ref && cat.ref[x].isMixed
  }

  // ---------------------------------------------------------------------------
  // The specification of `_follow_chains`.

  /** All contributions `_follow_chains(p, pprod, p_orig, idcs, propmat)` adds,
      in the order it adds them. */
  ghost function Follow(cat: Catalog, rank: int -> nat, p: int, pprod: seq<Hop>, pOrig: int, idcs: Sub): seq<Contribution>
    requires Closed(cat) && Ranked(cat, rank) && pOrig in cat.ref
    decreases rank(p), 2, 0
  {
    FollowFrom(cat, rank, p, |Daughters(cat, p)|, pprod, pOrig, idcs)
  }

  /** What the loop over the daughters of `p` has added after its first `n` rounds. */
  ghost function FollowFrom(cat: Catalog, rank: int -> nat, p: int, n: nat, pprod: seq<Hop>, pOrig: int, idcs: Sub): seq<Contribution>
    requires Closed(cat) && Ranked(cat, rank) && pOrig in cat.ref
    requires n <= |Daughters(cat, p)|
    decreases rank(p), 1, n
  {
    if n == 0 then []
    else FollowFrom(cat, rank, p, n - 1, pprod, pOrig, idcs)
         + Step(cat, rank, p, Daughters(cat, p)[n - 1], pprod, pOrig, idcs)
  }

  /** The two terms one round of that loop adds for the daughter `x` before any
      recursion: the decay term into the destination range, and into the
      observer range when there is one. */
  ghost function Direct(cat: Catalog, p: int, x: int, pprod: seq<Hop>, pOrig: int, idcs: Sub): seq<Contribution>
    requires Closed(cat) && pOrig in cat.ref
    requires x in Daughters(cat, p)
  {
    var cols := RangeOf(cat.ref[pOrig], cat.d);
    var term := pprod + [Decay(p, idcs, x, Had)];
    [Contribution(Dest(cat, p, x), cols, term)]
    + (if Extra(cat, p, x) == [] then [] else [Contribution(Extra(cat, p, x)[0], cols, term)])
  }

  /** One round of that loop, for the daughter `x`: the direct terms and, when
      `x` is mixed, everything the recursive call adds. */
  ghost function Step(cat: Catalog, rank: int -> nat, p: int, x: int, pprod: seq<Hop>, pOrig: int, idcs: Sub): seq<Contribution>
    requires Closed(cat) && Ranked(cat, rank) && pOrig in cat.ref
    requires x in Daughters(cat, p)
    decreases rank(p), 0, 0
  {
    DaughterFacts(cat, rank, p, x);
    Direct(cat, p, x, pprod, pOrig, idcs)
    + (if cat.ref[x].isMixed then Follow(cat, rank, x, pprod + [Decay(p, idcs, x, Res)], pOrig, Res) else [])
  }

  // ---------------------------------------------------------------------------
  // What every contribution looks like.

  /** `hops` is a decay chain that starts at `p` from the index set `idcs`: each
      hop is a decay of the previous daughter through its resonance index set,
      every intermediate daughter is mixed, and the last hop ends in the
      daughter's propagating index set. */
  ghost predicate IsChain(cat: Catalog, p: int, idcs: Sub, hops: seq<Hop>)
    decreases |hops|
  {
    && |hops| > 0
    && hops[0].Decay? && hops[0].mother == p && hops[0].entry == idcs
    && hops[0].daughter in Daughters(cat, p)
    && if |hops| == 1 then hops[0].exit == Had
       else hops[0].exit == Res && IsMixed(cat, hops[0].daughter)
            && IsChain(cat, hops[0].daughter, Res, hops[1..])
  }

  /** The rows of `c` are chosen by the last decay of its term: the alias range
      of that mother/daughter pair (or the daughter's own range), or its
      observer range. */
  ghost predicate Routed(cat: Catalog, c: Contribution)
    requires Closed(cat)
  {
    && |c.term| > 0
    && var h := c.term[|c.term| - 1];
       && h.Decay? && h.daughter in Daughters(cat, h.mother)
       && (c.rows == Dest(cat, h.mother, h.daughter) || c.rows in Extra(cat, h.mother, h.daughter))
  }

  /** A contribution of `_follow_chains(p, pprod, p_orig, idcs, ...)`. */
  ghost predicate FromChain(cat: Catalog, p: int, pprod: seq<Hop>, pOrig: int, idcs: Sub, c: Contribution)
    requires Closed(cat) && pOrig in cat.ref
  {
    && c.cols == RangeOf(cat.ref[pOrig], cat.d)
    && |pprod| < |c.term| && c.term[..|pprod|] == pprod
    && IsChain(cat, p, idcs, c.term[|pprod|..])
    && Routed(cat, c)
  }

  lemma ChainLast(cat: Catalog, p: int, idcs: Sub, hops: seq<Hop>)
    requires IsChain(cat, p, idcs, hops)
    ensures var h := hops[|hops| - 1]; h.Decay? && h.exit == Had && h.daughter in Daughters(cat, h.mother)
    decreases |hops|
  {
    if |hops| > 1 {
      ChainLast(cat, hops[0].daughter, Res, hops[1..]);
    }
  }

  /** Every contribution of `_follow_chains` is written into the columns of the
      original mother, extends `pprod`, follows a decay chain from `p`, and is
      routed by its last decay. */
  lemma {:induction false} FollowSound(cat: Catalog, rank: int -> nat, p: int, pprod: seq<Hop>, pOrig: int, idcs: Sub)
    requires Closed(cat) && Ranked(cat, rank) && pOrig in cat.ref
    ensures forall c :: c in Follow(cat, rank, p, pprod, pOrig, idcs) ==> FromChain(cat, p, pprod, pOrig, idcs, c)
    decreases rank(p), 2, 0
  {
    FollowFromSound(cat, rank, p, |Daughters(cat, p)|, pprod, pOrig, idcs);
  }

  lemma {:induction false} FollowFromSound(cat: Catalog, rank: int -> nat, p: int, n: nat, pprod: seq<Hop>, pOrig: int, idcs: Sub)
    requires Closed(cat) && Ranked(cat, rank) && pOrig in cat.ref
    requires n <= |Daughters(cat, p)|
    ensures forall c :: c in FollowFrom(cat, rank, p, n, pprod, pOrig, idcs) ==> FromChain(cat, p, pprod, pOrig, idcs, c)
    decreases rank(p), 1, n
  {
    if n > 0 {
      FollowFromSound(cat, rank, p, n - 1, pprod, pOrig, idcs);
      StepSound(cat, rank, p, Daughters(cat, p)[n - 1], pprod, pOrig, idcs);
    }
  }

  lemma {:induction false} StepSound(cat: Catalog, rank: int -> nat, p: int, x: int, pprod: seq<Hop>, pOrig: int, idcs: Sub)
    requires Closed(cat) && Ranked(cat, rank) && pOrig in cat.ref
    requires x in Daughters(cat, p)
    ensures forall c :: c in Step(cat, rank, p, x, pprod, pOrig, idcs) ==> FromChain(cat, p, pprod, pOrig, idcs, c)
    decreases rank(p), 0, 0
  {
    DaughterFacts(cat, rank, p, x);
    var cols := RangeOf(cat.ref[pOrig], cat.d);
    var hop := Decay(p, idcs, x, Had);
    var term := pprod + [hop];
    assert term[..|pprod|] == pprod && term[|pprod|..] == [hop];
    assert term[|term| - 1] == hop;
    var pprod' := pprod + [Decay(p, idcs, x, Res)];
    if cat.ref[x].isMixed {
      FollowSound(cat, rank, x, pprod', pOrig, Res);
      forall c | c in Follow(cat, rank, x, pprod', pOrig, Res)
        ensures FromChain(cat, p, pprod, pOrig, idcs, c)
      {
        assert c.term[..|pprod'|] == pprod';
        assert c.term[..|pprod|] == pprod'[..|pprod|] == pprod;
        var tail := c.term[|pprod'|..];
        assert c.term[|pprod|..] == [Decay(p, idcs, x, Res)] + tail;
        assert ([Decay(p, idcs, x, Res)] + tail)[1..] == tail;
      }
    }
  }

  /** The loop over the daughters reaches every daughter. */
  lemma {:induction false} StepInFollowFrom(cat: Catalog, rank: int -> nat, p: int, n: nat, i: nat, pprod: seq<Hop>, pOrig: int, idcs: Sub)
    requires Closed(cat) && Ranked(cat, rank) && pOrig in cat.ref
    requires i < n <= |Daughters(cat, p)|
    ensures forall c :: c in Step(cat, rank, p, Daughters(cat, p)[i], pprod, pOrig, idcs)
                     ==> c in FollowFrom(cat, rank, p, n, pprod, pOrig, idcs)
    decreases n
  {
    if i < n - 1 {
      StepInFollowFrom(cat, rank, p, n - 1, i, pprod, pOrig, idcs);
    }
  }

  /** For every daughter `x` of `p`, `_follow_chains` adds the decay term to the
      alias-or-own range and to the observer range, and, exactly when `x` is
      mixed, everything the chain through `x` adds. */
  lemma FollowComplete(cat: Catalog, rank: int -> nat, p: int, x: int, pprod: seq<Hop>, pOrig: int, idcs: Sub)
    requires Closed(cat) && Ranked(cat, rank) && pOrig in cat.ref
    requires x in Daughters(cat, p)
    ensures var cols := RangeOf(cat.ref[pOrig], cat.d);
      var term := pprod + [Decay(p, idcs, x, Had)];
      var all := Follow(cat, rank, p, pprod, pOrig, idcs);
      && Contribution(Dest(cat, p, x), cols, term) in all
      && (forall o :: o in Extra(cat, p, x) ==> Contribution(o, cols, term) in all)
      && (IsMixed(cat, x) ==> forall c :: c in Follow(cat, rank, x, pprod + [Decay(p, idcs, x, Res)], pOrig, Res) ==> c in all)
  {
    var ds := Daughters(cat, p);
    var i :| 0 <= i < |ds| && ds[i] == x;
    StepInFollowFrom(cat, rank, p, |ds|, i, pprod, pOrig, idcs);
    var cols := RangeOf(cat.ref[pOrig], cat.d);
    var term := pprod + [Decay(p, idcs, x, Had)];
    var st := Step(cat, rank, p, x, pprod, pOrig, idcs);
    assert st[0] == Contribution(Dest(cat, p, x), cols, term);
    forall o | o in Extra(cat, p, x) ensures Contribution(o, cols, term) in st {
      assert st[1] == Contribution(o, cols, term);
    }
  }

  /** Recursion happens only through mixed daughters: a daughter that is not
      mixed contributes its two direct terms and nothing else. */
  lemma UnmixedStops(cat: Catalog, rank: int -> nat, p: int, x: int, pprod: seq<Hop>, pOrig: int, idcs: Sub)
    requires Closed(cat) && Ranked(cat, rank) && pOrig in cat.ref
    requires x in Daughters(cat, p) && !IsMixed(cat, x)
    ensures forall c :: c in Step(cat, rank, p, x, pprod, pOrig, idcs) ==> c.term == pprod + [Decay(p, idcs, x, Had)]
  {
    DaughterFacts(cat, rank, p, x);
  }

  /** With the alias table `_init_alias_tables` builds, a contribution whose last
      decay is a charged pion (that is not a prompt mother) decaying into a
      lepton lands in the pion category of that lepton, or in an observer
      range. */
  lemma PionLeptonsRouted(cat: Catalog, prompt: seq<int>, c: Contribution)
    requires Closed(cat) && cat.aliasTable == AliasTable(prompt)
    requires Routed(cat, c)
    requires var h := c.term[|c.term| - 1];
      Abs(h.mother) == 211 && 211 !in prompt && Abs(h.daughter) in Leptons
    ensures var h := c.term[|c.term| - 1];
      var target := Sign(h.daughter) * (PionBase + Abs(h.daughter));
      target in cat.ref
      && (c.rows == RangeOf(cat.ref[target], cat.d) || c.rows in Extra(cat, h.mother, h.daughter))
  {
    var h := c.term[|c.term| - 1];
    AliasRouting(prompt, cat.ref, cat.d, h.mother, h.daughter);
  }

  // ---------------------------------------------------------------------------
  // The specification of `_fill_matrices`.

  /** The cascade particles are those of `pdg2pref`. */
  ghost predicate Registered(cat: Catalog, cascade: seq<Species>)
  {
    forall i :: 0 <= i < |cascade| ==> cascade[i].pdgid in cat.ref && cat.ref[cascade[i].pdgid] == cascade[i]
  }

  /** All of D after the loop of `_fill_matrices` has visited the first `n`
      cascade particles: the decay chains of every particle with decay channels. */
  ghost function FillD(cat: Catalog, rank: int -> nat, cascade: seq<Species>, n: nat): seq<Contribution>
    requires Closed(cat) && Ranked(cat, rank) && Registered(cat, cascade)
    requires n <= |cascade|
  {
    if n == 0 then []
    else
      var p := cascade[n - 1].pdgid;
      FillD(cat, rank, cascade, n - 1)
      + (if Daughters(cat, p) != [] then Follow(cat, rank, p, [], p, Had) else [])
  }

  /** What the secondaries loop adds to C for the projectile `p` after its first
      `m` secondaries: the direct yield into a secondary that is not a
      resonance, then the chains that start from the secondary's resonance
      index set. */
  ghost function FillCFor(cat: Catalog, rank: int -> nat, p: Species, m: nat): seq<Contribution>
    requires Closed(cat) && Ranked(cat, rank) && p.pdgid in cat.ref && p.pdgid in cat.secondaries
    requires m <= |cat.secondaries[p.pdgid]|
  {
    if m == 0 then []
    else
      var s := cat.secondaries[p.pdgid][m - 1];
      FillCFor(cat, rank, p, m - 1)
      + (if !cat.ref[s].isResonance
         then [Contribution(RangeOf(cat.ref[s], cat.d), RangeOf(p, cat.d), [Yield(p.pdgid, s, Had)])]
         else [])
      + Follow(cat, rank, s, [Yield(p.pdgid, s, Res)], p.pdgid, Res)
  }

  /** All of C after the loop of `_fill_matrices` has visited the first `n`
      cascade particles; particles that are not projectiles are skipped. */
  ghost function FillC(cat: Catalog, rank: int -> nat, cascade: seq<Species>, n: nat): seq<Contribution>
    requires Closed(cat) && Ranked(cat, rank) && Registered(cat, cascade)
    requires n <= |cascade|
  {
    if n == 0 then []
    else
      var p := cascade[n - 1];
      FillC(cat, rank, cascade, n - 1)
      + (if p.pdgid in cat.secondaries then FillCFor(cat, rank, p, |cat.secondaries[p.pdgid]|) else [])
  }

  /** Every block of D is written into the columns of a cascade particle with
      decay channels, along a decay chain of that particle that starts from its
      propagating index set. */
  lemma {:induction false} FillDSound(cat: Catalog, rank: int -> nat, cascade: seq<Species>, n: nat, c: Contribution)
    requires Closed(cat) && Ranked(cat, rank) && Registered(cat, cascade)
    requires n <= |cascade|
    requires c in FillD(cat, rank, cascade, n)
    ensures exists i :: (0 <= i < n && Daughters(cat, cascade[i].pdgid) != []
      && c.cols == RangeOf(cascade[i], cat.d)
      && IsChain(cat, cascade[i].pdgid, Had, c.term) && Routed(cat, c))
  {
    var p := cascade[n - 1].pdgid;
    if c in FillD(cat, rank, cascade, n - 1) {
      FillDSound(cat, rank, cascade, n - 1, c);
      var i :| 0 <= i < n - 1 && Daughters(cat, cascade[i].pdgid) != []
        && c.cols == RangeOf(cascade[i], cat.d)
        && IsChain(cat, cascade[i].pdgid, Had, c.term) && Routed(cat, c);
    } else {
      FollowSound(cat, rank, p, [], p, Had);
      assert c.term[0..] == c.term;
      assert FromChain(cat, p, [], p, Had, c);
    }
  }

  /** Every block of C is written into the columns of a projectile `p` and is
      either the direct yield of a secondary `s` that is not a resonance into
      the secondary's own range, or starts with the yield of `s` into its
      resonance index set and continues along a decay chain of `s`. */
  ghost predicate FromProjectile(cat: Catalog, p: Species, c: Contribution)
    requires Closed(cat) && p.pdgid in cat.secondaries
  {
    && c.cols == RangeOf(p, cat.d)
    && exists s :: (s in cat.secondaries[p.pdgid] &&
      ( (!cat.ref[s].isResonance
         && c == Contribution(RangeOf(cat.ref[s], cat.d), RangeOf(p, cat.d), [Yield(p.pdgid, s, Had)]))
      || (|c.term| > 1 && c.term[0] == Yield(p.pdgid, s, Res)
          && IsChain(cat, s, Res, c.term[1..]) && Routed(cat, c))))
  }

  lemma {:induction false} FillCForSound(cat: Catalog, rank: int -> nat, p: Species, m: nat, c: Contribution)
    requires Closed(cat) && Ranked(cat, rank) && p.pdgid in cat.ref && p.pdgid in cat.secondaries
    requires cat.ref[p.pdgid] == p
    requires m <= |cat.secondaries[p.pdgid]|
    requires c in FillCFor(cat, rank, p, m)
    ensures FromProjectile(cat, p, c)
  {
    var s := cat.secondaries[p.pdgid][m - 1];
    var direct := if !cat.ref[s].isResonance
         then [Contribution(RangeOf(cat.ref[s], cat.d), RangeOf(p, cat.d), [Yield(p.pdgid, s, Had)])]
         else [];
    if c in FillCFor(cat, rank, p, m - 1) {
      FillCForSound(cat, rank, p, m - 1, c);
    } else if c in direct {
      assert s in cat.secondaries[p.pdgid];
    } else {
      FollowSound(cat, rank, s, [Yield(p.pdgid, s, Res)], p.pdgid, Res);
      assert FromChain(cat, s, [Yield(p.pdgid, s, Res)], p.pdgid, Res, c);
      assert c.term[0] == c.term[..1][0];
      assert s in cat.secondaries[p.pdgid];
    }
  }

  lemma {:induction false} FillCSound(cat: Catalog, rank: int -> nat, cascade: seq<Species>, n: nat, c: Contribution)
    requires Closed(cat) && Ranked(cat, rank) && Registered(cat, cascade)
    requires n <= |cascade|
    requires c in FillC(cat, rank, cascade, n)
    ensures exists i :: 0 <= i < n && cascade[i].pdgid in cat.secondaries && FromProjectile(cat, cascade[i], c)
  {
    var p := cascade[n - 1];
    if c in FillC(cat, rank, cascade, n - 1) {
      FillCSound(cat, rank, cascade, n - 1, c);
    } else {
      FillCForSound(cat, rank, p, |cat.secondaries[p.pdgid]|, c);
      assert 0 <= n - 1 < n && cascade[n - 1].pdgid in cat.secondaries && FromProjectile(cat, cascade[n - 1], c);
    }
  }

  // ---------------------------------------------------------------------------
  // The matrices themselves.

  /** A matrix C or D, as the list of `+=` applied to it since it was zeroed. */
  class Operator {
    var terms: seq<Contribution>

    constructor ()
      ensures terms == []
    {
      terms := [];
    }
  }

  lemma Regroup(a: seq<Contribution>, b: seq<Contribution>, c: seq<Contribution>, e: seq<Contribution>)
    ensures a + b + c + e == a + (b + (c + e))
  {
  }

  /** The body of the daughter loop of `_follow_chains` up to the recursion:
      the decay term is added to the `_alias` range (or the daughter's own
      range) and to the `_alternate_score` range when there is one. */
  method ScoreDecay(cat: Catalog, p: int, x: int, pprod: seq<Hop>, pOrig: int, idcs: Sub, propmat: Operator)
    requires Closed(cat) && pOrig in cat.ref
    requires x in Daughters(cat, p)
    modifies propmat
    ensures propmat.terms == old(propmat.terms) + Direct(cat, p, x, pprod, pOrig, idcs)
  {
    var r := cat.ref;
    var cols := RangeOf(r[pOrig], cat.d);
    var dprop := pprod + [Decay(p, idcs, x, Had)];
    var alias := Lookup(cat.aliasTable, r, cat.d, p, x);
    if alias.Ok? && alias.value.Some? {
      propmat.terms := propmat.terms + [Contribution(alias.value.value, cols, dprop)];
    } else {
      propmat.terms := propmat.terms + [Contribution(RangeOf(r[x], cat.d), cols, dprop)];
    }
    var altScore := Lookup(cat.obsTable, r, cat.d, p, x);
    if altScore.Ok? && altScore.value.Some? {
      propmat.terms := propmat.terms + [Contribution(altScore.value.value, cols, dprop)];
    }
  }

  /** `_follow_chains`: walks the daughters of `p`, adds each decay term to the
      routed blocks of `propmat`, and recurses into mixed daughters. */
  method FollowChains(cat: Catalog, ghost rank: int -> nat, p: int, pprod: seq<Hop>, pOrig: int, idcs: Sub, propmat: Operator)
    requires Closed(cat) && Ranked(cat, rank) && pOrig in cat.ref
    modifies propmat
    ensures propmat.terms == old(propmat.terms) + Follow(cat, rank, p, pprod, pOrig, idcs)
    decreases rank(p), 1
  {
    var ds := if p in cat.daughters then cat.daughters[p] else [];
    var i := 0;
    while i < |ds|
      invariant 0 <= i <= |ds|
      invariant propmat.terms == old(propmat.terms) + FollowFrom(cat, rank, p, i, pprod, pOrig, idcs)
    {
      FollowDaughter(cat, rank, p, i, pprod, pOrig, idcs, propmat, old(propmat.terms));
      i := i + 1;
    }
  }

  /** One round of the daughter loop of `_follow_chains`, for the `i`-th
      daughter `x` of `p`: the decay terms, then the chains through `x` when it
      is mixed. */
  method FollowDaughter(cat: Catalog, ghost rank: int -> nat, p: int, i: nat, pprod: seq<Hop>, pOrig: int, idcs: Sub,
                        propmat: Operator, ghost start: seq<Contribution>)
    requires Closed(cat) && Ranked(cat, rank) && pOrig in cat.ref
    requires i < |Daughters(cat, p)|
    requires propmat.terms == start + FollowFrom(cat, rank, p, i, pprod, pOrig, idcs)
    modifies propmat
    ensures propmat.terms == start + FollowFrom(cat, rank, p, i + 1, pprod, pOrig, idcs)
    decreases rank(p), 0
  {
    var x := Daughters(cat, p)[i];
    DaughterFacts(cat, rank, p, x);
    ghost var done := propmat.terms;
    ScoreDecay(cat, p, x, pprod, pOrig, idcs, propmat);
    ghost var direct := Direct(cat, p, x, pprod, pOrig, idcs);
    ghost var rec := if cat.ref[x].isMixed then Follow(cat, rank, x, pprod + [Decay(p, idcs, x, Res)], pOrig, Res) else [];
    if cat.ref[x].isMixed {
      FollowChains(cat, rank, x, pprod + [Decay(p, idcs, x, Res)], pOrig, Res, propmat);
    }
    assert propmat.terms == done + direct + rec;
    assert Step(cat, rank, p, x, pprod, pOrig, idcs) == direct + rec;
    Regroup(start, FollowFrom(cat, rank, p, i, pprod, pOrig, idcs), direct, rec);
  }
}
