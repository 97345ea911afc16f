/** MCEqRun: the state of one cascade calculation and the operations that keep
    its discrete bookkeeping up to date (the constructor, `_init_alias_tables`,
    `_fill_matrices`, `set_obs_particles`, `set_theta_deg` and
    `_calculate_integration_path`). */
module Run {
  import opened Base
  import opened Particles
  import opened Aliases
  import opened Chains
  import opened Integration

  /** The atmosphere `set_atm_model` leaves behind: the zenith angle it was set
      to, and the inverse density profile the model computes for that angle. */
  datatype Atmosphere = Atmosphere(thetaDeg: real, profile: Profile)

  /** How `set_theta_deg` ends: the exception for a missing atmosphere, the early
      return for an unchanged angle, or a new angle. */
  datatype ThetaOutcome = NotReady | Unchanged | Updated

  /** Every id the routing tables can point at is a species of the catalog: the
      four lepton aliases of each category and their antiparticles. */
  ghost predicate AliasesRegistered(ids: set<int>)
  {
    forall l :: l in Leptons ==>
      && PromptBase + l in ids && -(PromptBase + l) in ids
      && PionBase + l in ids && -(PionBase + l) in ids
      && KaonBase + l in ids && -(KaonBase + l) in ids
      && ObsBase + l in ids && -(ObsBase + l) in ids
  }

  /** The decay and yield tables only name species of the catalog. */
  ghost predicate ProvidersKnown(ids: set<int>, daughters: map<int, seq<int>>, secondaries: map<int, seq<int>>)
  {
    && (forall p, x :: p in daughters && x in daughters[p] ==> x in ids)
    && (forall p, s :: p in secondaries && s in secondaries[p] ==> s in ids)
  }

  /** Decay chains end (the decay tables hold no cycle). */
  ghost predicate Acyclic(daughters: map<int, seq<int>>, rank: int -> nat)
  {
    forall p, x :: p in daughters && x in daughters[p] ==> rank(x) < rank(p)
  }

  /** A table entry for a lepton points at the alias id `base + l` or, for an
      antilepton, at its antiparticle. */
  lemma AliasTarget(t: Table, ref: map<int, Species>, d: nat, p: int, x: int, base: int)
    requires (Abs(p), Abs(x)) in t && Abs(x) in Leptons && t[(Abs(p), Abs(x))] == base + Abs(x)
    requires AliasesRegistered(ref.Keys)
    requires base == PromptBase || base == PionBase || base == KaonBase || base == ObsBase
    ensures !Lookup(t, ref, d, p, x).Failure?
  {
    if x > 0 {
      assert Sign(x) * t[(Abs(p), Abs(x))] == base + Abs(x);
    } else {
      assert Sign(x) * t[(Abs(p), Abs(x))] == -(base + Abs(x));
    }
  }

  /** The tables `_init_alias_tables` builds never send `_alias` or
      `_alternate_score` to an id outside the catalog, once the catalog holds
      the lepton aliases; so the routing over them never stops with a KeyError. */
  lemma RoutingClosed(cat: Catalog, prompt: seq<int>, obsIds: Option<seq<int>>)
    requires ProvidersKnown(cat.ref.Keys, cat.daughters, cat.secondaries) && AliasesRegistered(cat.ref.Keys)
    requires cat.aliasTable == AliasTable(prompt) && cat.obsTable == ObsTable(obsIds, cat.ref.Keys)
    ensures Closed(cat)
  {
    forall p, x | p in cat.daughters && x in cat.daughters[p]
      ensures !Lookup(cat.aliasTable, cat.ref, cat.d, p, x).Failure?
      ensures !Lookup(cat.obsTable, cat.ref, cat.d, p, x).Failure?
    {
      var key := (Abs(p), Abs(x));
      AliasTableContents(prompt, Abs(p), Abs(x));
      ObsTableContents(obsIds, cat.ref.Keys, Abs(p), Abs(x));
      if key in cat.aliasTable {
        var base := if Abs(p) in prompt then PromptBase else if Abs(p) == 211 then PionBase else KaonBase;
        AliasTarget(cat.aliasTable, cat.ref, cat.d, p, x, base);
      }
      if key in cat.obsTable {
        AliasTarget(cat.obsTable, cat.ref, cat.d, p, x, ObsBase);
      }
    }
  }

  /** Every cascade particle is its own entry of `pdg2pref`. */
  lemma CascadeRegistered(cat: Catalog, cascade: seq<Species>, resonances: seq<Species>)
    requires WellIndexed(cascade, resonances) && cat.ref == Pdg2Pref(cascade + resonances)
    ensures Registered(cat, cascade)
  {
    forall i | 0 <= i < |cascade|
      ensures cascade[i].pdgid in cat.ref && cat.ref[cascade[i].pdgid] == cascade[i]
    {
      CascadeLookup(cascade, resonances, i);
    }
  }

  /** The species list of `_gen_list_of_particles` and the six dictionaries
      the loop of `__init__` fills from it. */
  method IndexSpecies(records: seq<Species>)
    returns (all: seq<Species>, cascade: seq<Species>, res: seq<Species>,
             m1: map<int, int>, m2: map<string, int>, m3: map<int, int>,
             m4: map<int, string>, m5: map<int, Species>, m6: map<string, Species>)
    requires UniqueIds(records) && UniqueNames(records) && Unindexed(records)
    ensures all == cascade + res && cascade == CascadeOf(records) && res == ResonancesOf(records)
    ensures WellIndexed(cascade, res) && SortedByECrit(cascade)
    ensures m1 == Pdg2Nceidx(all) && m2 == Pname2Nceidx(all) && m3 == Nceidx2Pdg(all)
    ensures m4 == Nceidx2Pname(all) && m5 == Pdg2Pref(all) && m6 == Pname2Pref(all)
    ensures m5.Keys == IdsOf(records)
  {
    all, cascade, res := GenListOfParticles(records);
    SpeciesListIndexed(records);
    m1, m2, m3, m4, m5, m6 := FillDictionaries(all);
  }

  /** `_init_alias_tables` on the species list `species`, its dictionary
      `pdg2pref` and the observer ids: the alias table for the prompt mothers
      and the observer table. */
  method InitAliasTables(species: seq<Species>, pdg2pref: map<int, Species>, obsIds: Option<seq<int>>)
    returns (aliasTable: Table, obsTable: Table)
    requires PromptReference in pdg2pref
    ensures aliasTable == AliasTable(PromptIds(species, pdg2pref[PromptReference].eCrit))
    ensures obsTable == ObsTable(obsIds, pdg2pref.Keys)
  {
    var prompt := ScanPromptIds(species, pdg2pref);
    aliasTable := FillAliasTable(prompt.value);
    obsTable := FillObsTable(obsIds, pdg2pref.Keys);
  }

  /** The direct yield of projectile `p` into the secondary `s`, when `s` is not
      a resonance. */
  ghost function DirectYield(cat: Catalog, p: Species, s: int): seq<Contribution>
    requires s in cat.ref
  {
    if !cat.ref[s].isResonance
    then [Contribution(RangeOf(cat.ref[s], cat.d), RangeOf(p, cat.d), [Yield(p.pdgid, s, Had)])]
    else []
  }

  /** One more secondary appends its direct yield and its chains. */
  lemma FillCForNext(cat: Catalog, rank: int -> nat, p: Species, j: nat, start: seq<Contribution>)
    requires Closed(cat) && Ranked(cat, rank) && p.pdgid in cat.ref && p.pdgid in cat.secondaries
    requires j < |cat.secondaries[p.pdgid]|
    ensures var s := cat.secondaries[p.pdgid][j];
      && s in cat.ref
      && start + FillCFor(cat, rank, p, j + 1)
         == start + FillCFor(cat, rank, p, j) + DirectYield(cat, p, s) + Follow(cat, rank, s, [Yield(p.pdgid, s, Res)], p.pdgid, Res)
  {
    var s := cat.secondaries[p.pdgid][j];
    Regroup(start, FillCFor(cat, rank, p, j), DirectYield(cat, p, s), Follow(cat, rank, s, [Yield(p.pdgid, s, Res)], p.pdgid, Res));
  }

  /** The direct yield of the projectile `p` into its secondary `s`: scored into
      the secondary's own range unless the secondary is a resonance. */
  method AddDirectYield(cat: Catalog, p: Species, s: int, c: Operator)
    requires s in cat.ref
    modifies c
    ensures c.terms == old(c.terms) + DirectYield(cat, p, s)
  {
    var r := cat.ref;
    if !r[s].isResonance {
      c.terms := c.terms + [Contribution(RangeOf(r[s], cat.d), RangeOf(p, cat.d), [Yield(p.pdgid, s, Had)])];
    }
  }

  /** One pass of the secondaries loop of `_fill_matrices`: the direct yield
      into the `j`-th secondary, then the chains that start from it. */
  method ScoreSecondary(cat: Catalog, ghost rank: int -> nat, p: Species, j: nat, c: Operator, ghost start: seq<Contribution>)
    requires Closed(cat) && Ranked(cat, rank) && p.pdgid in cat.ref && p.pdgid in cat.secondaries
    requires j < |cat.secondaries[p.pdgid]|
    requires c.terms == start + FillCFor(cat, rank, p, j)
    modifies c
    ensures c.terms == start + FillCFor(cat, rank, p, j + 1)
  {
    var s := cat.secondaries[p.pdgid][j];
    FillCForNext(cat, rank, p, j, start);
    AddDirectYield(cat, p, s, c);
    FollowChains(cat, rank, s, [Yield(p.pdgid, s, Res)], p.pdgid, Res, c);
  }

  /** The secondaries loop of `_fill_matrices` for the projectile `p`. */
  method FillSecondaries(cat: Catalog, ghost rank: int -> nat, p: Species, c: Operator)
    requires Closed(cat) && Ranked(cat, rank)
    requires p.pdgid in cat.ref && p.pdgid in cat.secondaries
    modifies c
    ensures c.terms == old(c.terms) + FillCFor(cat, rank, p, |cat.secondaries[p.pdgid]|)
  {
    ghost var start := c.terms;
    var j := 0;
    while j < |cat.secondaries[p.pdgid]|
      invariant 0 <= j <= |cat.secondaries[p.pdgid]|
      invariant c.terms == start + FillCFor(cat, rank, p, j)
    {
      ScoreSecondary(cat, rank, p, j, c, start);
      j := j + 1;
    }
  }

  /** `_fill_matrices`: zeroed C and D; the decay chains of every cascade
      particle with decay channels go to D, and for every projectile the direct
      yields into its non-resonant secondaries and the chains from its
      secondaries go to C. */
  method FillMatrices(cat: Catalog, ghost rank: int -> nat, cascade: seq<Species>) returns (c: Operator, dm: Operator)
    requires Closed(cat) && Ranked(cat, rank) && Registered(cat, cascade)
    ensures fresh(c) && fresh(dm) && c != dm
    ensures dm.terms == FillD(cat, rank, cascade, |cascade|)
    ensures c.terms == FillC(cat, rank, cascade, |cascade|)
  {
    c := new Operator();
    dm := new Operator();
    var i := 0;
    while i < |cascade|
      invariant 0 <= i <= |cascade|
      invariant dm.terms == FillD(cat, rank, cascade, i)
      invariant c.terms == FillC(cat, rank, cascade, i)
    {
      var p := cascade[i];
      if p.pdgid in cat.daughters && cat.daughters[p.pdgid] != [] {
        FollowChains(cat, rank, p.pdgid, [], p.pdgid, Had, dm);
      }
      if p.pdgid in cat.secondaries {
        FillSecondaries(cat, rank, p, c);
      }
      i := i + 1;
    }
  }

  /** What `__init__` relies on without checking: distinct ids and names, no
      index assigned yet, D+ and the lepton aliases among the species, decay
      and yield tables that only name species, and decay chains that end. */
  ghost predicate Admissible(records: seq<Species>, daughters: map<int, seq<int>>, secondaries: map<int, seq<int>>,
                             rank: int -> nat)
  {
    && UniqueIds(records) && UniqueNames(records) && Unindexed(records)
    && PromptReference in IdsOf(records) && AliasesRegistered(IdsOf(records))
    && ProvidersKnown(IdsOf(records), daughters, secondaries) && Acyclic(daughters, rank)
  }

  /** The species list `species` splits into the cascade particles and the
      resonances, well indexed and sorted, with its six dictionaries, and the
      state dimension is `d` bins for each cascade particle. */
  ghost predicate SpeciesIndexed(d: nat, species: seq<Species>, cascade: seq<Species>, res: seq<Species>,
                                 m1: map<int, int>, m2: map<string, int>, m3: map<int, int>,
                                 m4: map<int, string>, m5: map<int, Species>, m6: map<string, Species>,
                                 nTot: int, dim: int)
  {
    && species == cascade + res
    && WellIndexed(cascade, res)
    && SortedByECrit(cascade)
    && (m1, m2, m3, m4, m5, m6)
       == (Pdg2Nceidx(species), Pname2Nceidx(species), Nceidx2Pdg(species),
           Nceidx2Pname(species), Pdg2Pref(species), Pname2Pref(species))
    && nTot == |cascade| && dim == d * nTot
  }

  /** The routing tables of `cat` are those `_init_alias_tables` builds for the
      species list and the observer ids, and the routing over them is defined
      for every cascade particle. */
  ghost predicate TablesBuilt(cat: Catalog, rank: int -> nat, species: seq<Species>, obsIds: Option<seq<int>>,
                              cascade: seq<Species>)
  {
    && PromptReference in cat.ref
    && cat.aliasTable == AliasTable(PromptIds(species, cat.ref[PromptReference].eCrit))
    && cat.obsTable == ObsTable(obsIds, cat.ref.Keys)
    && ProvidersKnown(cat.ref.Keys, cat.daughters, cat.secondaries)
    && AliasesRegistered(cat.ref.Keys)
    && Acyclic(cat.daughters, rank)
    && Closed(cat) && Ranked(cat, rank) && Registered(cat, cascade)
  }

  /** The body of `MCEqRun.__init__` on values: the species list, its
      dictionaries, the routing tables without observers, and both matrices. */
  method Initialize(d: nat, records: seq<Species>, daughters: map<int, seq<int>>, secondaries: map<int, seq<int>>,
                    ghost rank: int -> nat)
    returns (all: seq<Species>, cascade: seq<Species>, res: seq<Species>,
             m1: map<int, int>, m2: map<string, int>, m3: map<int, int>,
             m4: map<int, string>, m5: map<int, Species>, m6: map<string, Species>,
             alias: Table, obs: Table, c: Operator, dm: Operator)
    requires Admissible(records, daughters, secondaries, rank)
    ensures cascade == CascadeOf(records) && res == ResonancesOf(records)
    ensures SpeciesIndexed(d, all, cascade, res, m1, m2, m3, m4, m5, m6, |cascade|, d * |cascade|)
    ensures obs == map[]
    ensures var cat := Catalog(d, m5, alias, obs, daughters, secondaries);
      && TablesBuilt(cat, rank, all, None, cascade)
      && dm.terms == FillD(cat, rank, cascade, |cascade|)
      && c.terms == FillC(cat, rank, cascade, |cascade|)
    ensures fresh(c) && fresh(dm) && c != dm
  {
    all, cascade, res, m1, m2, m3, m4, m5, m6 := IndexSpecies(records);
    alias, obs := InitAliasTables(all, m5, None);
    var cat := Catalog(d, m5, alias, obs, daughters, secondaries);
    CascadeRegistered(cat, cascade, res);
    RoutingClosed(cat, PromptIds(all, m5[PromptReference].eCrit), None);
    c, dm := FillMatrices(cat, rank, cascade);
    ObsTableContents(None, m5.Keys, 0, 0);
  }

  /** The rebuild at the end of `set_obs_particles`: `_init_alias_tables` for
      the observer ids `obsIds`, then `_fill_matrices` over the new tables of
      a catalog whose tables were built for the observer ids `oldObs`. */
  method Reroute(cat: Catalog, ghost rank: int -> nat, species: seq<Species>, cascade: seq<Species>,
                 ghost oldObs: Option<seq<int>>, obsIds: Option<seq<int>>)
    returns (alias: Table, obs: Table, c: Operator, dm: Operator)
    requires TablesBuilt(cat, rank, species, oldObs, cascade)
    ensures var cat' := cat.(aliasTable := alias, obsTable := obs);
      && TablesBuilt(cat', rank, species, obsIds, cascade)
      && dm.terms == FillD(cat', rank, cascade, |cascade|)
      && c.terms == FillC(cat', rank, cascade, |cascade|)
    ensures fresh(c) && fresh(dm) && c != dm
  {
    alias, obs := InitAliasTables(species, cat.ref, obsIds);
    var cat' := cat.(aliasTable := alias, obsTable := obs);
    RoutingClosed(cat', PromptIds(species, cat.ref[PromptReference].eCrit), obsIds);
    c, dm := FillMatrices(cat', rank, cascade);
  }

  class MCEqRun {
    /** The number of energy bins (`self.d`). */
    const d: nat
    /** The decay channels of each mother (`self.ds`). */
    const daughters: map<int, seq<int>>
    /** The secondaries of each projectile (`self.y`). */
    const secondaries: map<int, seq<int>>
    /** Orders the catalog so that every daughter ranks below its mother. */
    ghost const rank: int -> nat
    /** The largest inverse decay length (`self.max_ldec`). */
    const maxLdec: real

    var particleSpecies: seq<Species>
    var cascadeParticles: seq<Species>
    var resonances: seq<Species>
    var pdg2nceidx: map<int, int>
    var pname2nceidx: map<string, int>
    var nceidx2pdg: map<int, int>
    var nceidx2pname: map<int, string>
    var pdg2pref: map<int, Species>
    var pname2pref: map<string, Species>
    var nTotSpecies: nat
    var dimStates: int

    var obsIds: Option<seq<int>>
    var aliasTable: Table
    var obsTable: Table

    /** The interaction and decay matrices. */
    var C: Operator
    var D: Operator

    /** None stands for a run whose `atm_config` or `atm_model` is not set. */
    var atm: Option<Atmosphere>
    var intGrid: Option<seq<real>>
    var gridVar: string
    var integrationPath: Option<IntegrationPath>

    /** What the chain routing reads. */
    function Cat(): Catalog
      reads this`pdg2pref, this`aliasTable, this`obsTable
    {
      Catalog(d, pdg2pref, aliasTable, obsTable, daughters, secondaries)
    }

    function Cache(): PathCache
      reads this`intGrid, this`gridVar, this`integrationPath
    {
      PathCache(intGrid, gridVar, integrationPath)
    }

    /** The species list, its dictionaries and the state dimension. */
    ghost predicate Indexed()
      reads this`particleSpecies, this`cascadeParticles, this`resonances
      reads this`pdg2nceidx, this`pname2nceidx, this`nceidx2pdg, this`nceidx2pname
      reads this`pdg2pref, this`pname2pref, this`nTotSpecies, this`dimStates
    {
      SpeciesIndexed(d, particleSpecies, cascadeParticles, resonances, pdg2nceidx, pname2nceidx,
                     nceidx2pdg, nceidx2pname, pdg2pref, pname2pref, nTotSpecies, dimStates)
    }

    /** The routing tables are those of the species list and the observer ids. */
    ghost predicate TablesCurrent()
      reads this`particleSpecies, this`cascadeParticles, this`pdg2pref
      reads this`obsIds, this`aliasTable, this`obsTable
    {
      TablesBuilt(Cat(), rank, particleSpecies, obsIds, cascadeParticles)
    }

    /** A cached integration path belongs to the current atmosphere. */
    ghost predicate PathCurrent()
      reads this`atm, this`intGrid, this`gridVar, this`integrationPath
    {
      && maxLdec > 0.0
      && (atm.None? ==> integrationPath.None?)
      && (atm.Some? ==> ValidProfile(atm.value.profile, maxLdec) && Consistent(Cache(), atm.value.profile, maxLdec))
    }

    ghost predicate Valid()
      reads this
    {
      Indexed() && TablesCurrent() && PathCurrent()
    }

    /** `MCEqRun.__init__` for a run without observers, with its interaction
        model and atmosphere set: the species list and its dictionaries, the
        routing tables, and both matrices filled. */
    constructor (d: nat, records: seq<Species>, daughters: map<int, seq<int>>, secondaries: map<int, seq<int>>,
                 ghost rank: int -> nat, maxLdec: real, atm: Option<Atmosphere>)
      requires Admissible(records, daughters, secondaries, rank)
      requires maxLdec > 0.0 && (atm.Some? ==> ValidProfile(atm.value.profile, maxLdec))
      ensures Valid()
      ensures D.terms == FillD(Cat(), this.rank, cascadeParticles, |cascadeParticles|)
      ensures C.terms == FillC(Cat(), this.rank, cascadeParticles, |cascadeParticles|)
      ensures cascadeParticles == CascadeOf(records) && resonances == ResonancesOf(records)
      ensures obsIds.None? && obsTable == map[]
      ensures integrationPath.None? && this.atm == atm
    {
      var all, cascade, res, m1, m2, m3, m4, m5, m6, alias, obs, c, dm := Initialize(d, records, daughters, secondaries, rank);
      this.d := d;
      this.daughters := daughters;
      this.secondaries := secondaries;
      this.rank := rank;
      this.maxLdec := maxLdec;
      this.atm := atm;
      obsIds := None;
      particleSpecies, cascadeParticles, resonances := all, cascade, res;
      pdg2nceidx, pname2nceidx, nceidx2pdg, nceidx2pname, pdg2pref, pname2pref := m1, m2, m3, m4, m5, m6;
      nTotSpecies := |cascade|;
      dimStates := d * |cascade|;
      aliasTable, obsTable := alias, obs;
      C, D := c, dm;
      intGrid, gridVar, integrationPath := None, "", None;
    }

    /** `set_obs_particles`, with the tables and matrices rebuilt whether or not
        observers are given: on a name that is neither a number nor a known
        particle name the run is left as it was and the name is returned. */
    method SetObsParticles(refs: Option<seq<ObsRef>>, modname2pdg: map<string, int>) returns (err: Option<string>)
      requires TablesCurrent()
      modifies this`obsIds, this`aliasTable, this`obsTable, this`C, this`D
      ensures TablesCurrent()
      ensures err.Some? ==> refs.Some? && obsIds == old(obsIds) && obsTable == old(obsTable)
                            && C == old(C) && D == old(D)
      ensures err.None? ==> (refs.None? <==> obsIds.None?)
      ensures err.None? && refs.Some? ==>
        obsIds.Some? && |obsIds.value| == |refs.value|
        && forall i :: 0 <= i < |refs.value| ==> ConvertObs(refs.value[i], modname2pdg) == Ok(obsIds.value[i])
      ensures err.None? ==> obsTable == ObsTable(obsIds, pdg2pref.Keys) && fresh(C) && fresh(D)
      ensures err.None? ==> D.terms == FillD(Cat(), rank, cascadeParticles, |cascadeParticles|)
      ensures err.None? ==> C.terms == FillC(Cat(), rank, cascadeParticles, |cascadeParticles|)
    {
      var ids: Option<seq<int>> := None;
      if refs.Some? {
        var converted := ConvertObsIds(refs.value, modname2pdg);
        if converted.Failure? {
          return Some(converted.error);
        }
        ids := Some(converted.value);
      }
      var alias, obs, c, dm := Reroute(Cat(), rank, particleSpecies, cascadeParticles, obsIds, ids);
      obsIds, aliasTable, obsTable, C, D := ids, alias, obs, c, dm;
      err := None;
    }

    /** `set_theta_deg`: fails without an atmosphere, keeps everything for the
        angle already set, and otherwise moves the atmosphere to the new angle
        (whose profile `profile` is) and drops the cached integration path. */
    method SetThetaDeg(theta: real, profile: Profile) returns (outcome: ThetaOutcome)
      requires Valid() && ValidProfile(profile, maxLdec)
      modifies this`atm, this`integrationPath
      ensures Valid()
      ensures old(atm).None? ==> outcome == NotReady
      ensures old(atm).Some? && old(atm).value.thetaDeg == theta ==> outcome == Unchanged
      ensures old(atm).Some? && old(atm).value.thetaDeg != theta ==> outcome == Updated
      ensures outcome != Updated ==> atm == old(atm) && integrationPath == old(integrationPath)
      ensures outcome == Updated ==> atm == Some(Atmosphere(theta, profile)) && integrationPath.None?
    {
      if atm.None? {
        return NotReady;
      }
      if atm.value.thetaDeg == theta {
        return Unchanged;
      }
      atm := Some(Atmosphere(theta, profile));
      integrationPath := None;
      outcome := Updated;
    }

    /** `_calculate_integration_path` with the grid variable checked before the
        request is stored: keeps a cached path planned for the same request,
        raises (returns true) for a depth variable other than `X` without
        changing anything, and otherwise plans and stores the path. */
    method CalculateIntegrationPath(intGrid: Option<seq<real>>, gridVar: string) returns (raised: bool)
      requires Valid() && atm.Some?
      modifies this`intGrid, this`gridVar, this`integrationPath
      ensures Valid()
      ensures var r := Calc(old(Cache()), atm.value.profile, maxLdec, intGrid, gridVar);
        (raised <==> r.Failure?) && Cache() == (if r.Ok? then r.value else r.error)
      ensures raised <==> gridVar != "X"
      ensures !raised ==> this.intGrid == intGrid && integrationPath == Some(Planned(atm.value.profile, maxLdec, intGrid))
    {
      CalcCorrect(Cache(), atm.value.profile, maxLdec, intGrid, gridVar);
      if integrationPath.Some? && this.intGrid == intGrid && this.gridVar == gridVar {
        return false;
      }
      if gridVar != "X" {
        return true;
      }
      var path := PlanPath(atm.value.profile, maxLdec, intGrid);
      StorePath(intGrid, path);
      raised := false;
    }

    /** Caches the path planned for the grid `intGrid` of the current atmosphere. */
    method StorePath(intGrid: Option<seq<real>>, path: IntegrationPath)
      requires Valid() && atm.Some? && path == Planned(atm.value.profile, maxLdec, intGrid)
      modifies this`intGrid, this`gridVar, this`integrationPath
      ensures Valid()
      ensures this.intGrid == intGrid && gridVar == "X" && integrationPath == Some(path)
    {
      this.intGrid, gridVar, integrationPath := intGrid, "X", Some(path);
    }
  }
}
