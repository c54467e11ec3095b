/**
 The one-go deployment script: the diamond with its core facets, then three batches deduplicated against a
 local tracker instead of the chain.
 */
module DeployAllScript {
  import opened Routing
  import opened DiamondStorage
  import opened Plans
  import opened Deploys
  import opened Upgrades
  import opened Chain

  /** The script's `dedup`: filter against the tracker, then enter what is left. */
  method Dedup(all: seq<Selector>, registered: set<Selector>) returns (left: seq<Selector>, registered': set<Selector>)
    ensures left == Without(all, registered) && Elems(left) == Elems(all) - registered
    ensures registered' == registered + Elems(left)
  {
    left := Without(all, registered);
    registered' := registered;
    for i := 0 to |left|
      invariant registered' == registered + Elems(left[..i])
    {
      assert left[..i + 1] == left[..i] + [left[i]];
      registered' := registered' + {left[i]};
    }
    assert left[..|left|] == left;
  }

  /** What the loop of a batch carries along. */
  datatype Staging = Staging(registered: set<Selector>, entries: seq<Facet>, facets: Facets)

  /** One facet of a batch: dedup, record, push.  A facet left without selectors is pushed as an empty entry by the
      first two batches and skipped by the last one. */
  function StageOne(s: Staging, a: Address, c: Contract, skipEmpty: bool): Staging {
    var sels := Without(c.abi, s.registered);
    Staging(s.registered + Elems(sels),
            if !skipEmpty || |sels| > 0 then s.entries + [Facet(c.name, a, sels)] else s.entries,
            s.facets[c.name := Record(a, sels)])
  }

  function StageAll(s: Staging, n: nat, cs: seq<Contract>, skipEmpty: bool): Staging {
    if cs == [] then s
    else StageOne(StageAll(s, n, cs[..|cs| - 1], skipEmpty), n + |cs|, cs[|cs| - 1], skipEmpty)
  }

  /** A batch under way: the tracker holds the selectors of `t'`, the table the entries so far will make of `t`. */
  ghost predicate Tracking(env: Env, t: Table, t': Table, registered: set<Selector>, entries: seq<Facet>) {
    registered == t'.Keys && env.self !in t'.Values && ApplyCuts(env, t, BatchCuts(entries)) == Ok(t')
  }

  lemma TrackingNext(env: Env, t: Table, t': Table, registered: set<Selector>, entries: seq<Facet>, e: Facet)
    requires Tracking(env, t, t', registered, entries) && Elems(e.selectors) !! registered
    requires e.address != ZERO_ADDRESS && env.code(e.address) && e.address != env.self && NoDup(e.selectors)
    ensures Tracking(env, t, Route(t', Elems(e.selectors), e.address), registered + Elems(e.selectors), entries + [e])
    ensures e.selectors == [] ==>
              Tracking(env, t, Route(t', Elems(e.selectors), e.address), registered + Elems(e.selectors), entries)
  {
    BatchSnoc(env, t, entries, e, t');
    RouteValues(t', Elems(e.selectors), e.address);
    EmptyList(e.selectors);
    assert e.selectors == [] ==> Route(t', Elems(e.selectors), e.address) == t';
  }

  lemma FirstWinsNext(t: Table, p: seq<Facet>, f: Facet)
    ensures FirstWins(t, p + [f]) == Route(FirstWins(t, p), Elems(f.selectors) - FirstWins(t, p).Keys, f.address)
  {
    assert (p + [f])[..|p|] == p;
  }

  /** `FirstWins`, read off the contracts. */
  function Made(t: Table, n: nat, cs: seq<Contract>): Table {
    if cs == [] then t
    else
      var t' := Made(t, n, cs[..|cs| - 1]);
      Route(t', Elems(cs[|cs| - 1].abi) - t'.Keys, n + |cs|)
  }

  lemma LastOf(t: Table, s: Staging, n: nat, cs: seq<Contract>, skipEmpty: bool)
    requires cs != []
    ensures Made(t, n, cs) == Route(Made(t, n, cs[..|cs| - 1]),
                                    Elems(cs[|cs| - 1].abi) - Made(t, n, cs[..|cs| - 1]).Keys, n + |cs|)
    ensures StageAll(s, n, cs, skipEmpty) ==
            StageOne(StageAll(s, n, cs[..|cs| - 1], skipEmpty), n + |cs|, cs[|cs| - 1], skipEmpty)
  {
  }

  lemma NothingStaged(t: Table, s: Staging, n: nat, cs: seq<Contract>, skipEmpty: bool)
    requires cs == []
    ensures Made(t, n, cs) == t && StageAll(s, n, cs, skipEmpty) == s
  {
  }

  lemma {:induction false} MadeIsFirstWins(t: Table, n: nat, cs: seq<Contract>)
    ensures Made(t, n, cs) == FirstWins(t, FacetsAt(n, cs))
    decreases |cs|
  {
    if cs != [] {
      var p, c := cs[..|cs| - 1], cs[|cs| - 1];
      MadeIsFirstWins(t, n, p);
      FirstWinsNext(t, FacetsAt(n, p), Facet(c.name, n + |cs|, c.abi));
    }
  }

  /** A staged batch, cut, makes of `t` what filtering facet by facet would have made, and the tracker knows it. */
  lemma {:induction false} StageTracks(env: Env, t: Table, s: Staging, n: nat, cs: seq<Contract>, skipEmpty: bool)
    requires Tracking(env, t, t, s.registered, s.entries) && forall c <- cs :: NoDup(c.abi)
    requires env.self <= n && forall a :: n < a <= n + |cs| ==> env.code(a)
    ensures Tracking(env, t, Made(t, n, cs), StageAll(s, n, cs, skipEmpty).registered,
                     StageAll(s, n, cs, skipEmpty).entries)
    decreases |cs|
  {
    hide Tracking, Route, Made, StageAll, StageOne, Elems, NoDup;
    if cs == [] {
      NothingStaged(t, s, n, cs, skipEmpty);
    } else {
      var p, c := cs[..|cs| - 1], cs[|cs| - 1];
      assert c in cs && env.code(n + |cs|);
      StageTracks(env, t, s, n, p, skipEmpty);
      LastOf(t, s, n, cs, skipEmpty);
      TrackOne(env, t, Made(t, n, p), StageAll(s, n, p, skipEmpty), n + |cs|, c, skipEmpty,
               Made(t, n, cs), StageAll(s, n, cs, skipEmpty));
    }
  }

  lemma TrackOne(env: Env, t: Table, t': Table, s: Staging, a: Address, c: Contract, skipEmpty: bool,
                 t'': Table, s'': Staging)
    requires Tracking(env, t, t', s.registered, s.entries) && NoDup(c.abi)
    requires a != ZERO_ADDRESS && a != env.self && env.code(a)
    requires t'' == Route(t', Elems(c.abi) - t'.Keys, a) && s'' == StageOne(s, a, c, skipEmpty)
    ensures Tracking(env, t, t'', s''.registered, s''.entries)
  {
    LeftOver(c.abi, s.registered);
    TrackingNext(env, t, t', s.registered, s.entries, Facet(c.name, a, Without(c.abi, s.registered)));
  }

  /** The manifest of a staged batch is exact for the table the batch makes. */
  lemma {:induction false} StageIndexes(t: Table, s: Staging, n: nat, cs: seq<Contract>, skipEmpty: bool)
    requires s.registered == t.Keys && Indexing(t, s.facets, n)
    requires DistinctNames(cs) && forall c <- cs :: c.name !in s.facets
    ensures Indexing(Made(t, n, cs), StageAll(s, n, cs, skipEmpty).facets, n + |cs|)
    decreases |cs|
  {
    hide Indexing, Route, Made, StageAll, StageOne, Elems, DistinctNames;
    if cs == [] {
      NothingStaged(t, s, n, cs, skipEmpty);
    } else {
      var p, c := cs[..|cs| - 1], cs[|cs| - 1];
      NameIsNew(s, n, cs, skipEmpty);
      StageIndexes(t, s, n, p, skipEmpty);
      StageRegisters(t, s, n, p, skipEmpty);
      LastOf(t, s, n, cs, skipEmpty);
      IndexOne(Made(t, n, p), StageAll(s, n, p, skipEmpty), n + |p|, n + |cs|, c, skipEmpty,
               Made(t, n, cs), StageAll(s, n, cs, skipEmpty));
    }
  }

  lemma IndexOne(t: Table, s: Staging, before: nat, a: Address, c: Contract, skipEmpty: bool, t': Table, s': Staging)
    requires s.registered == t.Keys && Indexing(t, s.facets, before) && c.name !in s.facets && a == before + 1
    requires t' == Route(t, Elems(c.abi) - t.Keys, a) && s' == StageOne(s, a, c, skipEmpty)
    ensures Indexing(t', s'.facets, a)
  {
    LeftOver(c.abi, s.registered);
    IndexingNext(t, s.facets, before, Facet(c.name, a, Without(c.abi, s.registered)));
  }

  lemma {:induction false} StageRegisters(t: Table, s: Staging, n: nat, cs: seq<Contract>, skipEmpty: bool)
    requires s.registered == t.Keys
    ensures StageAll(s, n, cs, skipEmpty).registered == Made(t, n, cs).Keys
    decreases |cs|
  {
    if cs != [] {
      StageRegisters(t, s, n, cs[..|cs| - 1], skipEmpty);
      LastOf(t, s, n, cs, skipEmpty);
      LeftOver(cs[|cs| - 1].abi, StageAll(s, n, cs[..|cs| - 1], skipEmpty).registered);
    }
  }

  lemma NameIsNew(s: Staging, n: nat, cs: seq<Contract>, skipEmpty: bool)
    requires cs != [] && DistinctNames(cs) && forall c <- cs :: c.name !in s.facets
    ensures cs[|cs| - 1].name !in StageAll(s, n, cs[..|cs| - 1], skipEmpty).facets
    ensures DistinctNames(cs[..|cs| - 1])
  {
    NamesSnoc(cs, s.facets.Keys);
    StageNames(s, n, cs[..|cs| - 1], skipEmpty);
    assert cs[|cs| - 1] in cs;
  }

  lemma {:induction false} StageNames(s: Staging, n: nat, cs: seq<Contract>, skipEmpty: bool)
    requires DistinctNames(cs)
    ensures StageAll(s, n, cs, skipEmpty).facets.Keys == s.facets.Keys + Names(cs)
    decreases |cs|
  {
    if cs != [] {
      StageNames(s, n, cs[..|cs| - 1], skipEmpty);
      NamesSnoc(cs, s.facets.Keys);
    }
  }

  lemma LeftOver(l: seq<Selector>, excluded: set<Selector>)
    ensures Elems(Without(l, excluded)) == Elems(l) - excluded
  {
  }

  /** Every contract is recorded under its name at the address it was deployed to. */
  ghost predicate RecordedAt(fs: Facets, n: nat, cs: seq<Contract>) {
    forall i :: 0 <= i < |cs| ==> cs[i].name in fs && fs[cs[i].name].address == n + i + 1
  }

  ghost predicate Keeps(fs: Facets, fs': Facets) {
    forall k <- fs :: k in fs' && fs'[k] == fs[k]
  }

  lemma {:induction false} StageAddresses(s: Staging, n: nat, cs: seq<Contract>, skipEmpty: bool)
    requires DistinctNames(cs) && forall c <- cs :: c.name !in s.facets
    ensures RecordedAt(StageAll(s, n, cs, skipEmpty).facets, n, cs)
    ensures Keeps(s.facets, StageAll(s, n, cs, skipEmpty).facets)
    decreases |cs|
  {
    if cs != [] {
      hide StageAll, DistinctNames;
      var p := cs[..|cs| - 1];
      NameIsNew(s, n, cs, skipEmpty);
      StageAddresses(s, n, p, skipEmpty);
      var sels := LastStaged(s, n, cs, skipEmpty);
      RecordsOneMore(s.facets, StageAll(s, n, p, skipEmpty).facets, n, cs, sels);
    }
  }

  lemma LastStaged(s: Staging, n: nat, cs: seq<Contract>, skipEmpty: bool) returns (sels: seq<Selector>)
    requires cs != []
    ensures StageAll(s, n, cs, skipEmpty).facets ==
            StageAll(s, n, cs[..|cs| - 1], skipEmpty).facets[cs[|cs| - 1].name := Record(n + |cs|, sels)]
  {
    sels := Without(cs[|cs| - 1].abi, StageAll(s, n, cs[..|cs| - 1], skipEmpty).registered);
  }

  lemma RecordsOneMore(before: Facets, fs: Facets, n: nat, cs: seq<Contract>, sels: seq<Selector>)
    requires cs != [] && cs[|cs| - 1].name !in fs
    requires RecordedAt(fs, n, cs[..|cs| - 1]) && Keeps(before, fs)
    ensures var fs' := fs[cs[|cs| - 1].name := Record(n + |cs|, sels)];
            RecordedAt(fs', n, cs) && Keeps(before, fs')
  {
    var fs' := fs[cs[|cs| - 1].name := Record(n + |cs|, sels)];
    forall i | 0 <= i < |cs| ensures cs[i].name in fs' && fs'[cs[i].name].address == n + i + 1 {
      if i < |cs| - 1 { assert cs[..|cs| - 1][i] == cs[i]; }
    }
  }

  lemma RecordedJoin(fs: Facets, fs': Facets, n: nat, a: seq<Contract>, b: seq<Contract>)
    requires RecordedAt(fs, n, a) && Keeps(fs, fs') && RecordedAt(fs', n + |a|, b)
    ensures RecordedAt(fs', n, a + b)
  {
    forall i | 0 <= i < |a + b| ensures (a + b)[i].name in fs' && fs'[(a + b)[i].name].address == n + i + 1 {
      if i < |a| {
        assert (a + b)[i] == a[i];
      } else {
        assert (a + b)[i] == b[i - |a|];
      }
    }
  }

  lemma KeepsKeeps(a: Facets, b: Facets, c: Facets)
    requires Keeps(a, b) && Keeps(b, c)
    ensures Keeps(a, c)
  {
  }

  lemma BatchOutcome(env: Env, t: Table, s: Staging, n: nat, cs: seq<Contract>, skipEmpty: bool, s': Staging)
    requires s.registered == t.Keys && s.entries == [] && Indexing(t, s.facets, n)
    requires env == EnvOf(env.self, n + |cs|) && env.self <= n && env.self !in t.Values
    requires Acceptable(s.facets.Keys, cs)
    requires s' == StageAll(s, n, cs, skipEmpty)
    ensures Tracking(env, t, FirstWins(t, FacetsAt(n, cs)), s'.registered, s'.entries)
    ensures Indexing(FirstWins(t, FacetsAt(n, cs)), s'.facets, n + |cs|)
    ensures s'.facets.Keys == s.facets.Keys + Names(cs)
    ensures RecordedAt(s'.facets, n, cs) && Keeps(s.facets, s'.facets)
  {
    hide RecordedAt, Keeps;
    StageAddresses(s, n, cs, skipEmpty);
    StageNames(s, n, cs, skipEmpty);
    MadeIsFirstWins(t, n, cs);
    StageIndexes(t, s, n, cs, skipEmpty);
    StageTracks(env, t, s, n, cs, skipEmpty);
  }

  /** The loop of a batch. */
  method StageBatch(m: Manifest, net: Network, registered: set<Selector>, cs: seq<Contract>, skipEmpty: bool)
      returns (entries: seq<Facet>, registered': set<Selector>)
    modifies m`facets, net
    ensures net.deployed == old(net.deployed) + |cs|
    ensures Staging(registered', entries, m.facets) ==
            StageAll(Staging(registered, [], old(m.facets)), old(net.deployed), cs, skipEmpty)
  {
    ghost var n, s := net.deployed, Staging(registered, [], m.facets);
    entries, registered' := [], registered;
    assert cs[..0] == [];
    for i := 0 to |cs|
      invariant net.deployed == n + i
      invariant Staging(registered', entries, m.facets) == StageAll(s, n, cs[..i], skipEmpty)
    {
      assert cs[..i + 1][..i] == cs[..i];
      var a := net.DeployContract();
      var sels;
      sels, registered' := Dedup(cs[i].abi, registered');
      m.RecordFacet(cs[i].name, a, sels);
      if !skipEmpty || |sels| > 0 { entries := entries + [Facet(cs[i].name, a, sels)]; }
    }
    assert cs[..|cs|] == cs;
  }

  /** Staging writes its records over whatever an earlier deployment left in the manifest. */
  lemma {:induction false} StageOver(left: Facets, s: Staging, n: nat, cs: seq<Contract>, skipEmpty: bool)
    ensures StageAll(s.(facets := left + s.facets), n, cs, skipEmpty) ==
            StageAll(s, n, cs, skipEmpty).(facets := left + StageAll(s, n, cs, skipEmpty).facets)
    decreases |cs|
  {
    if cs != [] {
      var p, c := cs[..|cs| - 1], cs[|cs| - 1];
      StageOver(left, s, n, p, skipEmpty);
      var before := StageAll(s, n, p, skipEmpty);
      Overwrite(left, before.facets, c.name, Record(n + |cs|, Without(c.abi, before.registered)));
    }
  }

  lemma Overwrite(left: Facets, fs: Facets, name: string, r: Record)
    ensures (left + fs)[name := r] == left + fs[name := r]
  {
  }

  /** One batch of deploy-all: stage, then cut once.  It cannot revert; the tracker ends exact, and so do the records of
      this deployment, which lie over those that were left. */
  method DeployBatch(d: Diamond, m: Manifest, net: Network, registered: set<Selector>, cs: seq<Contract>,
                     skipEmpty: bool,
                     ghost left: Facets, ghost done: Facets)
      returns (r: Result<()>, registered': set<Selector>, ghost done': Facets)
    requires Live(d, net) && registered == d.Table().Keys && Indexing(d.Table(), done, net.deployed)
    requires m.facets == left + done && Acceptable(done.Keys, cs)
    modifies d, m`facets, net
    ensures r.Ok? && Live(d, net) && registered' == d.Table().Keys && Indexing(d.Table(), done', net.deployed)
    ensures d.Table() == FirstWins(old(d.Table()), FacetsAt(old(net.deployed), cs))
    ensures m.facets == left + done' && done'.Keys == done.Keys + Names(cs) && net.deployed == old(net.deployed) + |cs|
    ensures RecordedAt(done', old(net.deployed), cs) && Keeps(done, done')
  {
    hide RecordedAt, Keeps, Indexing, FirstWins, FacetsAt, BatchCuts, ApplyCuts, Names, Acceptable, StageAll;
    ghost var t, n, s := d.Table(), net.deployed, Staging(registered, [], done);
    var entries;
    entries, registered' := StageBatch(m, net, registered, cs, skipEmpty);
    StageOver(left, s, n, cs, skipEmpty);
    done' := StageAll(s, n, cs, skipEmpty).facets;
    BatchOutcome(EnvOf(d.self, n + |cs|), t, s, n, cs, skipEmpty, Staging(registered', entries, done'));
    r := BatchDiamondCut(d, net, entries);
  }

  /** The selector of `diamondCut`, which the diamond's constructor routes to the cut facet. */
  const DIAMOND_CUT: Selector := 0x1f931c1c

  ghost predicate CoreNames(loupe: Contract, ownership: Contract) {
    loupe.name != "DiamondCutFacet" && ownership.name != "DiamondCutFacet" && loupe.name != ownership.name
  }

  /** The core facets can be added in one transaction: both have functions, none of them shared or `diamondCut`. */
  ghost predicate CoreFits(loupe: Contract, ownership: Contract) {
    && loupe.abi != [] && ownership.abi != []
    && DIAMOND_CUT !in loupe.abi && DIAMOND_CUT !in ownership.abi
    && Elems(loupe.abi) !! Elems(ownership.abi)
  }

  function CoreTable(n: nat, loupe: Contract, ownership: Contract): Table {
    Route(Route(map[DIAMOND_CUT := n + 1], Elems(loupe.abi), n + 3), Elems(ownership.abi), n + 4)
  }

  function CoreFacets(n: nat, loupe: Contract, ownership: Contract): Facets {
    map["DiamondCutFacet" := Record(n + 1, [DIAMOND_CUT])][loupe.name := Record(n + 3, loupe.abi)]
      [ownership.name := Record(n + 4, ownership.abi)]
  }

  /** One facet of the core transaction. */
  lemma CoreAdd(env: Env, t: Table, a: Address, sels: seq<Selector>)
    requires a != ZERO_ADDRESS && env.code(a) && NoDup(sels)
    ensures sels != [] && Elems(sels) !! t.Keys ==>
              ApplyCut(env, t, FacetCut(a, Add, sels)) == Ok(Route(t, Elems(sels), a))
    ensures !(sels != [] && Elems(sels) !! t.Keys) ==> ApplyCut(env, t, FacetCut(a, Add, sels)).Revert?
  {
    AddList(env, t, a, sels);
  }

  lemma TwoCuts(env: Env, t: Table, a: FacetCut, b: FacetCut)
    ensures ApplyCuts(env, t, [a, b]) ==
            match ApplyCut(env, t, a)
            case Revert(e) => Revert(e)
            case Ok(t1) => ApplyCut(env, t1, b)
  {
    NextCut(env, t, [a, b], 0);
    assert [a, b][0..] == [a, b];
    match ApplyCut(env, t, a)
    case Revert(_) =>
    case Ok(t1) =>
      NextCut(env, t1, [a, b], 1);
      match ApplyCut(env, t1, b) {
        case Revert(_) =>
        case Ok(t2) => assert [a, b][2..] == [];
      }
  }

  lemma CoreKeys(n: nat, l: set<Selector>, o: set<Selector>)
    ensures l !! (map[DIAMOND_CUT := n + 1]).Keys <==> DIAMOND_CUT !in l
    ensures o !! Route(map[DIAMOND_CUT := n + 1], l, n + 3).Keys <==> DIAMOND_CUT !in o && l !! o
  {
    assert Route(map[DIAMOND_CUT := n + 1], l, n + 3).Keys == {DIAMOND_CUT} + l;
  }

  /** The core transaction goes through exactly when the core facets fit. */
  lemma CoreCuts(env: Env, n: nat, loupe: Contract, ownership: Contract)
    requires env == EnvOf(env.self, n + 4) && NoDup(loupe.abi) && NoDup(ownership.abi)
    ensures ApplyCuts(env, map[DIAMOND_CUT := n + 1],
                      [FacetCut(n + 3, Add, loupe.abi), FacetCut(n + 4, Add, ownership.abi)]).Ok? <==>
            CoreFits(loupe, ownership)
    ensures CoreFits(loupe, ownership) ==>
              ApplyCuts(env, map[DIAMOND_CUT := n + 1],
                        [FacetCut(n + 3, Add, loupe.abi), FacetCut(n + 4, Add, ownership.abi)]) ==
              Ok(CoreTable(n, loupe, ownership))
  {
    hide ApplyCut, ApplyCuts, Route, NoDup;
    var t := map[DIAMOND_CUT := n + 1];
    CoreAdd(env, t, n + 3, loupe.abi);
    CoreAdd(env, Route(t, Elems(loupe.abi), n + 3), n + 4, ownership.abi);
    TwoCuts(env, t, FacetCut(n + 3, Add, loupe.abi), FacetCut(n + 4, Add, ownership.abi));
    CoreKeys(n, Elems(loupe.abi), Elems(ownership.abi));
  }

  /** After the core transaction the manifest is exact and the tracker is seeded with the routed selectors. */
  lemma CoreIndex(n: nat, loupe: Contract, ownership: Contract)
    requires CoreNames(loupe, ownership) && CoreFits(loupe, ownership)
    ensures CoreTable(n, loupe, ownership).Keys == {DIAMOND_CUT} + Elems(loupe.abi) + Elems(ownership.abi)
    ensures Indexing(CoreTable(n, loupe, ownership), CoreFacets(n, loupe, ownership), n + 4)
    ensures n + 2 !in CoreTable(n, loupe, ownership).Values
  {
    hide Indexing;
    var t0: Table, fs0: Facets := map[DIAMOND_CUT := n + 1], map["DiamondCutFacet" := Record(n + 1, [DIAMOND_CUT])];
    var t1 := Route(t0, Elems(loupe.abi), n + 3);
    FirstIndex(n);
    assert t1.Keys == {DIAMOND_CUT} + Elems(loupe.abi);
    IndexingNext(t0, fs0, n + 2, Facet(loupe.name, n + 3, loupe.abi));
    IndexingNext(t1, fs0[loupe.name := Record(n + 3, loupe.abi)], n + 3, Facet(ownership.name, n + 4, ownership.abi));
  }

  lemma CoreOver(left: Facets, n: nat, loupe: Contract, ownership: Contract)
    ensures left["DiamondCutFacet" := Record(n + 1, [DIAMOND_CUT])][loupe.name := Record(n + 3, loupe.abi)]
              [ownership.name := Record(n + 4, ownership.abi)] == left + CoreFacets(n, loupe, ownership)
  {
  }

  lemma CoreRecorded(n: nat, loupe: Contract, ownership: Contract)
    ensures CoreFacets(n, loupe, ownership).Keys == {"DiamondCutFacet", loupe.name, ownership.name}
  {
  }

  lemma FirstIndex(n: nat)
    ensures Indexing(map[DIAMOND_CUT := n + 1], map["DiamondCutFacet" := Record(n + 1, [DIAMOND_CUT])], n + 2)
  {
    var t0: Table, fs0: Facets := map[DIAMOND_CUT := n + 1], map["DiamondCutFacet" := Record(n + 1, [DIAMOND_CUT])];
    assert Elems([DIAMOND_CUT]) == Owned(t0, n + 1);
    assert fs0["DiamondCutFacet"].address == t0[DIAMOND_CUT];
    assert Orphans(fs0, t0) == {};
  }

  /** The diamond's constructor: it routes `diamondCut` to the cut facet. */
  method NewDiamond(net: Network, address: Address, cutFacet: Address) returns (d: Diamond)
    requires 0 < cutFacet < address == net.deployed
    ensures fresh(d) && d.Valid() && d.self == address && d.Table() == map[DIAMOND_CUT := cutFacet]
  {
    d := new Diamond(address);
    FirstCut(EnvOf(address, net.deployed), cutFacet);
    var r := d.DiamondCut([FacetCut(cutFacet, Add, [DIAMOND_CUT])], EnvOf(d.self, net.deployed));
  }

  lemma FirstCut(env: Env, a: Address)
    requires a != ZERO_ADDRESS && env.code(a)
    ensures ApplyCuts(env, map[], [FacetCut(a, Add, [DIAMOND_CUT])]) == Ok(map[DIAMOND_CUT := a])
  {
    AddStep(env, map[], a, [DIAMOND_CUT]);
    assert CutIf(Add, a, [DIAMOND_CUT]) == [FacetCut(a, Add, [DIAMOND_CUT])];
    assert Route(map[], Elems([DIAMOND_CUT]), a) == map[DIAMOND_CUT := a];
  }

  /** The cut facet, the diamond itself and the loupe and ownership facets, and the seeding of the tracker. */
  method DeployCore(net: Network, m: Manifest, loupe: Contract, ownership: Contract)
      returns (r: Result<()>, d: Diamond, registered: set<Selector>)
    requires NoDup(loupe.abi) && NoDup(ownership.abi) && CoreNames(loupe, ownership)
    modifies net, m`facets
    ensures fresh(d) && net.deployed == old(net.deployed) + 4
    ensures r.Ok? <==> CoreFits(loupe, ownership)
    ensures r.Ok? ==> Live(d, net) && registered == d.Table().Keys
    ensures r.Ok? ==> Indexing(d.Table(), CoreFacets(old(net.deployed), loupe, ownership), net.deployed)
    ensures r.Ok? ==> d.Table() == CoreTable(old(net.deployed), loupe, ownership)
    ensures m.facets == old(m.facets) + CoreFacets(old(net.deployed), loupe, ownership)
  {
    hide *;
    ghost var n := net.deployed;
    var cutFacet := net.DeployContract();
    m.RecordFacet("DiamondCutFacet", cutFacet, [DIAMOND_CUT]);
    var address := net.DeployContract();
    d := NewDiamond(net, address, cutFacet);
    var loupeFacet := net.DeployContract();
    var ownershipFacet := net.DeployContract();
    m.RecordFacet(loupe.name, loupeFacet, loupe.abi);
    m.RecordFacet(ownership.name, ownershipFacet, ownership.abi);
    CoreOver(old(m.facets), n, loupe, ownership);
    EnvSelf(d.self, net.deployed);
    CoreCuts(EnvOf(d.self, net.deployed), n, loupe, ownership);
    var cuts := [FacetCut(loupeFacet, Add, loupe.abi), FacetCut(ownershipFacet, Add, ownership.abi)];
    r := d.DiamondCut(cuts, EnvOf(d.self, net.deployed));
    PerformsMeans(d, r, ApplyCuts(EnvOf(d.self, net.deployed), map[DIAMOND_CUT := cutFacet], cuts));
    registered := {DIAMOND_CUT} + Elems(loupe.abi) + Elems(ownership.abi);
    if r.Ok? {
      CoreIndex(n, loupe, ownership);
      StillLive(d, net);
    }
  }

  // ---------------------------------------------------------------- the whole script

  lemma AcceptableSplit(recorded: set<string>, a: seq<Contract>, b: seq<Contract>)
    requires Acceptable(recorded, a + b)
    ensures Acceptable(recorded, a) && Acceptable(recorded + Names(a), b)
  {
    var cs := a + b;
    forall i, j | 0 <= i < j < |a| ensures a[i].name != a[j].name { assert cs[i] == a[i] && cs[j] == a[j]; }
    forall i, j | 0 <= i < j < |b| ensures b[i].name != b[j].name {
      assert cs[|a| + i] == b[i] && cs[|a| + j] == b[j];
    }
    forall c | c in b ensures c.name !in recorded + Names(a) && NoDup(c.abi) {
      assert c in cs;
      var j :| 0 <= j < |b| && b[j] == c;
      forall x | x in a ensures x.name != c.name {
        var i :| 0 <= i < |a| && a[i] == x;
        assert cs[i] == x && cs[|a| + j] == c;
      }
    }
    forall c | c in a ensures c.name !in recorded && NoDup(c.abi) { assert c in cs; }
  }

  lemma FacetsAtConcat(n: nat, a: seq<Contract>, b: seq<Contract>)
    ensures FacetsAt(n, a + b) == FacetsAt(n, a) + FacetsAt(n + |a|, b)
  {
  }

  /** Two batches one after the other make what one batch of all contracts would. */
  lemma TwoBatches(t: Table, n: nat, a: seq<Contract>, b: seq<Contract>)
    ensures FirstWins(FirstWins(t, FacetsAt(n, a)), FacetsAt(n + |a|, b)) == FirstWins(t, FacetsAt(n, a + b))
  {
    FacetsAtConcat(n, a, b);
    FirstWinsConcat(t, FacetsAt(n, a), FacetsAt(n + |a|, b));
  }

  /** The three batches. */
  method DeployBatches(d: Diamond, m: Manifest, net: Network, registered: set<Selector>, ghost left: Facets,
                       ghost core: Facets,
                       trading: seq<Contract>, pricing: seq<Contract>, support: seq<Contract>)
      returns (r: Result<()>, registered': set<Selector>, ghost done: Facets)
    requires Live(d, net) && registered == d.Table().Keys && Indexing(d.Table(), core, net.deployed)
    requires m.facets == left + core
    requires Acceptable(core.Keys, trading) && Acceptable(core.Keys + Names(trading), pricing)
    requires Acceptable(core.Keys + Names(trading) + Names(pricing), support)
    modifies d, m`facets, net
    ensures r.Ok? && Live(d, net) && registered' == d.Table().Keys && Indexing(d.Table(), done, net.deployed)
    ensures m.facets == left + done && done.Keys == core.Keys + Names(trading) + Names(pricing) + Names(support)
    ensures d.Table() == FirstWins(old(d.Table()), FacetsAt(old(net.deployed), trading + pricing + support))
    ensures RecordedAt(done, old(net.deployed), trading + pricing + support) && Keeps(core, done)
  {
    hide *;
    ghost var t, n := d.Table(), net.deployed;
    ghost var first, second;
    r, registered', first := DeployBatch(d, m, net, registered, trading, false, left, core);
    r, registered', second := DeployBatch(d, m, net, registered', pricing, false, left, first);
    r, registered', done := DeployBatch(d, m, net, registered', support, true, left, second);
    RecordedJoin(first, second, n, trading, pricing);
    RecordedJoin(second, done, n, trading + pricing, support);
    KeepsKeeps(core, first, second);
    KeepsKeeps(core, second, done);
    TwoBatches(t, n, trading, pricing);
    TwoBatches(t, n, trading + pricing, support);
  }

  lemma AcceptableAll(core: set<string>, trading: seq<Contract>, pricing: seq<Contract>, support: seq<Contract>)
    requires Acceptable(core, trading + pricing + support)
    ensures Acceptable(core, trading) && Acceptable(core + Names(trading), pricing)
    ensures Acceptable(core + Names(trading) + Names(pricing), support)
  {
    hide Acceptable, Names;
    AcceptableSplit(core, trading + pricing, support);
    AcceptableSplit(core, trading, pricing);
    NamesConcat(core, trading, pricing);
  }

  /** The whole script, on any manifest.  Only the core transaction can revert.  Otherwise every selector goes to the
      first contract, in deployment order, that exposes it; the tracker ends equal to the routed selectors, and the
      records of this deployment, written over what the manifest held, are exact. */
  method DeployAll(net: Network, m: Manifest, loupe: Contract, ownership: Contract,
                   trading: seq<Contract>, pricing: seq<Contract>, support: seq<Contract>)
      returns (r: Result<()>, d: Diamond, registered: set<Selector>, ghost done: Facets)
    requires NoDup(loupe.abi) && NoDup(ownership.abi) && CoreNames(loupe, ownership)
    requires Acceptable({"DiamondCutFacet", loupe.name, ownership.name}, trading + pricing + support)
    modifies net, m`facets
    ensures r.Ok? <==> CoreFits(loupe, ownership)
    ensures r.Ok? ==> Live(d, net) && registered == d.Table().Keys && Indexing(d.Table(), done, net.deployed)
    ensures r.Ok? ==> m.facets == old(m.facets) + done
    ensures r.Ok? ==>
              done.Keys ==
              {"DiamondCutFacet", loupe.name, ownership.name} + Names(trading) + Names(pricing) + Names(support)
    ensures r.Ok? ==> d.Table() == FirstWins(CoreTable(old(net.deployed), loupe, ownership),
                                            FacetsAt(old(net.deployed) + 4, trading + pricing + support))
    ensures r.Ok? ==> RecordedAt(done, old(net.deployed) + 4, trading + pricing + support)
    ensures r.Ok? ==>
              && done["DiamondCutFacet"].address == old(net.deployed) + 1
              && done[loupe.name].address == old(net.deployed) + 3
                 && done[ownership.name].address == old(net.deployed) + 4
  {
    hide Indexing, CoreTable, CoreFits, FirstWins, FacetsAt, Acceptable, Names, CoreFacets;
    ghost var left, core := m.facets, CoreFacets(net.deployed, loupe, ownership);
    r, d, registered := DeployCore(net, m, loupe, ownership);
    done := core;
    if r.Revert? { return; }
    CoreRecorded(net.deployed - 4, loupe, ownership);
    CoreAddresses(net.deployed - 4, loupe, ownership);
    AcceptableAll(core.Keys, trading, pricing, support);
    r, registered, done := DeployBatches(d, m, net, registered, left, core, trading, pricing, support);
  }

  lemma CoreAddresses(n: nat, loupe: Contract, ownership: Contract)
    requires CoreNames(loupe, ownership)
    ensures var core := CoreFacets(n, loupe, ownership);
            && core.Keys == {"DiamondCutFacet", loupe.name, ownership.name}
            && core["DiamondCutFacet"].address == n + 1 && core[loupe.name].address == n + 3
            && core[ownership.name].address == n + 4
  {
  }

  /** After a rerun the whole manifest agrees with the new diamond exactly when no record that was left over lists a
      selector: nothing is routed to what was deployed before. */
  lemma RerunAgrees(left: Facets, done: Facets, t: Table, n: nat, deployed: nat)
    requires Indexing(t, done, deployed) && forall s <- t :: t[s] > n
    requires forall k <- left :: left[k].address <= n
    ensures Agree(left + done, t) <==> forall k <- left.Keys - done.Keys :: left[k].selectors == []
  {
    forall k | k in left.Keys - done.Keys
      ensures Elems(left[k].selectors) == Owned(t, left[k].address) <==> left[k].selectors == []
      ensures (left + done)[k] == left[k]
    {
      assert Owned(t, left[k].address) == {};
      EmptyList(left[k].selectors);
    }
    forall k | k in done ensures (left + done)[k] == done[k] {}
  }

  /** Everything the script routes goes to what it has deployed itself. */
  lemma RoutesAreNew(n: nat, loupe: Contract, ownership: Contract, cs: seq<Contract>, s: Selector)
    requires s in FirstWins(CoreTable(n, loupe, ownership), FacetsAt(n + 4, cs))
    ensures FirstWins(CoreTable(n, loupe, ownership), FacetsAt(n + 4, cs))[s] > n
  {
    NewOwners(CoreTable(n, loupe, ownership), FacetsAt(n + 4, cs), n, s);
  }

  lemma {:induction false} NewOwners(t: Table, fs: seq<Facet>, n: nat, s: Selector)
    requires s in FirstWins(t, fs)
    requires (forall x <- t :: t[x] > n) && forall f <- fs :: f.address > n
    ensures FirstWins(t, fs)[s] > n
    decreases |fs|
  {
    if fs != [] {
      assert fs[|fs| - 1] in fs;
      if s in FirstWins(t, fs[..|fs| - 1]) { NewOwners(t, fs[..|fs| - 1], n, s); }
    }
  }

  lemma NamesConcat(recorded: set<string>, a: seq<Contract>, b: seq<Contract>)
    ensures recorded + Names(a) + Names(b) == recorded + Names(a + b)
  {
  }
}
