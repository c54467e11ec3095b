/**
 Deployment steps 02 to 04: each filters its facets against the chain as it is, then cuts once.
 */
module DeployStepScripts {
  import opened Routing
  import opened DiamondStorage
  import opened Plans
  import opened Deploys
  import opened Upgrades
  import opened Chain

  /** The loop of a step: every facet is filtered against the chain, which does not change meanwhile. */
  method StageStep(d: Diamond, net: Network, cs: seq<Contract>) returns (entries: seq<Facet>)
    requires d.Valid()
    modifies net
    ensures net.deployed == old(net.deployed) + |cs|
    ensures |entries| == |cs| && forall i :: 0 <= i < |cs| ==>
              entries[i] == Facet(cs[i].name, old(net.deployed) + i + 1, Without(cs[i].abi, d.Table().Keys))
  {
    entries := [];
    for i := 0 to |cs|
      invariant net.deployed == old(net.deployed) + i && |entries| == i
      invariant forall j :: 0 <= j < i ==>
                  entries[j] == Facet(cs[j].name, old(net.deployed) + j + 1, Without(cs[j].abi, d.Table().Keys))
    {
      var a := net.DeployContract();
      var sels := FilterNewSelectors(cs[i].abi, d);
      entries := entries + [Facet(cs[i].name, a, sels)];
    }
  }

  lemma {:induction false} SnapshotEntries(routed: set<Selector>, fs: seq<Facet>, i: nat)
    requires i < |fs|
    ensures |Snapshot(routed, fs)| == |fs|
    ensures Snapshot(routed, fs)[i] == fs[i].(selectors := Without(fs[i].selectors, routed))
    decreases |fs|
  {
    if i < |fs| - 1 {
      SnapshotEntries(routed, fs[..|fs| - 1], i);
    } else {
      EntriesLength(routed, fs[..|fs| - 1]);
    }
  }

  lemma StagedIsSnapshot(routed: set<Selector>, n: nat, cs: seq<Contract>, entries: seq<Facet>)
    requires |entries| == |cs| && forall i :: 0 <= i < |cs| ==>
               entries[i] == Facet(cs[i].name, n + i + 1, Without(cs[i].abi, routed))
    ensures entries == Snapshot(routed, FacetsAt(n, cs))
  {
    var fs := FacetsAt(n, cs);
    EntriesLength(routed, fs);
    forall i | 0 <= i < |entries| ensures entries[i] == Snapshot(routed, fs)[i] {
      SnapshotEntries(routed, fs, i);
    }
  }

  /** What the transaction of a step reports and leaves, given that it does what `ApplyCuts` says. */
  lemma StepResult(env: Env, t: Table, fs: seq<Facet>, entries: seq<Facet>, r: Result<()>, t': Table)
    requires Deployed(env, fs) && entries == Snapshot(t.Keys, fs)
    requires ApplyCuts(env, t, BatchCuts(entries)) == if r.Ok? then Ok(t') else Revert(r.reason)
    ensures r.Ok? <==> Clear(t.Keys, fs)
    ensures if r.Ok? then t' == FirstWins(t, fs) else r.reason == FunctionExists
  {
    SnapshotBatch(env, t, fs);
  }

  /** Steps 02 to 04: the batch goes through exactly when no two of its facets expose the same free selector; the
      manifest is written only then. */
  method DeployStep(d: Diamond, m: Manifest, net: Network, cs: seq<Contract>) returns (r: Result<()>)
    requires d.Valid() && forall c <- cs :: NoDup(c.abi)
    modifies d, m`facets, net
    ensures d.Valid()
    ensures r.Ok? <==> forall i, j, s :: 0 <= i < j < |cs| && s in cs[i].abi && s in cs[j].abi ==> s in old(d.Table())
    ensures r.Ok? ==> d.Table() == FirstWins(old(d.Table()), FacetsAt(old(net.deployed), cs))
    ensures net.deployed == old(net.deployed) + |cs|
    ensures r.Ok? ==> forall k: string ::
              (forall c <- cs :: c.name != k) ==>
                (k in m.facets <==> k in old(m.facets)) && (k in m.facets ==> m.facets[k] == old(m.facets)[k])
    ensures r.Ok? && DistinctNames(cs) ==> forall i :: 0 <= i < |cs| ==>
              && cs[i].name in m.facets && m.facets[cs[i].name].address == old(net.deployed) + i + 1
              && (forall s <- m.facets[cs[i].name].selectors :: s in cs[i].abi && s !in old(d.Table()))
              && (forall s <- cs[i].abi :: s in old(d.Table()) || s in m.facets[cs[i].name].selectors)
    ensures r.Ok? && HandedOut(old(d.Table()), map[], old(net.deployed)) && DistinctNames(cs) ==>
              forall i :: 0 <= i < |cs| ==>
                cs[i].name in m.facets &&
                Elems(m.facets[cs[i].name].selectors) == Owned(d.Table(), old(net.deployed) + i + 1)
    ensures r.Ok? && Acceptable(old(m.facets).Keys, cs)
            && Indexing(old(d.Table()), old(m.facets), old(net.deployed)) ==>
              Indexing(d.Table(), m.facets, net.deployed)
    ensures r.Revert? ==> r.reason == FunctionExists && unchanged(d) && unchanged(m)
  {
    hide Clear, FirstWins, FacetsAt, RecordAll, Snapshot, BatchCuts, ApplyCuts, NoDup, Indexing, Acceptable,
      DistinctNames, HandedOut;
    ghost var t, fs, routed, n := d.Table(), m.facets, d.Table().Keys, net.deployed;
    var entries := StageStep(d, net, cs);
    StagedIsSnapshot(routed, n, cs, entries);
    r := BatchDiamondCut(d, net, entries);
    FacetsAtDeployed(EnvOf(d.self, net.deployed), n, cs);
    StepResult(EnvOf(d.self, net.deployed), old(d.Table()), FacetsAt(n, cs), entries, r, d.Table());
    ClearMeans(routed, n, cs);
    if r.Ok? {
      SaveEntries(m, entries, n, cs, routed);
      StepRecords(fs, n, cs, routed);
      if DistinctNames(cs) && HandedOut(t, map[], n) { StepServes(t, fs, n, cs); }
      if Acceptable(fs.Keys, cs) && Indexing(t, fs, n) { StepIndexes(t, fs, n, cs); }
    }
  }

  /** The condition for a step, said of the contracts. */
  lemma ClearMeans(routed: set<Selector>, n: nat, cs: seq<Contract>)
    ensures Clear(routed, FacetsAt(n, cs)) <==>
            forall i, j, s :: 0 <= i < j < |cs| && s in cs[i].abi && s in cs[j].abi ==> s in routed
  {
    var fs := FacetsAt(n, cs);
    if Clear(routed, fs) {
      hide Clear;
      forall i, j, s | 0 <= i < j < |cs| && s in cs[i].abi && s in cs[j].abi ensures s in routed {
        if s !in routed { SharedNotClear(routed, fs, i, j, s); }
      }
    } else {
      var i, j, s := NotClearShares(routed, fs);
    }
  }

  lemma NotClearShares(routed: set<Selector>, fs: seq<Facet>) returns (i: nat, j: nat, s: Selector)
    requires !Clear(routed, fs)
    ensures i < j < |fs| && s in fs[i].selectors && s in fs[j].selectors && s !in routed
  {
    j :| j < |fs| && !((Elems(fs[j].selectors) - routed) !! Exposed(fs[..j]));
    s :| s in Elems(fs[j].selectors) - routed && s in Exposed(fs[..j]);
    var f :| f in fs[..j] && s in f.selectors;
    i :| i < j && fs[..j][i] == f;
  }

  /** What recording does, record by record. */
  lemma StepRecords(fs: Facets, n: nat, cs: seq<Contract>, routed: set<Selector>)
    ensures forall k: string :: (forall c <- cs :: c.name != k) ==>
              && (k in RecordAll(fs, n, cs, routed) <==> k in fs)
              && (k in fs ==> RecordAll(fs, n, cs, routed)[k] == fs[k])
    ensures DistinctNames(cs) ==> forall i :: 0 <= i < |cs| ==>
              && cs[i].name in RecordAll(fs, n, cs, routed)
              && RecordAll(fs, n, cs, routed)[cs[i].name] == Record(n + i + 1, Without(cs[i].abi, routed))
  {
    hide RecordAll, DistinctNames, Without;
    forall k: string | forall c <- cs :: c.name != k
      ensures k in RecordAll(fs, n, cs, routed) <==> k in fs
      ensures k in fs ==> RecordAll(fs, n, cs, routed)[k] == fs[k]
    {
      OtherRecords(fs, n, cs, routed, k);
    }
    if DistinctNames(cs) {
      forall i | 0 <= i < |cs|
        ensures cs[i].name in RecordAll(fs, n, cs, routed)
        ensures RecordAll(fs, n, cs, routed)[cs[i].name] == Record(n + i + 1, Without(cs[i].abi, routed))
      {
        OwnRecord(fs, n, cs, routed, i);
      }
    }
  }

  lemma {:induction false} OtherRecords(fs: Facets, n: nat, cs: seq<Contract>, routed: set<Selector>, k: string)
    requires forall c <- cs :: c.name != k
    ensures k in RecordAll(fs, n, cs, routed) <==> k in fs
    ensures k in fs ==> RecordAll(fs, n, cs, routed)[k] == fs[k]
    decreases |cs|
  {
    hide Without;
    if cs != [] {
      assert cs[|cs| - 1] in cs;
      OtherRecords(fs, n, cs[..|cs| - 1], routed, k);
    }
  }

  lemma {:induction false} OwnRecord(fs: Facets, n: nat, cs: seq<Contract>, routed: set<Selector>, i: nat)
    requires DistinctNames(cs) && i < |cs|
    ensures cs[i].name in RecordAll(fs, n, cs, routed)
    ensures RecordAll(fs, n, cs, routed)[cs[i].name] == Record(n + i + 1, Without(cs[i].abi, routed))
    decreases |cs|
  {
    hide Without;
    if i < |cs| - 1 {
      var p := cs[..|cs| - 1];
      assert p[i] == cs[i];
      OwnRecord(fs, n, p, routed, i);
    }
  }

  /** Each contract is recorded with exactly what is routed to it. */
  lemma StepServes(t: Table, fs: Facets, n: nat, cs: seq<Contract>)
    requires Clear(t.Keys, FacetsAt(n, cs)) && DistinctNames(cs) && HandedOut(t, map[], n)
    ensures forall i :: 0 <= i < |cs| ==>
              && cs[i].name in RecordAll(fs, n, cs, t.Keys)
              && Elems(RecordAll(fs, n, cs, t.Keys)[cs[i].name].selectors) ==
                 Owned(FirstWins(t, FacetsAt(n, cs)), n + i + 1)
  {
    hide Clear, FirstWins, HandedOut, DistinctNames, RecordAll;
    StepRecords(fs, n, cs, t.Keys);
    forall i | 0 <= i < |cs|
      ensures Elems(Without(cs[i].abi, t.Keys)) == Owned(FirstWins(t, FacetsAt(n, cs)), n + i + 1)
    {
      ServesItsOwn(t, n, cs, i);
    }
  }

  lemma {:induction false} ServesItsOwn(t: Table, n: nat, cs: seq<Contract>, i: nat)
    requires Clear(t.Keys, FacetsAt(n, cs)) && HandedOut(t, map[], n) && i < |cs|
    ensures Elems(Without(cs[i].abi, t.Keys)) == Owned(FirstWins(t, FacetsAt(n, cs)), n + i + 1)
    decreases |cs|
  {
    hide *;
    LastServes(t, n, cs, i);
    if i < |cs| - 1 {
      var p := cs[..|cs| - 1];
      assert p[i] == cs[i];
      LastOfStep(t, n, cs);
      ServesItsOwn(t, n, p, i);
    }
  }

  /** The last contract of a step takes nothing from the others. */
  lemma {:induction false} LastServes(t: Table, n: nat, cs: seq<Contract>, i: nat)
    requires Clear(t.Keys, FacetsAt(n, cs)) && HandedOut(t, map[], n) && i < |cs|
    ensures Owned(FirstWins(t, FacetsAt(n, cs)), n + i + 1) ==
            if i == |cs| - 1 then Elems(Without(cs[i].abi, t.Keys))
            else Owned(FirstWins(t, FacetsAt(n, cs[..|cs| - 1])), n + i + 1)
  {
    hide *;
    var p := cs[..|cs| - 1];
    LastOfStep(t, n, cs);
    FirstWinsAddresses(t, n, p);
    RouteOwns(FirstWins(t, FacetsAt(n, p)), Elems(Without(cs[|cs| - 1].abi, t.Keys)), n + |cs|, n + i + 1);
  }

  /** The last contract of a step adds what the chain did not route before the step. */
  lemma LastOfStep(t: Table, n: nat, cs: seq<Contract>)
    requires Clear(t.Keys, FacetsAt(n, cs)) && cs != []
    ensures var p := cs[..|cs| - 1];
            var t1, left := FirstWins(t, FacetsAt(n, p)), Elems(Without(cs[|cs| - 1].abi, t.Keys));
            && Clear(t.Keys, FacetsAt(n, p)) && left !! t1.Keys
            && FirstWins(t, FacetsAt(n, cs)) == Route(t1, left, n + |cs|)
  {
    hide Clear, Exposed, Elems, Route;
    var p, all := cs[..|cs| - 1], FacetsAt(n, cs);
    assert all[..|all| - 1] == FacetsAt(n, p);
    ClearSnoc(t.Keys, all);
    FirstWinsKeys(t, FacetsAt(n, p));
    LeftIs(cs[|cs| - 1].abi, t.Keys);
    FreeAmong(Elems(Without(cs[|cs| - 1].abi, t.Keys)), Elems(cs[|cs| - 1].abi), t.Keys, Exposed(FacetsAt(n, p)));
  }

  lemma LeftIs(l: seq<Selector>, excluded: set<Selector>)
    ensures Elems(Without(l, excluded)) == Elems(l) - excluded
  {
  }

  lemma RouteOwns(t: Table, sels: set<Selector>, a: Address, x: Address)
    requires sels !! t.Keys && forall s <- t :: t[s] < a
    ensures Owned(Route(t, sels, a), x) == if x == a then sels else Owned(t, x)
  {
  }

  lemma {:induction false} FirstWinsAddresses(t: Table, n: nat, cs: seq<Contract>)
    requires HandedOut(t, map[], n)
    ensures forall s <- FirstWins(t, FacetsAt(n, cs)) :: FirstWins(t, FacetsAt(n, cs))[s] <= n + |cs|
    decreases |cs|
  {
    if cs != [] {
      var fs := FacetsAt(n, cs);
      assert fs[..|fs| - 1] == FacetsAt(n, cs[..|cs| - 1]);
      FirstWinsAddresses(t, n, cs[..|cs| - 1]);
    }
  }

  /** A manifest that is exact stays so. */
  lemma {:induction false} StepIndexes(t: Table, fs: Facets, n: nat, cs: seq<Contract>)
    requires Clear(t.Keys, FacetsAt(n, cs)) && Acceptable(fs.Keys, cs) && Indexing(t, fs, n)
    ensures Indexing(FirstWins(t, FacetsAt(n, cs)), RecordAll(fs, n, cs, t.Keys), n + |cs|)
    decreases |cs|
  {
    hide Indexing, NoDup, Clear, Elems, Route, Acceptable, FirstWins;
    if cs == [] {
      NothingDone(t, fs, n, cs);
    } else {
      var p, c := cs[..|cs| - 1], cs[|cs| - 1];
      LastOfStep(t, n, cs);
      AcceptableBefore(fs, cs);
      StepIndexes(t, fs, n, p);
      NewName(fs, n, cs, t.Keys);
      IndexingNext(FirstWins(t, FacetsAt(n, p)), RecordAll(fs, n, p, t.Keys), n + |p|,
                   Facet(c.name, n + |cs|, Without(c.abi, t.Keys)));
    }
  }

  lemma NothingDone(t: Table, fs: Facets, n: nat, cs: seq<Contract>)
    requires cs == []
    ensures FirstWins(t, FacetsAt(n, cs)) == t && RecordAll(fs, n, cs, t.Keys) == fs
  {
  }

  lemma AcceptableBefore(fs: Facets, cs: seq<Contract>)
    requires cs != [] && Acceptable(fs.Keys, cs)
    ensures Acceptable(fs.Keys, cs[..|cs| - 1])
  {
    hide NoDup;
    NamesSnoc(cs, fs.Keys);
  }

  lemma NewName(fs: Facets, n: nat, cs: seq<Contract>, routed: set<Selector>)
    requires cs != [] && Acceptable(fs.Keys, cs)
    ensures cs[|cs| - 1].name !in RecordAll(fs, n, cs[..|cs| - 1], routed)
  {
    var p, c := cs[..|cs| - 1], cs[|cs| - 1];
    NamesSnoc(cs, fs.Keys);
    StepRecords(fs, n, p, routed);
    assert c in cs;
    forall x | x in p ensures x.name != c.name { assert x.name in Names(p); }
  }

  /** The manifest after recording every contract with what was left of its interface. */
  function RecordAll(fs: Facets, n: nat, cs: seq<Contract>, routed: set<Selector>): Facets {
    if cs == [] then fs
    else
      var c := cs[|cs| - 1];
      RecordAll(fs, n, cs[..|cs| - 1], routed)[c.name := Record(n + |cs|, Without(c.abi, routed))]
  }

  method SaveEntries(m: Manifest, entries: seq<Facet>, ghost n: nat, ghost cs: seq<Contract>,
                     ghost routed: set<Selector>)
    requires |entries| == |cs| && forall i :: 0 <= i < |cs| ==>
               entries[i] == Facet(cs[i].name, n + i + 1, Without(cs[i].abi, routed))
    modifies m`facets
    ensures m.facets == RecordAll(old(m.facets), n, cs, routed)
  {
    assert cs[..0] == [];
    for i := 0 to |entries|
      invariant m.facets == RecordAll(old(m.facets), n, cs[..i], routed)
    {
      assert cs[..i + 1][..i] == cs[..i];
      m.RecordFacet(entries[i].name, entries[i].address, entries[i].selectors);
    }
    assert cs[..|cs|] == cs;
  }
}
