/**
 The single-facet upgrade script: one method that reads, plans by mode, executes and records, proved to do
 exactly what `Upgrades.Upgrade` says.
 */
module UpgradeFacetScript {
  import opened Routing
  import opened DiamondStorage
  import opened Plans
  import opened Deploys
  import opened Upgrades
  import opened Chain

  datatype Outcome = Aborted | Reverted(reason: Reason) | Done(registered: nat)

  /** The branch over the modes: either the cuts of the mode, or nothing to execute. */
  method BuildCuts(mode: Mode, it: Item) returns (abort: bool, cuts: seq<FacetCut>)
    ensures abort <==>
            || mode.UNKNOWN? || (it.oldSelectors == [] && it.newSelectors == [])
            || (mode.ADD_NEW? && forall s <- it.newSelectors :: s in it.oldSelectors)
    ensures !abort ==> cuts == ModeCuts(mode, it)
  {
    var toAdd, toRemove, toReplace := it.ToAdd(), it.ToRemove(), it.ToReplace();
    NoChanges(it);
    abort, cuts := false, [];
    if |toAdd| == 0 && |toReplace| == 0 && |toRemove| == 0 { abort := true; return; }
    match mode {
      case REPLACE =>
        if |toReplace| > 0 { cuts := cuts + [FacetCut(it.address, Replace, toReplace)]; }
        if |toAdd| > 0 { cuts := cuts + [FacetCut(it.address, Add, toAdd)]; }
      case ADD_NEW =>
        if |toAdd| > 0 { cuts := cuts + [FacetCut(it.address, Add, toAdd)]; } else { abort := true; }
      case FULL =>
        if |toRemove| > 0 { cuts := cuts + [FacetCut(ZERO_ADDRESS, Remove, toRemove)]; }
        if |toReplace| > 0 { cuts := cuts + [FacetCut(it.address, Replace, toReplace)]; }
        if |toAdd| > 0 { cuts := cuts + [FacetCut(it.address, Add, toAdd)]; }
      case UNKNOWN(_) => abort := true;
    }
  }

  /** The whole script: whatever happens, diamond and manifest move together as `Upgrade` says. */
  method UpgradeFacet(d: Diamond, m: Manifest, net: Network, req: Request) returns (o: Outcome)
    requires Live(d, net) && Known(StateOf(d, m, net)) && NoDup(req.abi)
    modifies d, m, net
    ensures Live(d, net)
    ensures StateOf(d, m, net) == Upgrade(old(StateOf(d, m, net)), req)
    ensures o.Done? <==> m.upgrades != old(m.upgrades)
    ensures var was := Served(old(m.facets), old(d.Table()), req.name);
            && (o.Aborted? <==>
                || req.mode.UNKNOWN? || (was == {} && req.abi == [])
                || (req.mode.ADD_NEW? && forall s <- req.abi :: s in was))
            && (o.Reverted? ==> o.reason == FunctionExists && exists s <- req.abi :: s !in was && s in old(d.Table()))
    ensures o.Done? ==> o.registered == |Owned(d.Table(), net.deployed)|
  {
    hide *;
    var oldSelectors := ReadServed(d, m, net, req.name);
    ghost var st := StateOf(d, m, net);
    LiveMeans(d, net);
    StateIs(d, m, net);
    HowItEnds(st, req, oldSelectors);
    var a := net.DeployContract();
    StateIs(d, m, net);
    StillLive(d, net);
    var it := Item(a, oldSelectors, req.abi);
    var abort, cuts := BuildCuts(req.mode, it);
    if abort { return Aborted; }
    var r := ExecuteUpgrade(d, m, net, req, it, cuts, st);
    StateIs(d, m, net);
    if r.Revert? { return Reverted(r.reason); }
    LiveMeans(d, net);
    var registered := d.FacetFunctionSelectors(a);
    NoDupCardinality(registered);
    o := Done(|registered|);
  }

  /** What the loupe reports for the recorded address, nothing without a record. */
  method ReadServed(d: Diamond, m: Manifest, net: Network, name: string) returns (sels: seq<Selector>)
    requires Live(d, net)
    ensures NoDup(sels) && Elems(sels) == Served(m.facets, d.Table(), name)
  {
    sels := [];
    if name in m.facets { sels := d.FacetFunctionSelectors(m.facets[name].address); }
  }

  /** The three ways in which the script ends. */
  lemma HowItEnds(st: State, req: Request, served: seq<Selector>)
    requires Elems(served) == Served(st.facets, st.table, req.name)
    ensures Aborts(Elems(served), req) <==>
            || req.mode.UNKNOWN? || (served == [] && req.abi == [])
            || (req.mode.ADD_NEW? && forall s <- req.abi :: s in served)
    ensures var was := Served(st.facets, st.table, req.name);
            && (Aborts(was, req) <==>
                || req.mode.UNKNOWN? || (was == {} && req.abi == [])
                || (req.mode.ADD_NEW? && forall s <- req.abi :: s in was))
            && (Succeeds(st, req) <==> !Aborts(was, req) && !exists s <- req.abi :: s !in was && s in st.table)
            && (Succeeds(st, req) <==> Upgrade(st, req).history != st.history)
            && (!Succeeds(st, req) ==> Upgrade(st, req) == st.(deployed := st.deployed + 1))
  {
    EmptyList(served);
    var was := Served(st.facets, st.table, req.name);
    assert forall s :: s in served <==> s in was by { assert forall s :: s in served <==> s in Elems(served); }
    assert Elems(req.abi) - was !! st.table.Keys <==> !exists s <- req.abi :: s !in was && s in st.table;
  }

  /** The transaction and, when it went through, the manifest. */
  method ExecuteUpgrade(d: Diamond, m: Manifest, net: Network, req: Request, it: Item, cuts: seq<FacetCut>,
                        ghost st: State)
      returns (r: Result<()>)
    requires Live(d, net) && Known(st) && StateOf(d, m, net) == st.(deployed := st.deployed + 1)
    requires it.address == net.deployed && it.newSelectors == req.abi && NoDup(req.abi) && NoDup(it.oldSelectors)
    requires Elems(it.oldSelectors) == Served(st.facets, st.table, req.name) && d.self <= st.deployed
    requires !Aborts(Elems(it.oldSelectors), req) && cuts == ModeCuts(req.mode, it)
    modifies d, m
    ensures Live(d, net) && StateOf(d, m, net) == Upgrade(st, req)
    ensures r.Ok? <==> Succeeds(st, req)
    ensures r.Revert? ==> r.reason == FunctionExists
  {
    hide *;
    var env := EnvOf(d.self, net.deployed);
    EnvSelf(d.self, net.deployed);
    LiveMeans(d, net);
    StateIs(d, m, net);
    UpgradeApplies(env, st, req, it);
    UpgradeIs(st, req, it);
    r := d.DiamondCut(cuts, env);
    PerformsMeans(d, r, ApplyCuts(env, st.table, cuts));
    if r.Revert? { return; }
    UpgradeAvoids(st, req, d.self);
    StillLive(d, net);
    m.RecordFacet(req.name, it.address, req.abi);
    m.upgrades := m.upgrades + [Entry(req.mode, |it.ToAdd()|, |it.ToReplace()|, |it.ToRemove()|)];
    StateIs(d, m, net);
  }

  /** What the specification's step makes of a state, in the script's terms, whether it succeeds or not. */
  lemma UpgradeIs(st: State, req: Request, it: Item)
    requires NoDup(req.abi) && NoDup(it.oldSelectors)
    requires it.address == st.deployed + 1 && it.newSelectors == req.abi
    requires Elems(it.oldSelectors) == Served(st.facets, st.table, req.name)
    ensures Upgrade(st, req) ==
            if Succeeds(st, req) then
              State(ModeTable(req.mode, st.table, Elems(it.oldSelectors), Elems(req.abi), it.address),
                    st.facets[req.name := Record(it.address, req.abi)],
                    st.history + [Entry(req.mode, |it.ToAdd()|, |it.ToReplace()|, |it.ToRemove()|)],
                    it.address)
            else st.(deployed := st.deployed + 1)
  {
    if Succeeds(st, req) { UpgradeRecords(st, req, it); }
  }

  /** The transaction of the script, seen from the state it starts in. */
  lemma UpgradeApplies(env: Env, st: State, req: Request, it: Item)
    requires Known(st) && env == EnvOf(env.self, st.deployed + 1)
    requires 0 < env.self <= st.deployed && env.self !in st.table.Values
    requires it.address == st.deployed + 1 && it.newSelectors == req.abi && NoDup(req.abi) && NoDup(it.oldSelectors)
    requires Elems(it.oldSelectors) == Served(st.facets, st.table, req.name)
    requires !Aborts(Elems(it.oldSelectors), req)
    ensures ApplyCuts(env, st.table, ModeCuts(req.mode, it)) ==
            if Succeeds(st, req)
            then Ok(ModeTable(req.mode, st.table, Elems(it.oldSelectors), Elems(req.abi), it.address))
            else Revert(FunctionExists)
  {
    NewAddressUnused(st);
    assert it.address !in st.table.Values by {
      forall s | s in st.table ensures st.table[s] != it.address { assert s !in Owned(st.table, it.address); }
    }
    UpgradeOutcome(env, st.table, req.mode, it);
    assert Elems(it.ToAdd()) == Elems(req.abi) - Elems(it.oldSelectors);
    assert Succeeds(st, req) <==> Elems(it.ToAdd()) !! st.table.Keys;
  }

  lemma UpgradeAvoids(st: State, req: Request, a: Address)
    requires Succeeds(st, req) && a !in st.table.Values && a != st.deployed + 1
    ensures a !in Upgrade(st, req).table.Values
  {
    var was, now := Served(st.facets, st.table, req.name), Elems(req.abi);
    UpgradeMoves(st, req);
    MovedValues(st.table, Upgrade(st, req).table, Lost(req.mode, was, now), Gained(req.mode, was, now),
                st.deployed + 1);
  }

  /** What the specification's step makes of the four components, in the script's terms. */
  lemma UpgradeRecords(st: State, req: Request, it: Item)
    requires Succeeds(st, req) && NoDup(req.abi) && NoDup(it.oldSelectors)
    requires it.address == st.deployed + 1 && it.newSelectors == req.abi
    requires Elems(it.oldSelectors) == Served(st.facets, st.table, req.name)
    ensures Upgrade(st, req) ==
            State(ModeTable(req.mode, st.table, Elems(it.oldSelectors), Elems(req.abi), it.address),
                  st.facets[req.name := Record(it.address, req.abi)],
                  st.history + [Entry(req.mode, |it.ToAdd()|, |it.ToReplace()|, |it.ToRemove()|)],
                  it.address)
  {
    hide *;
    DiffSizes(it);
    UpgradeApplied(st, req, Elems(it.oldSelectors), Elems(it.newSelectors));
  }

  lemma UpgradeApplied(st: State, req: Request, was: set<Selector>, now: set<Selector>)
    requires Succeeds(st, req) && was == Served(st.facets, st.table, req.name) && now == Elems(req.abi)
    ensures var a := st.deployed + 1;
            Upgrade(st, req) ==
            State(ModeTable(req.mode, st.table, was, now, a), st.facets[req.name := Record(a, req.abi)],
                  st.history + [Entry(req.mode, |now - was|, |now * was|, |was - now|)], a)
  {
    hide ModeTable, Elems, Succeeds, Served;
  }

  lemma MovedValues(t: Table, t': Table, lost: set<Selector>, gained: set<Selector>, a: Address)
    requires Moved(t, t', lost, gained, a)
    ensures t'.Values <= t.Values + {a}
  {
    forall s | s in t' ensures t'[s] in t.Values + {a} {
      assert s !in gained ==> s in t;
    }
  }

  lemma NoChanges(it: Item)
    ensures it.ToAdd() == [] <==> Elems(it.newSelectors) <= Elems(it.oldSelectors)
    ensures it.ToAdd() == [] && it.ToReplace() == [] && it.ToRemove() == [] <==>
            it.newSelectors == [] && Elems(it.oldSelectors) == {}
  {
    EmptyList(it.ToAdd());
    EmptyList(it.ToReplace());
    EmptyList(it.ToRemove());
    EmptyList(it.newSelectors);
    var was, now := Elems(it.oldSelectors), Elems(it.newSelectors);
    assert Elems(it.ToAdd()) == now - was && Elems(it.ToReplace()) == now * was && Elems(it.ToRemove()) == was - now;
    assert now == (now - was) + now * was && was == (was - now) + now * was;
  }

  lemma DiffSizes(it: Item)
    requires NoDup(it.oldSelectors) && NoDup(it.newSelectors)
    ensures |it.ToAdd()| == |Elems(it.newSelectors) - Elems(it.oldSelectors)|
    ensures |it.ToReplace()| == |Elems(it.newSelectors) * Elems(it.oldSelectors)|
    ensures |it.ToRemove()| == |Elems(it.oldSelectors) - Elems(it.newSelectors)|
  {
    var was, now := Elems(it.oldSelectors), Elems(it.newSelectors);
    NoDupCardinality(it.ToAdd());
    NoDupCardinality(it.ToReplace());
    NoDupCardinality(it.ToRemove());
    assert Elems(it.ToAdd()) == now - was && Elems(it.ToReplace()) == now * was && Elems(it.ToRemove()) == was - now;
  }
}
