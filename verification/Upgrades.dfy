/**
 The single-facet upgrade script as a step on (routing table, manifest): three modes, each diffing the
 new contract against what the chain still routes to the recorded address.  The invariants of any run of
 such upgrades, and what each mode breaks, are proved here.
 */
module Upgrades {
  import opened Routing
  import opened Plans

  datatype Mode = REPLACE | ADD_NEW | FULL | UNKNOWN(name: string)

  /** The cuts the script builds for the facet, by mode. */
  function ModeCuts(mode: Mode, it: Item): seq<FacetCut> {
    match mode
    case REPLACE => CutIf(Replace, it.address, it.ToReplace()) + CutIf(Add, it.address, it.ToAdd())
    case ADD_NEW => CutIf(Add, it.address, it.ToAdd())
    case FULL =>
      CutIf(Remove, ZERO_ADDRESS, it.ToRemove()) + CutIf(Replace, it.address, it.ToReplace()) +
      CutIf(Add, it.address, it.ToAdd())
    case UNKNOWN(_) => []
  }

  /** The table a successful upgrade leaves: `was` is what the old address served, `now` what the new contract
      exposes. */
  function ModeTable(mode: Mode, t: Table, was: set<Selector>, now: set<Selector>, a: Address): Table {
    match mode
    case REPLACE => Route(t, now, a)
    case ADD_NEW => Route(t, now - was, a)
    case FULL => Route(t - was, now, a)
    case UNKNOWN(_) => t
  }

  /** A single-facet upgrade reverts exactly when some selector to be added is already routed. */
  lemma UpgradeOutcome(env: Env, t: Table, mode: Mode, it: Item)
    requires ItemReady(env, t, it) && env.self !in t.Values && !mode.UNKNOWN?
    ensures ApplyCuts(env, t, ModeCuts(mode, it)) ==
            if Elems(it.ToAdd()) !! t.Keys
            then Ok(ModeTable(mode, t, Elems(it.oldSelectors), Elems(it.newSelectors), it.address))
            else Revert(FunctionExists)
  {
    var was, now, add := Elems(it.oldSelectors), Elems(it.newSelectors), Elems(it.ToAdd());
    match mode
    case ADD_NEW =>
      AddStep(env, t, it.address, it.ToAdd());
      assert add == now - was;
    case REPLACE =>
      ApplyConcat(env, t, CutIf(Replace, it.address, it.ToReplace()), CutIf(Add, it.address, it.ToAdd()));
      ReplaceStep(env, t, it);
      AddStep(env, Route(t, Elems(it.ToReplace()), it.address), it.address, it.ToAdd());
      RouteTwice(t, Elems(it.ToReplace()), add, now, it.address);
    case FULL =>
      FullOutcome(env, t, it);
  }

  lemma FullOutcome(env: Env, t: Table, it: Item)
    requires ItemReady(env, t, it) && env.self !in t.Values
    ensures ApplyCuts(env, t, ModeCuts(FULL, it)) ==
            if Elems(it.ToAdd()) !! t.Keys then Ok(ItemTable(t, it)) else Revert(FunctionExists)
  {
    hide ApplyCuts, CutIf;
    var c1, c2 := CutIf(Remove, ZERO_ADDRESS, it.ToRemove()), CutIf(Replace, it.address, it.ToReplace());
    ApplyConcat(env, t, c1 + c2, CutIf(Add, it.address, it.ToAdd()));
    ApplyConcat(env, t, c1, c2);
    RemoveStep(env, t, it.ToRemove());
    // With the obsolete selectors gone, what remains is a facet that drops nothing.
    var t1 := t - Elems(it.ToRemove());
    ReplaceRest(env, t, it);
    AddStep(env, Route(t1, Elems(it.ToReplace()), it.address), it.address, it.ToAdd());
    FullTable(t, it);
  }

  lemma FullTable(t: Table, it: Item)
    ensures var t1 := t - Elems(it.ToRemove());
            var t2 := Route(t1, Elems(it.ToReplace()), it.address);
            && (t2.Keys == t1.Keys ==> (Elems(it.ToAdd()) !! t2.Keys <==> Elems(it.ToAdd()) !! t.Keys))
            && Route(t2, Elems(it.ToAdd()), it.address) == ItemTable(t, it)
  {
    var t1 := t - Elems(it.ToRemove());
    assert Elems(it.ToAdd()) !! Elems(it.ToRemove());
    RouteTwice(t1, Elems(it.ToReplace()), Elems(it.ToAdd()), Elems(it.newSelectors), it.address);
    RouteAround(t, Elems(it.oldSelectors), Elems(it.newSelectors), Elems(it.ToRemove()), it.address);
  }

  lemma ReplaceRest(env: Env, t: Table, it: Item)
    requires ItemReady(env, t, it) && env.self !in t.Values
    ensures var t1 := t - Elems(it.ToRemove());
            var t2 := Route(t1, Elems(it.ToReplace()), it.address);
            ApplyCuts(env, t1, CutIf(Replace, it.address, it.ToReplace())) == Ok(t2) && t2.Keys == t1.Keys
  {
    var t1 := t - Elems(it.ToRemove());
    CutIfApplies(env, t1, Replace, it.address, it.ToReplace());
    ReplaceList(env, t1, it.address, it.ToReplace());
    forall s | s in it.ToReplace() ensures s in t1 && t1[s] != it.address && t1[s] != env.self {
      assert s in Elems(it.oldSelectors) && s !in Elems(it.ToRemove());
    }
    assert Elems(it.ToReplace()) <= t1.Keys;
  }

  /** A FULL upgrade of the facet at `oldAddress`, from outside: it goes through exactly when nothing it adds is
      routed, and then the new address owns the new interface, the old one nothing, and nobody else is affected. */
  lemma FullUpgradeExact(env: Env, t: Table, oldAddress: Address, it: Item)
    requires ItemReady(env, t, it) && env.self !in t.Values
    requires Elems(it.oldSelectors) == Owned(t, oldAddress)
    ensures var r := ApplyCuts(env, t, ModeCuts(FULL, it));
            && (r.Ok? <==> forall s <- it.newSelectors :: s in t ==> t[s] == oldAddress)
            && (r.Ok? ==>
              && Owned(r.value, it.address) == Elems(it.newSelectors)
              && (oldAddress != it.address ==> Owned(r.value, oldAddress) == {})
              && forall x :: x != it.address && x != oldAddress ==> Owned(r.value, x) == Owned(t, x))
  {
    FullOutcome(env, t, it);
    assert Elems(it.ToAdd()) == Elems(it.newSelectors) - Owned(t, oldAddress);
    if Elems(it.ToAdd()) !! t.Keys {
      var was, now, t' := Elems(it.oldSelectors), Elems(it.newSelectors), ItemTable(t, it);
      ModeMoves(FULL, t, was, now, it.address);
      assert Owned(t, it.address) == {};
      forall x ensures x != it.address && x != oldAddress ==> Owned(t', x) == Owned(t, x) {
        MovedOwners(t, t', was - now, now, it.address, x);
        assert now <= was + Elems(it.ToAdd());
      }
      MovedOwners(t, t', was - now, now, it.address, oldAddress);
    }
  }

  lemma RouteTwice(t: Table, rep: set<Selector>, add: set<Selector>, now: set<Selector>, a: Address)
    requires now == rep + add
    ensures Route(Route(t, rep, a), add, a) == Route(t, now, a)
  {
  }

  lemma RouteAround(t: Table, was: set<Selector>, now: set<Selector>, rem: set<Selector>, a: Address)
    requires rem == was - now
    ensures Route(t - rem, now, a) == Route(t - was, now, a)
  {
  }

  // ---------------------------------------------------------------- the manifest

  datatype Record = Record(address: Address, selectors: seq<Selector>)

  type Facets = map<string, Record>

  /** Each recorded facet's list is exactly what is routed to its recorded address. */
  ghost predicate Agree(fs: Facets, t: Table) {
    forall n <- fs :: Elems(fs[n].selectors) == Owned(t, fs[n].address)
  }

  ghost predicate Separate(fs: Facets) {
    forall m <- fs, n <- fs :: m != n ==> fs[m].address != fs[n].address
  }

  /** Routed selectors whose facet the manifest does not know. */
  ghost function Orphans(fs: Facets, t: Table): set<Selector> {
    set s | s in t && forall n <- fs :: fs[n].address != t[s]
  }

  /** What the loupe reports for the facet recorded under `name`. */
  function Served(fs: Facets, t: Table, name: string): set<Selector> {
    if name in fs then Owned(t, fs[name].address) else {}
  }

  // ---------------------------------------------------------------- one upgrade, and runs of them

  /** One line of the manifest's upgrade history: of a single facet, or of a whole version. */
  datatype Entry =
    | Entry(mode: Mode, added: nat, replaced: nat, removed: nat)
    | Version(updatedFacets: seq<string>, newFacets: seq<string>)

  /** `deployed` is the number of contracts ever created: addresses are handed out in order and never reused. */
  datatype State = State(table: Table, facets: Facets, history: seq<Entry>, deployed: nat)

  datatype Request = Request(name: string, mode: Mode, abi: seq<Selector>)

  /** The script gives up before the transaction: nothing changed, nothing to add, or no such mode. */
  predicate Aborts(was: set<Selector>, req: Request) {
    || (was == {} && req.abi == [])
    || (req.mode.ADD_NEW? && Elems(req.abi) <= was)
    || req.mode.UNKNOWN?
  }

  predicate Succeeds(st: State, req: Request) {
    var was := Served(st.facets, st.table, req.name);
    !Aborts(was, req) && Elems(req.abi) - was !! st.table.Keys
  }

  /** The state after the transaction went through and the manifest was saved. */
  function Applied(st: State, req: Request): State {
    var a := st.deployed + 1;
    var was, now := Served(st.facets, st.table, req.name), Elems(req.abi);
    State(ModeTable(req.mode, st.table, was, now, a),
          st.facets[req.name := Record(a, req.abi)],
          st.history + [Entry(req.mode, |now - was|, |now * was|, |was - now|)],
          a)
  }

  /** The contract is deployed in any case; table and manifest change only when the transaction goes through. */
  function Upgrade(st: State, req: Request): State {
    if Succeeds(st, req) then Applied(st, req) else st.(deployed := st.deployed + 1)
  }

  function Run(st: State, reqs: seq<Request>): State {
    if reqs == [] then st else Upgrade(Run(st, reqs[..|reqs| - 1]), reqs[|reqs| - 1])
  }

  /** When an upgrade is recorded, and everything it leaves, said of the request and the state before alone. */
  lemma UpgradeRecordedExactly(st: State, req: Request)
    requires Known(st)
    ensures var st', was, a := Upgrade(st, req), Served(st.facets, st.table, req.name), st.deployed + 1;
            var recorded :=
              && (req.mode == REPLACE || req.mode == ADD_NEW || req.mode == FULL)
              && (was != {} || req.abi != [])
              && (req.mode == ADD_NEW ==> exists s <- req.abi :: s !in was)
              && (forall s <- req.abi :: s in st.table ==> s in was);
            && st'.deployed == a
            && (st'.history != st.history <==> recorded)
            && (!recorded ==> st' == st.(deployed := a))
            && (recorded ==>
                  && st'.facets == st.facets[req.name := Record(a, req.abi)]
                  && st'.history == st.history + [Entry(req.mode, |Elems(req.abi) - was|, |Elems(req.abi) * was|,
                                                        |was - Elems(req.abi)|)]
                  && (forall s: Selector ::
                        s in st'.table <==> s in req.abi || (s in st.table && !(req.mode == FULL && s in was)))
                  && (forall s <- st'.table ::
                        st'.table[s] == if s in req.abi && !(req.mode == ADD_NEW && s in was) then a else st.table[s]))
  {
    var was, now := Served(st.facets, st.table, req.name), Elems(req.abi);
    assert forall s: Selector :: s in now <==> s in req.abi;
    assert now - was !! st.table.Keys <==> forall s <- req.abi :: s in st.table ==> s in was;
    if Succeeds(st, req) { UpgradeMoves(st, req); }
  }

  /** ADD_NEW with nothing new leaves table, facets and history as they were; a recorded one adds routes. */
  lemma AddNewAdds(st: State, req: Request)
    requires Known(st) && req.mode == ADD_NEW
    ensures var st' := Upgrade(st, req);
            && (Elems(req.abi) <= Served(st.facets, st.table, req.name) ==>
                  st'.table == st.table && st'.facets == st.facets && st'.history == st.history)
            && (st'.history != st.history ==> |st'.table| > |st.table|)
  {
    UpgradeRecordedExactly(st, req);
    hide Upgrade, Known, Served;
    var st' := Upgrade(st, req);
    if st'.history != st.history {
      var s :| s in req.abi && s !in Served(st.facets, st.table, req.name);
      MoreElements(st.table.Keys, st'.table.Keys, s);
    }
  }

  lemma MoreElements(a: set<Selector>, b: set<Selector>, s: Selector)
    requires a <= b && s in b && s !in a
    ensures |a| < |b|
  {
    assert b == a + (b - a) && s in b - a;
  }

  /** Every address in table and manifest was handed out, and no two names share one. */
  ghost predicate Known(st: State) {
    && (forall s <- st.table :: 0 < st.table[s] <= st.deployed)
    && (forall n <- st.facets :: 0 < st.facets[n].address <= st.deployed)
    && Separate(st.facets)
  }

  lemma KnownKept(st: State, req: Request)
    requires Known(st)
    ensures Known(Upgrade(st, req))
  {
    var st' := Upgrade(st, req);
    if Succeeds(st, req) {
      hide Known, Separate;
      KnownTable(st, req);
      KnownRecords(st, req);
      KnownWhole(st');
    }
  }

  lemma KnownWhole(st: State)
    requires forall s <- st.table :: 0 < st.table[s] <= st.deployed
    requires forall n <- st.facets :: 0 < st.facets[n].address <= st.deployed
    requires Separate(st.facets)
    ensures Known(st)
  {
  }

  lemma KnownTable(st: State, req: Request)
    requires Known(st) && Succeeds(st, req)
    ensures forall s <- Upgrade(st, req).table :: 0 < Upgrade(st, req).table[s] <= st.deployed + 1
  {
    hide Separate;
    var st' := Upgrade(st, req);
    forall s | s in st'.table ensures 0 < st'.table[s] <= st.deployed + 1 {
      assert st'.table[s] == st.deployed + 1 || (s in st.table && st'.table[s] == st.table[s]);
    }
  }

  lemma KnownRecords(st: State, req: Request)
    requires Known(st) && Succeeds(st, req)
    ensures forall n <- Upgrade(st, req).facets :: 0 < Upgrade(st, req).facets[n].address <= st.deployed + 1
    ensures Separate(Upgrade(st, req).facets) && Upgrade(st, req).deployed == st.deployed + 1
  {
  }

  /** Routes after an upgrade: the new address has `gained`, everything else still routed stays where it was. */
  ghost predicate Moved(t: Table, t': Table, lost: set<Selector>, gained: set<Selector>, a: Address) {
    && t'.Keys == (t.Keys - lost) + gained
    && (forall s <- t' :: t'[s] == if s in gained then a else t[s])
  }

  function Lost(mode: Mode, was: set<Selector>, now: set<Selector>): set<Selector> {
    if mode.FULL? then was - now else {}
  }

  function Gained(mode: Mode, was: set<Selector>, now: set<Selector>): set<Selector> {
    if mode.ADD_NEW? then now - was else now
  }

  lemma ModeMoves(mode: Mode, t: Table, was: set<Selector>, now: set<Selector>, a: Address)
    requires !mode.UNKNOWN?
    ensures Moved(t, ModeTable(mode, t, was, now, a), Lost(mode, was, now), Gained(mode, was, now), a)
  {
  }

  lemma MovedOwners(t: Table, t': Table, lost: set<Selector>, gained: set<Selector>, a: Address, x: Address)
    requires Moved(t, t', lost, gained, a)
    ensures x != a && Owned(t, x) !! lost + gained ==> Owned(t', x) == Owned(t, x)
    ensures Owned(t, a) == {} ==> Owned(t', a) == gained
  {
    assert forall s <- t' :: s !in gained ==> s in t && t'[s] == t[s];
    if Owned(t, a) == {} {
      assert forall s <- t :: t[s] != a by {
        forall s | s in t ensures t[s] != a { assert s !in Owned(t, a); }
      }
    }
  }

  /** The table moves as its mode says, and one record changes. */
  lemma UpgradeMoves(st: State, req: Request)
    requires Succeeds(st, req)
    ensures var was, now := Served(st.facets, st.table, req.name), Elems(req.abi);
            Moved(st.table, Upgrade(st, req).table, Lost(req.mode, was, now), Gained(req.mode, was, now),
                  st.deployed + 1)
    ensures Upgrade(st, req).facets == st.facets[req.name := Record(st.deployed + 1, req.abi)]
  {
    var was, now := Served(st.facets, st.table, req.name), Elems(req.abi);
    var t' := ModeTable(req.mode, st.table, was, now, st.deployed + 1);
    assert Upgrade(st, req).table == t';
    ModeMoves(req.mode, st.table, was, now, st.deployed + 1);
  }

  lemma NewAddressUnused(st: State)
    requires Known(st)
    ensures Owned(st.table, st.deployed + 1) == {}
    ensures forall n <- st.facets :: st.facets[n].address != st.deployed + 1
  {
  }

  /** A recorded facet other than the upgraded one keeps its record and exactly its selectors. */
  lemma OthersKept(st: State, req: Request, n: string)
    requires Known(st) && n in st.facets && n != req.name && Succeeds(st, req)
    ensures n in Upgrade(st, req).facets && Upgrade(st, req).facets[n] == st.facets[n]
    ensures Owned(Upgrade(st, req).table, st.facets[n].address) == Owned(st.table, st.facets[n].address)
  {
    var was, now := Served(st.facets, st.table, req.name), Elems(req.abi);
    UpgradeMoves(st, req);
    assert Owned(st.table, st.facets[n].address) !! was;
    assert Owned(st.table, st.facets[n].address) !! now - was;
    assert Lost(req.mode, was, now) + Gained(req.mode, was, now) <= was + (now - was);
    MovedOwners(st.table, Upgrade(st, req).table, Lost(req.mode, was, now), Gained(req.mode, was, now),
                st.deployed + 1, st.facets[n].address);
  }

  lemma UpgradedServes(st: State, req: Request)
    requires Known(st) && Succeeds(st, req)
    ensures Owned(Upgrade(st, req).table, st.deployed + 1) ==
            Gained(req.mode, Served(st.facets, st.table, req.name), Elems(req.abi))
  {
    UpgradeMoves(st, req);
    NewAddressUnused(st);
    var was, now := Served(st.facets, st.table, req.name), Elems(req.abi);
    MovedOwners(st.table, Upgrade(st, req).table, Lost(req.mode, was, now), Gained(req.mode, was, now),
                st.deployed + 1, st.deployed + 1);
  }

  /** The modes compared on one upgrade: REPLACE and FULL always keep the recorded lists exact; ADD_NEW keeps them
      exact exactly when it leaves no shared selector behind. */
  lemma AgreementByMode(st: State, req: Request)
    requires Known(st) && Agree(st.facets, st.table)
    ensures Agree(Upgrade(st, req).facets, Upgrade(st, req).table) <==>
            !(Succeeds(st, req) && req.mode.ADD_NEW? &&
              Elems(req.abi) * Served(st.facets, st.table, req.name) != {})
  {
    if Succeeds(st, req) {
      AgreementAfter(st, req);
      var was, now := Served(st.facets, st.table, req.name), Elems(req.abi);
      assert now == now - was <==> now * was == {};
    }
  }

  lemma AgreementAfter(st: State, req: Request)
    requires Known(st) && Agree(st.facets, st.table) && Succeeds(st, req)
    ensures Agree(Upgrade(st, req).facets, Upgrade(st, req).table) <==>
            Elems(req.abi) == Gained(req.mode, Served(st.facets, st.table, req.name), Elems(req.abi))
  {
    var fs', t' := Upgrade(st, req).facets, Upgrade(st, req).table;
    UpgradedServes(st, req);
    assert fs'[req.name] == Record(st.deployed + 1, req.abi);
    forall n | n in fs' && n != req.name ensures Elems(fs'[n].selectors) == Owned(t', fs'[n].address) {
      assert n in st.facets;
      OthersKept(st, req, n);
    }
  }

  /** What loses its manifest owner: nothing under FULL, the obsolete selectors under REPLACE, everything the old
      address served under ADD_NEW. */
  lemma OrphansByMode(st: State, req: Request)
    requires Known(st) && Succeeds(st, req)
    ensures var was, now := Served(st.facets, st.table, req.name), Elems(req.abi);
            Orphans(Upgrade(st, req).facets, Upgrade(st, req).table) ==
            Orphans(st.facets, st.table) +
            (match req.mode case FULL => {} case REPLACE => was - now case _ => was)
  {
    var was, now := Served(st.facets, st.table, req.name), Elems(req.abi);
    UpgradeMoves(st, req);
    NewAddressUnused(st);
    assert Orphans(st.facets, st.table) <= st.table.Keys;
    OrphansAfter(st.facets, st.table, Upgrade(st, req).table, req.name, Record(st.deployed + 1, req.abi),
                 Lost(req.mode, was, now), Gained(req.mode, was, now));
    OrphanSets(req.mode, Orphans(st.facets, st.table), was, now);
  }

  lemma OrphanSets(mode: Mode, orphans: set<Selector>, was: set<Selector>, now: set<Selector>)
    requires !mode.UNKNOWN? && orphans !! was && orphans !! now - was
    ensures (orphans + was) - Lost(mode, was, now) - Gained(mode, was, now) ==
            orphans + (match mode case FULL => {} case REPLACE => was - now case _ => was)
  {
    assert orphans !! now;
  }

  lemma OrphansAfter(fs: Facets, t: Table, t': Table, name: string, r: Record, lost: set<Selector>,
                     gained: set<Selector>)
    requires Separate(fs) && Moved(t, t', lost, gained, r.address)
    requires Owned(t, r.address) == {}
    ensures Orphans(fs[name := r], t') == (Orphans(fs, t) + Served(fs, t, name)) - lost - gained
    ensures Orphans(fs, t) !! Served(fs, t, name)
  {
    var fs' := fs[name := r];
    forall s ensures s in Orphans(fs', t') <==> s in (Orphans(fs, t) + Served(fs, t, name)) - lost - gained {
      if s in t && s !in lost && s !in gained {
        OrphanAfter(fs, t, name, r, s);
        assert s in t' && t'[s] == t[s];
        assert s in Orphans(fs', t') <==> s in Orphans(fs', t);
      } else if s in gained {
        assert t'[s] == fs'[name].address;
      }
    }
  }

  /** A route that stays is orphaned by a new record exactly when it was before or belonged to the replaced record. */
  lemma OrphanAfter(fs: Facets, t: Table, name: string, r: Record, s: Selector)
    requires Separate(fs) && Owned(t, r.address) == {} && s in t
    ensures s in Orphans(fs[name := r], t) <==> s in Orphans(fs, t) || s in Served(fs, t, name)
  {
    assert t[s] != r.address by { assert s !in Owned(t, r.address); }
    if s !in Orphans(fs, t) && s !in Served(fs, t, name) {
      var n :| n in fs && fs[n].address == t[s];
      assert fs[name := r][n].address == t[s];
    }
  }

  /** The manifest is an exact index of the chain: exact lists, one address per name, no selector unaccounted for. */
  ghost predicate Indexes(fs: Facets, t: Table) {
    Agree(fs, t) && Separate(fs) && Orphans(fs, t) == {}
  }

  /** Recording a newly deployed facet with exactly the free selectors it was given keeps the index exact. */
  lemma RecordNew(fs: Facets, t: Table, name: string, a: Address, add: seq<Selector>)
    requires Indexes(fs, t) && name !in fs && Elems(add) !! t.Keys
    requires Owned(t, a) == {} && forall n <- fs :: fs[n].address != a
    ensures Indexes(fs[name := Record(a, add)], Route(t, Elems(add), a))
  {
    var fs', t' := fs[name := Record(a, add)], Route(t, Elems(add), a);
    assert Moved(t, t', {}, Elems(add), a);
    OrphansAfter(fs, t, t', name, Record(a, add), {}, Elems(add));
    forall n | n in fs' ensures Elems(fs'[n].selectors) == Owned(t', fs'[n].address) {
      MovedOwners(t, t', {}, Elems(add), a, fs'[n].address);
      if n != name {
        assert Owned(t, fs[n].address) <= t.Keys;
      }
    }
  }

  // ---------------------------------------------------------------- whole runs

  ghost predicate Uses(reqs: seq<Request>, modes: set<Mode>) {
    forall r <- reqs :: r.mode in modes
  }

  /** Over any run in REPLACE and FULL mode, manifest and chain keep agreeing on every recorded facet. */
  lemma {:induction false} RunsAgree(st: State, reqs: seq<Request>)
    requires Known(st) && Agree(st.facets, st.table) && Uses(reqs, {REPLACE, FULL})
    ensures Known(Run(st, reqs)) && Agree(Run(st, reqs).facets, Run(st, reqs).table)
    decreases |reqs|
  {
    if reqs != [] {
      var last := reqs[|reqs| - 1];
      RunsAgree(st, reqs[..|reqs| - 1]);
      KnownKept(Run(st, reqs[..|reqs| - 1]), last);
      AgreementByMode(Run(st, reqs[..|reqs| - 1]), last);
      assert last in reqs;
    }
  }

  /** Over any run in FULL mode, in addition, every routed selector has a manifest owner. */
  lemma {:induction false} FullRunsOwnEverything(st: State, reqs: seq<Request>)
    requires Known(st) && Agree(st.facets, st.table) && Uses(reqs, {FULL})
    ensures Agree(Run(st, reqs).facets, Run(st, reqs).table)
    ensures Orphans(Run(st, reqs).facets, Run(st, reqs).table) == Orphans(st.facets, st.table)
    decreases |reqs|
  {
    RunsAgree(st, reqs);
    if reqs != [] {
      var st1, last := Run(st, reqs[..|reqs| - 1]), reqs[|reqs| - 1];
      assert last in reqs;
      RunsAgree(st, reqs[..|reqs| - 1]);
      FullRunsOwnEverything(st, reqs[..|reqs| - 1]);
      if Succeeds(st1, last) { OrphansByMode(st1, last); }
    }
  }

  /** What an upgrade leaves routed to an address the manifest forgets. */
  function Abandons(st: State, req: Request): set<Selector> {
    var was := Served(st.facets, st.table, req.name);
    if !Succeeds(st, req) || req.mode.FULL? then {}
    else if req.mode.REPLACE? then was - Elems(req.abi)
    else was
  }

  function AbandonedBy(st: State, reqs: seq<Request>): set<Selector> {
    if reqs == [] then {}
    else
      var p := reqs[..|reqs| - 1];
      AbandonedBy(st, p) + Abandons(Run(st, p), reqs[|reqs| - 1])
  }

  /** Over any run in any modes, the routed selectors without an owner in the manifest are those of the start and what
      each upgrade abandoned; none ever finds an owner again. */
  lemma {:induction false} OrphansOverRuns(st: State, reqs: seq<Request>)
    requires Known(st)
    ensures Known(Run(st, reqs))
    ensures Orphans(Run(st, reqs).facets, Run(st, reqs).table) == Orphans(st.facets, st.table) + AbandonedBy(st, reqs)
    decreases |reqs|
  {
    hide Known, Orphans, Upgrade, Succeeds, Served;
    if reqs == [] {
      NoneAbandoned(st);
    } else {
      var st1, last := Run(st, reqs[..|reqs| - 1]), reqs[|reqs| - 1];
      OrphansOverRuns(st, reqs[..|reqs| - 1]);
      KnownKept(st1, last);
      OrphansAfterOne(st1, last);
    }
  }

  lemma NoneAbandoned(st: State)
    ensures AbandonedBy(st, []) == {} && Run(st, []) == st
  {
  }

  lemma OrphansAfterOne(st: State, req: Request)
    requires Known(st)
    ensures Orphans(Upgrade(st, req).facets, Upgrade(st, req).table) == Orphans(st.facets, st.table) + Abandons(st, req)
  {
    if Succeeds(st, req) { OrphansByMode(st, req); }
  }

  /** What the history says was added less what was really removed: only FULL carries its removals out. */
  function Balance(history: seq<Entry>): int {
    if history == [] then 0
    else
      var e := history[|history| - 1];
      Balance(history[..|history| - 1]) + if e.Version? then 0 else e.added - (if e.mode.FULL? then e.removed else 0)
  }

  /** Conservation over any run in any modes: the routed selectors are accounted for by the history. */
  lemma {:induction false} HistoryAccounts(st: State, reqs: seq<Request>)
    requires Known(st)
    ensures Known(Run(st, reqs))
    ensures |Run(st, reqs).table| - Balance(Run(st, reqs).history) == |st.table| - Balance(st.history)
    decreases |reqs|
  {
    if reqs != [] {
      var st1, last := Run(st, reqs[..|reqs| - 1]), reqs[|reqs| - 1];
      HistoryAccounts(st, reqs[..|reqs| - 1]);
      KnownKept(st1, last);
      if Succeeds(st1, last) { StepAccounts(st1, last); }
    }
  }

  /** What the history says was added less what it says was removed. */
  function Claimed(history: seq<Entry>): int {
    if history == [] then 0
    else
      var e := history[|history| - 1];
      Claimed(history[..|history| - 1]) + if e.Version? then 0 else e.added - e.removed
  }

  /** What the history says was removed by upgrades that remove nothing. */
  function NeverRemoved(history: seq<Entry>): nat {
    if history == [] then 0
    else
      var e := history[|history| - 1];
      NeverRemoved(history[..|history| - 1]) + if e.Version? || e.mode.FULL? then 0 else e.removed
  }

  lemma {:induction false} ClaimsExceed(history: seq<Entry>)
    ensures Claimed(history) == Balance(history) - NeverRemoved(history)
    decreases |history|
  {
    if history != [] { ClaimsExceed(history[..|history| - 1]); }
  }

  /** Over any run, what the history says is what has become of the number of routed selectors if and only if no upgrade
      of the run outside FULL mode has been recorded as removing something. */
  lemma HistoryTellsTheTruth(st: State, reqs: seq<Request>)
    requires Known(st)
    ensures |Run(st, reqs).table| - |st.table| == Claimed(Run(st, reqs).history) - Claimed(st.history) <==>
            NeverRemoved(Run(st, reqs).history) == NeverRemoved(st.history)
  {
    hide Known;
    HistoryAccounts(st, reqs);
    ClaimsExceed(st.history);
    ClaimsExceed(Run(st, reqs).history);
  }

  lemma Counted(before: set<Selector>, after: set<Selector>, lost: set<Selector>, added: set<Selector>)
    requires lost <= before && added !! before && after == (before - lost) + added
    ensures |after| == |before| - |lost| + |added|
  {
  }

  lemma StepAccounts(st: State, req: Request)
    requires Known(st) && Succeeds(st, req)
    ensures |Upgrade(st, req).table| - Balance(Upgrade(st, req).history) == |st.table| - Balance(st.history)
  {
    hide Known;
    var st' := Upgrade(st, req);
    var was, now := Served(st.facets, st.table, req.name), Elems(req.abi);
    var lost := Lost(req.mode, was, now);
    UpgradeMoves(st, req);
    assert st'.table.Keys == (st.table.Keys - lost) + (now - was);
    Counted(st.table.Keys, st'.table.Keys, lost, now - was);
    assert st'.history[..|st'.history| - 1] == st.history;
  }
}
