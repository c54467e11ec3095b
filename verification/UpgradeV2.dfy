/**
 The v2 upgrade script: deploy everything, plan all facets against one snapshot, execute the plan as one
 transaction, record.
 */
module UpgradeV2Script {
  import opened Routing
  import opened DiamondStorage
  import opened Plans
  import opened Deploys
  import opened Upgrades
  import opened Chain

  /** What the script counts. */
  datatype Totals = Totals(add: nat, replace: nat, remove: nat)

  ghost predicate Counts(n: Totals, cuts: seq<FacetCut>) {
    n.add == Volume(cuts, Add) && n.replace == Volume(cuts, Replace) && n.remove == Volume(cuts, Remove)
  }

  /** `cuts.push` of one non-empty list, with its counter. */
  method Push(cuts: seq<FacetCut>, n: Totals, action: Action, facet: Address, sels: seq<Selector>)
      returns (cuts': seq<FacetCut>, n': Totals)
    requires Counts(n, cuts)
    ensures cuts' == cuts + CutIf(action, facet, sels) && Counts(n', cuts')
  {
    cuts', n' := cuts, n;
    var more := [FacetCut(facet, action, sels)];
    assert more[1..] == [];
    VolumeConcat(cuts, more, Add);
    VolumeConcat(cuts, more, Replace);
    VolumeConcat(cuts, more, Remove);
    if |sels| > 0 {
      cuts' := cuts + more;
      match action {
        case Add => n' := n.(add := n.add + |sels|);
        case Replace => n' := n.(replace := n.replace + |sels|);
        case Remove => n' := n.(remove := n.remove + |sels|);
      }
    }
  }

  lemma PlanSnoc(items: seq<Item>, it: Item)
    ensures PlanCuts(items + [it]) ==
            PlanCuts(items) + CutIf(Replace, it.address, it.ToReplace()) + CutIf(Add, it.address, it.ToAdd()) +
            CutIf(Remove, ZERO_ADDRESS, it.ToRemove())
  {
    assert (items + [it])[..|items|] == items;
  }

  lemma PlanSnocNew(items: seq<Item>, a: Address, sels: seq<Selector>)
    ensures PlanCuts(items + [Item(a, [], sels)]) == PlanCuts(items) + CutIf(Add, a, sels)
  {
    var it := Item(a, [], sels);
    PlanSnoc(items, it);
    WithoutNothing(sels);
    EmptyList(it.ToReplace());
  }

  lemma {:induction false} WithoutNothing(l: seq<Selector>)
    ensures Without(l, {}) == l
  {
    if l != [] { WithoutNothing(l[1..]); }
  }

  /** The plan item of an updated facet: its new interface against what the recorded address serves now. */
  ghost predicate UpdatedItem(it: Item, f: Facet, fs: Facets, t: Table) {
    && it.address == f.address && it.newSelectors == f.selectors
    && NoDup(it.oldSelectors) && Elems(it.oldSelectors) == Served(fs, t, f.name)
  }

  /** The plan item of a brand-new facet: those of its selectors that the snapshot does not route. */
  function NewItem(f: Facet, routed: set<Selector>): Item {
    Item(f.address, [], Without(f.selectors, routed))
  }

  /** Phase 3, first loop. */
  method PlanUpdated(d: Diamond, m: Manifest, updated: seq<Facet>)
      returns (cuts: seq<FacetCut>, n: Totals, ghost items: seq<Item>)
    requires d.Valid()
    ensures Covers(cuts, n, items) && |items| == |updated|
    ensures forall i :: 0 <= i < |updated| ==> UpdatedItem(items[i], updated[i], m.facets, d.Table())
  {
    cuts, n, items := [], Totals(0, 0, 0), [];
    for i := 0 to |updated|
      invariant Covers(cuts, n, items) && |items| == i
      invariant forall j :: 0 <= j < i ==> UpdatedItem(items[j], updated[j], m.facets, d.Table())
    {
      var it := DiffFacet(d, m, updated[i]);
      cuts, n := PushItem(cuts, n, it, items);
      items := items + [it];
    }
  }

  method PushItem(cuts: seq<FacetCut>, n: Totals, it: Item, ghost items: seq<Item>)
      returns (cuts': seq<FacetCut>, n': Totals)
    requires Covers(cuts, n, items)
    ensures Covers(cuts', n', items + [it])
  {
    PlanSnoc(items, it);
    cuts', n' := Push(cuts, n, Replace, it.address, it.ToReplace());
    cuts', n' := Push(cuts', n', Add, it.address, it.ToAdd());
    cuts', n' := Push(cuts', n', Remove, ZERO_ADDRESS, it.ToRemove());
  }

  method DiffFacet(d: Diamond, m: Manifest, f: Facet) returns (it: Item)
    requires d.Valid()
    ensures UpdatedItem(it, f, m.facets, d.Table())
  {
    var oldSelectors := [];
    if f.name in m.facets {
      oldSelectors := d.FacetFunctionSelectors(m.facets[f.name].address);
    }
    it := Item(f.address, oldSelectors, f.selectors);
  }

  /** The cuts so far are those of the plan, and the counters count them. */
  ghost predicate Covers(cuts: seq<FacetCut>, n: Totals, items: seq<Item>) {
    cuts == PlanCuts(items) && Counts(n, cuts)
  }

  /** A brand-new facet: skip what the chain already routes, add the rest. */
  method AddNewFacet(d: Diamond, cuts: seq<FacetCut>, n: Totals, f: Facet, ghost items: seq<Item>)
      returns (cuts': seq<FacetCut>, n': Totals)
    requires d.Valid() && Covers(cuts, n, items)
    ensures Covers(cuts', n', items + [NewItem(f, d.Table().Keys)])
  {
    var filtered := FilterNewSelectors(f.selectors, d);
    PlanSnocNew(items, f.address, filtered);
    cuts', n' := Push(cuts, n, Add, f.address, filtered);
  }

  /** Phase 3, second loop. */
  method PlanNew(d: Diamond, cuts0: seq<FacetCut>, n0: Totals, ghost items0: seq<Item>, added: seq<Facet>)
      returns (cuts: seq<FacetCut>, n: Totals, ghost items: seq<Item>)
    requires d.Valid() && Covers(cuts0, n0, items0)
    ensures Covers(cuts, n, items) && |items| == |items0| + |added|
    ensures forall i :: 0 <= i < |items0| ==> items[i] == items0[i]
    ensures forall i :: 0 <= i < |added| ==> items[|items0| + i] == NewItem(added[i], d.Table().Keys)
  {
    hide *;
    cuts, n, items := cuts0, n0, items0;
    ghost var routed := d.Table().Keys;
    for i := 0 to |added|
      invariant Covers(cuts, n, items) && |items| == |items0| + i
      invariant forall j :: 0 <= j < |items0| ==> items[j] == items0[j]
      invariant forall j :: 0 <= j < i ==> items[|items0| + j] == NewItem(added[j], routed)
    {
      cuts, n := AddNewFacet(d, cuts, n, added[i], items);
      items := items + [NewItem(added[i], routed)];
    }
  }

  /** Phase 1: deploy everything first. */
  method DeployContracts(net: Network, cs: seq<Contract>) returns (fs: seq<Facet>)
    modifies net
    ensures net.deployed == old(net.deployed) + |cs| && |fs| == |cs|
    ensures forall i :: 0 <= i < |cs| ==> fs[i] == Facet(cs[i].name, old(net.deployed) + i + 1, cs[i].abi)
  {
    fs := [];
    for i := 0 to |cs|
      invariant net.deployed == old(net.deployed) + i && |fs| == i
      invariant forall j :: 0 <= j < i ==> fs[j] == Facet(cs[j].name, old(net.deployed) + j + 1, cs[j].abi)
    {
      var a := net.DeployContract();
      fs := fs + [Facet(cs[i].name, a, cs[i].abi)];
    }
  }

  /** The manifest with every facet recorded under its name with its whole interface, filtered or not. */
  function Recorded(mf: Facets, fs: seq<Facet>): Facets {
    if fs == [] then mf
    else
      var f := fs[|fs| - 1];
      Recorded(mf, fs[..|fs| - 1])[f.name := Record(f.address, f.selectors)]
  }

  lemma {:induction false} RecordedUnder(mf: Facets, fs: seq<Facet>, name: string)
    requires forall i, j :: 0 <= i < j < |fs| ==> fs[i].name != fs[j].name
    ensures forall i :: 0 <= i < |fs| && fs[i].name == name ==>
              name in Recorded(mf, fs) && Recorded(mf, fs)[name] == Record(fs[i].address, fs[i].selectors)
    ensures (forall f <- fs :: f.name != name) ==>
              (name in Recorded(mf, fs) <==> name in mf) && (name in mf ==> Recorded(mf, fs)[name] == mf[name])
    decreases |fs|
  {
    if fs != [] {
      RecordedUnder(mf, fs[..|fs| - 1], name);
      assert fs[|fs| - 1] in fs;
    }
  }

  method RecordFacets(m: Manifest, fs: seq<Facet>)
    modifies m`facets
    ensures m.facets == Recorded(old(m.facets), fs)
  {
    assert fs[..0] == [];
    for i := 0 to |fs|
      invariant m.facets == Recorded(old(m.facets), fs[..i])
    {
      assert fs[..i + 1][..i] == fs[..i];
      m.RecordFacet(fs[i].name, fs[i].address, fs[i].selectors);
    }
    assert fs[..|fs|] == fs;
  }

  /** One line more, with the names of the updated facets and of the new ones in their order. */
  ghost predicate HistoryNames(before: seq<Entry>, after: seq<Entry>, fs: seq<Facet>, u: nat) {
    && u <= |fs| && |after| == |before| + 1 && after[..|before|] == before
    && var e := after[|before|];
       && e.Version? && |e.updatedFacets| == u && |e.newFacets| == |fs| - u
       && (forall i :: 0 <= i < u ==> e.updatedFacets[i] == fs[i].name)
       && (forall i :: u <= i < |fs| ==> e.newFacets[i - u] == fs[i].name)
  }

  function NamesOf(fs: seq<Facet>): seq<string> {
    seq(|fs|, i requires 0 <= i < |fs| => fs[i].name)
  }

  /** Phase 7: every facet, and a line in the history. */
  method RecordVersion(m: Manifest, fs: seq<Facet>, u: nat)
    requires u <= |fs|
    modifies m
    ensures m.facets == Recorded(old(m.facets), fs)
    ensures HistoryNames(old(m.upgrades), m.upgrades, fs, u)
  {
    RecordFacets(m, fs);
    m.upgrades := m.upgrades + [Version(NamesOf(fs[..u]), NamesOf(fs[u..]))];
  }

  /** What the planning loops produce: an item per facet, the first `u` of them for updated facets. */
  ghost predicate Planned(items: seq<Item>, fs: seq<Facet>, u: nat, mf: Facets, t: Table) {
    && |items| == |fs| && u <= |fs|
    && (forall i :: 0 <= i < u ==> UpdatedItem(items[i], fs[i], mf, t))
    && (forall i :: u <= i < |fs| ==> items[i] == NewItem(fs[i], t.Keys))
  }

  /** Facets deployed after everything in sight: addresses in a row, names all different. */
  ghost predicate InARow(fs: seq<Facet>, n: nat) {
    && (forall i :: 0 <= i < |fs| ==> fs[i].address == n + i + 1 && NoDup(fs[i].selectors))
    && (forall i, j :: 0 <= i < j < |fs| ==> fs[i].name != fs[j].name)
  }

  lemma PlannedReady(env: Env, t: Table, mf: Facets, n: nat, fs: seq<Facet>, items: seq<Item>, u: nat)
    requires env == EnvOf(env.self, n + |fs|) && 0 < env.self <= n && env.self !in t.Values
    requires HandedOut(t, mf, n) && Separate(mf) && InARow(fs, n) && Planned(items, fs, u, mf, t)
    ensures Ready(env, t, items)
  {
    forall i | 0 <= i < |items|
      ensures ItemReady(env, t, items[i]) && (forall x <- items[..i] :: x.address != items[i].address)
      ensures Elems(items[i].oldSelectors) !! AllOld(items[..i])
    {
      assert items[i].address == n + i + 1;
      forall x | x in items[..i] ensures x.address != items[i].address
        && Elems(x.oldSelectors) !! Elems(items[i].oldSelectors) {
        var j :| 0 <= j < i && items[j] == x;
        PlannedApart(t, mf, n, fs, items, u, j, i);
      }
    }
  }

  lemma PlannedApart(t: Table, mf: Facets, n: nat, fs: seq<Facet>, items: seq<Item>, u: nat, j: nat, i: nat)
    requires Separate(mf) && InARow(fs, n) && Planned(items, fs, u, mf, t) && j < i < |items|
    ensures items[j].address != items[i].address
    ensures Elems(items[j].oldSelectors) !! Elems(items[i].oldSelectors)
  {
    assert items[j].address == n + j + 1 && items[i].address == n + i + 1;
    if i < u {
      assert fs[j].name != fs[i].name;
      assert Served(mf, t, fs[j].name) !! Served(mf, t, fs[i].name);
    }
  }

  function NewSizes(items: seq<Item>): nat {
    if items == [] then 0 else NewSizes(items[..|items| - 1]) + |items[|items| - 1].newSelectors|
  }

  function OldSizes(items: seq<Item>): nat {
    if items == [] then 0 else OldSizes(items[..|items| - 1]) + |items[|items| - 1].oldSelectors|
  }

  /** Every selector planned for a new address was added or replaced, and every one that an old address served was
      replaced or removed. */
  ghost predicate TotalsBalance(n: Totals, items: seq<Item>) {
    n.add + n.replace == NewSizes(items) && n.replace + n.remove == OldSizes(items)
  }

  lemma TotalsAre(env: Env, t: Table, items: seq<Item>, cuts: seq<FacetCut>, n: Totals)
    requires Ready(env, t, items) && Covers(cuts, n, items)
    ensures TotalsBalance(n, items)
  {
    Volumes(items);
  }

  lemma {:induction false} Volumes(items: seq<Item>)
    requires forall it <- items :: NoDup(it.oldSelectors) && NoDup(it.newSelectors)
    ensures Volume(PlanCuts(items), Add) + Volume(PlanCuts(items), Replace) == NewSizes(items)
    ensures Volume(PlanCuts(items), Replace) + Volume(PlanCuts(items), Remove) == OldSizes(items)
    decreases |items|
  {
    if items != [] {
      var p, it := items[..|items| - 1], items[|items| - 1];
      assert it in items;
      Volumes(p);
      ItemVolumes(it);
      forall action: Action
        ensures Volume(PlanCuts(items), action) == Volume(PlanCuts(p), action) + Volume(ItemCuts(it), action)
      {
        VolumeConcat(PlanCuts(p), ItemCuts(it), action);
      }
    }
  }

  lemma CutIfVolume(action: Action, facet: Address, sels: seq<Selector>, other: Action)
    ensures Volume(CutIf(action, facet, sels), other) == if other == action then |sels| else 0
  {
    if |sels| > 0 { assert CutIf(action, facet, sels)[1..] == []; }
  }

  lemma ItemVolumes(it: Item)
    requires NoDup(it.oldSelectors) && NoDup(it.newSelectors)
    ensures Volume(ItemCuts(it), Add) + Volume(ItemCuts(it), Replace) == |it.newSelectors|
    ensures Volume(ItemCuts(it), Replace) + Volume(ItemCuts(it), Remove) == |it.oldSelectors|
  {
    hide Volume, CutIf, Without, Within, NoDup, Elems;
    VolumeOf(it, Add);
    VolumeOf(it, Replace);
    VolumeOf(it, Remove);
    ItemSizes(it);
  }

  lemma VolumeOf(it: Item, action: Action)
    ensures Volume(ItemCuts(it), action) ==
            match action
            case Add => |it.ToAdd()|
            case Replace => |it.ToReplace()|
            case Remove => |it.ToRemove()|
  {
    hide Volume, CutIf;
    var c1, c2 := CutIf(Replace, it.address, it.ToReplace()), CutIf(Add, it.address, it.ToAdd());
    var c3 := CutIf(Remove, ZERO_ADDRESS, it.ToRemove());
    VolumeConcat(c1 + c2, c3, action);
    VolumeConcat(c1, c2, action);
    CutIfVolume(Replace, it.address, it.ToReplace(), action);
    CutIfVolume(Add, it.address, it.ToAdd(), action);
    CutIfVolume(Remove, ZERO_ADDRESS, it.ToRemove(), action);
  }

  lemma ItemSizes(it: Item)
    requires NoDup(it.oldSelectors) && NoDup(it.newSelectors)
    ensures |it.ToAdd()| + |it.ToReplace()| == |it.newSelectors|
    ensures |it.ToReplace()| + |it.ToRemove()| == |it.oldSelectors|
  {
    var was, now := Elems(it.oldSelectors), Elems(it.newSelectors);
    NoDupCardinality(it.oldSelectors);
    NoDupCardinality(it.newSelectors);
    NoDupCardinality(it.ToAdd());
    NoDupCardinality(it.ToReplace());
    NoDupCardinality(it.ToRemove());
    assert Elems(it.ToAdd()) == now - was && Elems(it.ToReplace()) == now * was && Elems(it.ToRemove()) == was - now;
    TwoParts(now, was);
    TwoParts(was, now);
    assert now * was == was * now;
  }

  lemma TwoParts(a: set<Selector>, b: set<Selector>)
    ensures |a - b| + |a * b| == |a|
  {
    assert a == (a - b) + a * b;
  }

  /** Phases 3 and 7 over the deployed facets. */
  method CutAndRecord(d: Diamond, m: Manifest, net: Network, fs: seq<Facet>, u: nat, ghost n: nat)
      returns (r: Result<Totals>, ghost items: seq<Item>)
    requires Live(d, net) && u <= |fs| && d.self <= n && net.deployed == n + |fs|
    requires HandedOut(d.Table(), m.facets, n) && Separate(m.facets) && InARow(fs, n)
    modifies d, m
    ensures d.Valid()
    ensures Planned(items, fs, u, old(m.facets), old(d.Table()))
    ensures Ready(EnvOf(d.self, net.deployed), old(d.Table()), items)
    ensures r.Ok? <==> Fits(old(d.Table()), items)
    ensures r.Ok? ==> Plans.Upgraded(old(d.Table()), items, d.Table())
    ensures r.Ok? ==> |d.Table()| == |old(d.Table())| + r.value.add - r.value.remove
    ensures r.Ok? ==> m.facets == Recorded(old(m.facets), fs)
    ensures r.Ok? ==> HistoryNames(old(m.upgrades), m.upgrades, fs, u)
    ensures r.Ok? ==> TotalsBalance(r.value, items)
    ensures r.Revert? ==> unchanged(d) && unchanged(m)
  {
    hide *;
    LiveMeans(d, net);
    EnvSelf(d.self, net.deployed);
    var cuts, totals;
    cuts, totals, items := PlanAll(d, m, fs, u);
    ghost var env := EnvOf(d.self, net.deployed);
    PlannedReady(env, d.Table(), m.facets, n, fs, items, u);
    TotalsAre(env, d.Table(), items, cuts, totals);
    var done := Execute(d, net, cuts);
    PlanResult(env, old(d.Table()), items, totals, done, d.Table());
    if done.Revert? { return Revert(done.reason), items; }
    RecordVersion(m, fs, u);
    r := Ok(totals);
  }

  method PlanAll(d: Diamond, m: Manifest, fs: seq<Facet>, u: nat)
      returns (cuts: seq<FacetCut>, n: Totals, ghost items: seq<Item>)
    requires d.Valid() && u <= |fs|
    ensures Covers(cuts, n, items) && Planned(items, fs, u, m.facets, d.Table())
  {
    ghost var head;
    cuts, n, head := PlanUpdated(d, m, fs[..u]);
    cuts, n, items := PlanNew(d, cuts, n, head, fs[u..]);
    PlannedParts(items, head, fs, u, m.facets, d.Table());
  }

  lemma PlannedParts(items: seq<Item>, head: seq<Item>, fs: seq<Facet>, u: nat, mf: Facets, t: Table)
    requires u <= |fs| && |head| == u && |items| == |fs|
    requires forall i :: 0 <= i < u ==> UpdatedItem(head[i], fs[..u][i], mf, t)
    requires forall i :: 0 <= i < u ==> items[i] == head[i]
    requires forall i :: 0 <= i < |fs| - u ==> items[u + i] == NewItem(fs[u..][i], t.Keys)
    ensures Planned(items, fs, u, mf, t)
  {
    forall i | u <= i < |fs| ensures items[i] == NewItem(fs[i], t.Keys) {
      assert items[u + (i - u)] == items[i] && fs[u..][i - u] == fs[i];
    }
  }

  lemma PlanResult(env: Env, t: Table, items: seq<Item>, n: Totals, r: Result<()>, t': Table)
    requires Ready(env, t, items) && Counts(n, PlanCuts(items))
    requires ApplyCuts(env, t, PlanCuts(items)) == if r.Ok? then Ok(t') else Revert(r.reason)
    ensures r.Ok? <==> Fits(t, items)
    ensures r.Ok? ==> Plans.Upgraded(t, items, t') && |t'| == |t| + n.add - n.remove
  {
    PlanOutcome(env, t, items);
    if r.Ok? { CutConservation(env, t, PlanCuts(items)); }
  }

  /** After a successful upgrade a facet's record is exact, except that a brand-new facet is recorded with its whole
      interface although the selectors the chain already routed were skipped. */
  lemma RecordedExactly(env: Env, t: Table, mf: Facets, fs: seq<Facet>, items: seq<Item>, u: nat, t': Table, i: nat)
    requires Planned(items, fs, u, mf, t) && i < |fs|
    requires Ready(env, t, items) && Fits(t, items) && Plans.Upgraded(t, items, t')
    ensures Elems(fs[i].selectors) == Owned(t', fs[i].address) <==> (i < u || Elems(fs[i].selectors) !! t.Keys)
  {
    assert items[i] in items;
    PlanOwners(env, t, items, t', items[i]);
    if u <= i {
      assert items[i] == NewItem(fs[i], t.Keys);
      assert Elems(items[i].newSelectors) == Elems(fs[i].selectors) - t.Keys;
    }
  }

  /** A selector that an updated facet drops and a brand-new facet exposes never reaches the new facet: it was still
      routed when the new facet's list was filtered.  It ends unrouted unless another updated facet exposes it, and the
      new facet is on record with it all the same. */
  lemma DroppedNeverReachesNew(env: Env, t: Table, mf: Facets, fs: seq<Facet>, items: seq<Item>, u: nat, t': Table,
                               i: nat, j: nat, s: Selector)
    requires Planned(items, fs, u, mf, t) && i < u <= j < |fs|
    requires Ready(env, t, items) && Fits(t, items) && Plans.Upgraded(t, items, t')
    requires s in items[i].oldSelectors && s !in items[i].newSelectors && s in fs[j].selectors
    ensures s !in Owned(t', fs[j].address)
    ensures s !in t' <==> forall k :: 0 <= k < u ==> s !in fs[k].selectors
    ensures Elems(fs[j].selectors) != Owned(t', fs[j].address)
  {
    assert s in t by { assert s in Elems(items[i].oldSelectors); }
    assert items[j] in items && items[j] == NewItem(fs[j], t.Keys);
    PlanOwners(env, t, items, t', items[j]);
    assert s in AllOld(items) by { assert items[i] in items; }
    if k :| 0 <= k < u && s in fs[k].selectors {
      assert items[k] in items && s in items[k].newSelectors;
    } else {
      forall it | it in items ensures s !in it.newSelectors {
        var k :| 0 <= k < |items| && items[k] == it;
        if k >= u { assert it == NewItem(fs[k], t.Keys); }
      }
    }
  }

  /** No brand-new facet exposes a selector that was routed before. */
  ghost predicate NoneSkipped(t: Table, fs: seq<Facet>, u: nat) {
    forall j :: u <= j < |fs| ==> Elems(fs[j].selectors) !! t.Keys
  }

  /** The v2 upgrade and the whole manifest: from an agreeing one it keeps every record exact, those outside the plan
      included, exactly when no new facet had a selector skipped; what becomes ownerless is exactly what earlier
      contracts of supposedly new facets still serve. */
  lemma UpgradeKeepsAgreement(env: Env, t: Table, mf: Facets, n: nat, fs: seq<Facet>, items: seq<Item>, u: nat,
                              t': Table)
    requires Agree(mf, t) && Separate(mf) && HandedOut(t, mf, n) && InARow(fs, n) && Planned(items, fs, u, mf, t)
    requires Ready(env, t, items) && Fits(t, items) && Plans.Upgraded(t, items, t')
    ensures Agree(Recorded(mf, fs), t') <==> NoneSkipped(t, fs, u)
    ensures Orphans(Recorded(mf, fs), t') == Orphans(mf, t) + Displaced(mf, fs, u, t')
  {
    var mf' := Recorded(mf, fs);
    forall i | 0 <= i < |fs|
      ensures fs[i].name in mf' && mf'[fs[i].name] == Record(fs[i].address, fs[i].selectors)
      ensures Elems(fs[i].selectors) == Owned(t', fs[i].address) <==> (i < u || Elems(fs[i].selectors) !! t.Keys)
    {
      RecordedUnder(mf, fs, fs[i].name);
      RecordedExactly(env, t, mf, fs, items, u, t', i);
    }
    forall k | k in mf' && forall f <- fs :: f.name != k
      ensures k in mf && Elems(mf'[k].selectors) == Owned(t', mf'[k].address)
    {
      RecordedUnder(mf, fs, k);
      OutsideKept(env, t, mf, n, fs, items, u, t', k);
    }
    OrphansAfterUpgrade(env, t, mf, n, fs, items, u, t');
  }

  /** A facet outside the plan keeps what it serves. */
  lemma OutsideKept(env: Env, t: Table, mf: Facets, n: nat, fs: seq<Facet>, items: seq<Item>, u: nat, t': Table,
                    k: string)
    requires Separate(mf) && HandedOut(t, mf, n) && InARow(fs, n) && Planned(items, fs, u, mf, t)
    requires Ready(env, t, items) && Fits(t, items) && Plans.Upgraded(t, items, t')
    requires k in mf && forall f <- fs :: f.name != k
    ensures Owned(t', mf[k].address) == Owned(t, mf[k].address)
  {
    var a := mf[k].address;
    TakenWithinPlan(t, items);
    forall s | s in AllOld(items) ensures s !in Owned(t, a) {
      OldOwner(t, mf, fs, items, u, s, k);
    }
    forall s | s in AllNew(items) ensures t'[s] != a {
      var it :| it in items && s in it.newSelectors;
      var i :| 0 <= i < |items| && items[i] == it;
      NewAddress(mf, t, n, fs, items, u, i);
    }
  }

  lemma OnlyUpdatedHadAny(items: seq<Item>, fs: seq<Facet>, u: nat, mf: Facets, t: Table, i: nat)
    requires Planned(items, fs, u, mf, t) && i < |items|
    ensures items[i].oldSelectors != [] ==> i < u && UpdatedItem(items[i], fs[i], mf, t)
  {
  }

  /** What the plan takes over was served by a facet recorded under one of its names. */
  lemma OldOwner(t: Table, mf: Facets, fs: seq<Facet>, items: seq<Item>, u: nat, s: Selector, k: string)
    requires Planned(items, fs, u, mf, t) && s in AllOld(items)
    requires Separate(mf)
    ensures s in t && exists i :: 0 <= i < u && fs[i].name in mf && t[s] == mf[fs[i].name].address
    ensures k in mf && (forall f <- fs :: f.name != k) ==> t[s] != mf[k].address
  {
    var it :| it in items && s in it.oldSelectors;
    var i :| 0 <= i < |items| && items[i] == it;
    OnlyUpdatedHadAny(items, fs, u, mf, t, i);
    assert s in Served(mf, t, fs[i].name) by { assert s in Elems(it.oldSelectors); }
    assert fs[i] in fs;
  }

  lemma NewAddress(mf: Facets, t: Table, n: nat, fs: seq<Facet>, items: seq<Item>, u: nat, i: nat)
    requires HandedOut(t, mf, n) && InARow(fs, n) && Planned(items, fs, u, mf, t) && i < |items|
    ensures items[i].address == fs[i].address == n + i + 1
    ensures forall k <- mf :: mf[k].address != items[i].address
    ensures forall s <- t :: t[s] != items[i].address
  {
  }

  /** What is still served by an earlier contract of a facet that the plan takes for brand-new. */
  ghost function Displaced(mf: Facets, fs: seq<Facet>, u: nat, t': Table): set<Selector> {
    set s | s in t' && exists j :: u <= j < |fs| && fs[j].name in mf && t'[s] == mf[fs[j].name].address
  }

  lemma OrphansAfterUpgrade(env: Env, t: Table, mf: Facets, n: nat, fs: seq<Facet>, items: seq<Item>, u: nat, t': Table)
    requires Separate(mf) && HandedOut(t, mf, n) && InARow(fs, n) && Planned(items, fs, u, mf, t)
    requires Ready(env, t, items) && Fits(t, items) && Plans.Upgraded(t, items, t')
    ensures Orphans(Recorded(mf, fs), t') == Orphans(mf, t) + Displaced(mf, fs, u, t')
  {
    forall s | s in t'
      ensures s in Orphans(Recorded(mf, fs), t') <==> s in Orphans(mf, t) + Displaced(mf, fs, u, t')
    {
      OrphanAfterUpgrade(env, t, mf, n, fs, items, u, t', s);
    }
    forall s | s in Orphans(mf, t) ensures s in t' {
      NotOld(t, mf, fs, items, u, s);
    }
  }

  lemma NotOld(t: Table, mf: Facets, fs: seq<Facet>, items: seq<Item>, u: nat, s: Selector)
    requires Separate(mf) && Planned(items, fs, u, mf, t) && s in Orphans(mf, t)
    ensures s !in AllOld(items)
  {
    if s in AllOld(items) {
      OldOwner(t, mf, fs, items, u, s, "");
    }
  }

  lemma OrphanAfterUpgrade(env: Env, t: Table, mf: Facets, n: nat, fs: seq<Facet>, items: seq<Item>, u: nat, t': Table,
                           s: Selector)
    requires Separate(mf) && HandedOut(t, mf, n) && InARow(fs, n) && Planned(items, fs, u, mf, t)
    requires Ready(env, t, items) && Fits(t, items) && Plans.Upgraded(t, items, t') && s in t'
    ensures s in Orphans(Recorded(mf, fs), t') <==> s in Orphans(mf, t) + Displaced(mf, fs, u, t')
  {
    hide Ready, Fits, Orphans;
    TakenWithinPlan(t, items);
    if s in AllNew(items) {
      NewOwned(t, mf, n, fs, items, u, t', s);
      TakenHadOwner(t, mf, fs, items, u, s);
    } else {
      KeptOwner(t, mf, n, fs, items, u, t', s);
    }
  }

  /** What the plan routes is recorded, and no longer with an address handed out before. */
  lemma NewOwned(t: Table, mf: Facets, n: nat, fs: seq<Facet>, items: seq<Item>, u: nat, t': Table, s: Selector)
    requires HandedOut(t, mf, n) && InARow(fs, n) && Planned(items, fs, u, mf, t) && Plans.Upgraded(t, items, t')
    requires s in AllNew(items)
    ensures s in t' && s !in Orphans(Recorded(mf, fs), t') && s !in Displaced(mf, fs, u, t')
  {
    var it :| it in items && s in it.newSelectors;
    var i :| 0 <= i < |items| && items[i] == it;
    RecordedUnder(mf, fs, fs[i].name);
    NewAddress(mf, t, n, fs, items, u, i);
  }

  lemma TakenHadOwner(t: Table, mf: Facets, fs: seq<Facet>, items: seq<Item>, u: nat, s: Selector)
    requires Separate(mf) && Planned(items, fs, u, mf, t) && AllNew(items) * t.Keys <= AllOld(items)
             && s in AllNew(items)
    ensures s !in Orphans(mf, t)
  {
    if s in t { NotOldOf(t, mf, fs, items, u, s); }
  }

  lemma NotOldOf(t: Table, mf: Facets, fs: seq<Facet>, items: seq<Item>, u: nat, s: Selector)
    requires Separate(mf) && Planned(items, fs, u, mf, t) && s in AllOld(items)
    ensures s !in Orphans(mf, t)
  {
    OldOwner(t, mf, fs, items, u, s, "");
  }

  /** What the plan leaves alone is ownerless afterwards if it was before, or if its owner's record has been
      displaced. */
  lemma KeptOwner(t: Table, mf: Facets, n: nat, fs: seq<Facet>, items: seq<Item>, u: nat, t': Table, s: Selector)
    requires Separate(mf) && HandedOut(t, mf, n) && InARow(fs, n) && Planned(items, fs, u, mf, t)
    requires Plans.Upgraded(t, items, t') && s in t' && s !in AllNew(items)
    ensures s in Orphans(Recorded(mf, fs), t') <==> s in Orphans(mf, t) + Displaced(mf, fs, u, t')
  {
    var mf' := Recorded(mf, fs);
    assert s in t && t'[s] == t[s] <= n;
    forall i | 0 <= i < |fs|
      ensures fs[i].name in mf' && mf'[fs[i].name].address > n
      ensures i < u && fs[i].name in mf ==> t[s] != mf[fs[i].name].address
    {
      RecordedUnder(mf, fs, fs[i].name);
      if i < u && fs[i].name in mf { UpdatedServes(t, mf, fs, items, u, i, s); }
    }
    forall k | k in mf || k in mf'
      ensures (forall f <- fs :: f.name != k) ==> k in mf && k in mf' && mf'[k] == mf[k]
      ensures (exists i :: 0 <= i < |fs| && fs[i].name == k) || (forall f <- fs :: f.name != k)
    {
      RecordedUnder(mf, fs, k);
      if f :| f in fs && f.name == k { var i :| 0 <= i < |fs| && fs[i] == f; }
    }
    OwnersOf(mf, mf', fs, u, t, t', n, s);
  }

  /** The owners of one selector in the two manifests, given that they differ in the plan's names only. */
  lemma OwnersOf(mf: Facets, mf': Facets, fs: seq<Facet>, u: nat, t: Table, t': Table, n: nat, s: Selector)
    requires Separate(mf) && s in t && s in t' && t'[s] == t[s] <= n
    requires forall i :: 0 <= i < |fs| ==> fs[i].name in mf' && mf'[fs[i].name].address > n
    requires forall i :: 0 <= i < |fs| && i < u && fs[i].name in mf ==> t[s] != mf[fs[i].name].address
    requires forall k | k in mf || k in mf' ::
               || (k in mf && k in mf' && mf'[k] == mf[k] && forall f <- fs :: f.name != k)
               || (exists i :: 0 <= i < |fs| && fs[i].name == k)
    ensures s in Orphans(mf', t') <==> s in Orphans(mf, t) + Displaced(mf, fs, u, t')
  {
    if s in Orphans(mf', t') && s !in Orphans(mf, t) {
      var k :| k in mf && mf[k].address == t[s];
      var i :| 0 <= i < |fs| && fs[i].name == k;
      assert s in Displaced(mf, fs, u, t');
    }
    if s in Orphans(mf, t) + Displaced(mf, fs, u, t') {
      forall k | k in mf' ensures mf'[k].address != t'[s] {
        if i :| 0 <= i < |fs| && fs[i].name == k {
        } else if s in Displaced(mf, fs, u, t') {
          var j :| u <= j < |fs| && fs[j].name in mf && t'[s] == mf[fs[j].name].address;
          assert fs[j] in fs;
        }
      }
    }
  }

  /** What a facet to be updated serves is part of the plan. */
  lemma UpdatedServes(t: Table, mf: Facets, fs: seq<Facet>, items: seq<Item>, u: nat, i: nat, s: Selector)
    requires Planned(items, fs, u, mf, t) && i < u && fs[i].name in mf && s in t
    ensures t[s] == mf[fs[i].name].address ==> s in AllOld(items)
  {
    assert items[i] in items && UpdatedItem(items[i], fs[i], mf, t);
    assert s in items[i].oldSelectors <==> s in Elems(items[i].oldSelectors);
  }

  /** The whole v2 upgrade: it goes through exactly when the plan fits the chain as it was, and then leaves the
      upgraded table, a count that balances and a manifest that is exact up to skipped selectors of new facets. */
  method RobustnessUpgrade(d: Diamond, m: Manifest, net: Network, updated: seq<Contract>, added: seq<Contract>)
      returns (r: Result<Totals>, fs: seq<Facet>, ghost items: seq<Item>)
    requires Live(d, net) && HandedOut(d.Table(), m.facets, net.deployed) && Separate(m.facets)
    requires DistinctNames(updated + added) && forall c <- updated + added :: NoDup(c.abi)
    modifies d, m, net
    ensures d.Valid() && |fs| == |updated| + |added|
    ensures forall i :: 0 <= i < |fs| ==>
              var c := (updated + added)[i]; fs[i] == Facet(c.name, old(net.deployed) + i + 1, c.abi)
    ensures Planned(items, fs, |updated|, old(m.facets), old(d.Table()))
    ensures Ready(EnvOf(d.self, net.deployed), old(d.Table()), items)
    ensures r.Ok? <==> Fits(old(d.Table()), items)
    ensures r.Ok? ==> Plans.Upgraded(old(d.Table()), items, d.Table())
    ensures r.Ok? ==> |d.Table()| == |old(d.Table())| + r.value.add - r.value.remove
    ensures r.Ok? ==> m.facets == Recorded(old(m.facets), fs)
    ensures r.Ok? ==> HistoryNames(old(m.upgrades), m.upgrades, fs, |updated|) && TotalsBalance(r.value, items)
    ensures r.Revert? ==> unchanged(d) && unchanged(m)
  {
    ghost var n := net.deployed;
    fs := DeployContracts(net, updated + added);
    forall i | 0 <= i < |fs| ensures NoDup(fs[i].selectors) {
      assert (updated + added)[i] in updated + added;
    }
    r, items := CutAndRecord(d, m, net, fs, |updated|, n);
  }
}
