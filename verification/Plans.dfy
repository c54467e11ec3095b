/**
 Upgrade plans: per facet, the selectors to replace, add and remove are computed from one snapshot of the
 diamond, and the resulting cuts of all facets are executed in order as one transaction.  The main result
 is the exact condition under which such a plan goes through, and the table it then leaves.
 */
module Plans {
  import opened Routing

  /** `l.filter(s => !set.has(s))`. */
  function Without(l: seq<Selector>, excluded: set<Selector>): (r: seq<Selector>)
    ensures forall s :: s in r <==> s in l && s !in excluded
    ensures NoDup(l) ==> NoDup(r)
  {
    if l == [] then []
    else
      NoDupCons(l);
      var r := Without(l[1..], excluded);
      if l[0] in excluded then r
      else
        assert ([l[0]] + r)[1..] == r;
        NoDupCons([l[0]] + r);
        [l[0]] + r
  }

  /** `l.filter(s => set.has(s))`. */
  function Within(l: seq<Selector>, included: set<Selector>): (r: seq<Selector>)
    ensures forall s :: s in r <==> s in l && s in included
    ensures NoDup(l) ==> NoDup(r)
  {
    Without(l, Elems(l) - included)
  }

  /** One facet of a plan: where its new code is, what its old address served, what its new code exposes. */
  datatype Item = Item(address: Address, oldSelectors: seq<Selector>, newSelectors: seq<Selector>) {
    function ToAdd(): seq<Selector> { Without(newSelectors, Elems(oldSelectors)) }
    function ToReplace(): seq<Selector> { Within(newSelectors, Elems(oldSelectors)) }
    function ToRemove(): seq<Selector> { Without(oldSelectors, Elems(newSelectors)) }
  }

  function CutIf(action: Action, facet: Address, sels: seq<Selector>): seq<FacetCut> {
    if |sels| > 0 then [FacetCut(facet, action, sels)] else []
  }

  function ItemCuts(it: Item): seq<FacetCut> {
    CutIf(Replace, it.address, it.ToReplace()) +
    CutIf(Add, it.address, it.ToAdd()) +
    CutIf(Remove, ZERO_ADDRESS, it.ToRemove())
  }

  function PlanCuts(items: seq<Item>): seq<FacetCut> {
    if items == [] then [] else PlanCuts(items[..|items| - 1]) + ItemCuts(items[|items| - 1])
  }

  // ---------------------------------------------------------------- one facet

  /** A freshly deployed contract: it has code, serves nothing yet, and is not the diamond. */
  ghost predicate Fresh(env: Env, t: Table, a: Address) {
    a != ZERO_ADDRESS && env.code(a) && a != env.self && a !in t.Values
  }

  /** What the scripts read from the chain for this facet is a duplicate-free list of routed selectors. */
  ghost predicate ItemReady(env: Env, t: Table, it: Item) {
    && Fresh(env, t, it.address)
    && NoDup(it.oldSelectors) && NoDup(it.newSelectors)
    && Elems(it.oldSelectors) <= t.Keys
  }

  function ItemTable(t: Table, it: Item): Table {
    Route(t - Elems(it.oldSelectors), Elems(it.newSelectors), it.address)
  }

  /** Skipping empty lists, the cut of one action is that action on the whole list. */
  lemma CutIfApplies(env: Env, t: Table, action: Action, facet: Address, sels: seq<Selector>)
    requires if action == Remove then facet == ZERO_ADDRESS else facet != ZERO_ADDRESS && env.code(facet)
    ensures ApplyCuts(env, t, CutIf(action, facet, sels)) == ApplySelectors(env, t, action, facet, sels)
  {
    if |sels| > 0 {
      var cuts := CutIf(action, facet, sels);
      assert cuts[0] == FacetCut(facet, action, sels) && cuts[1..] == [];
      match ApplyCut(env, t, cuts[0])
      case Revert(_) =>
      case Ok(t') => assert ApplyCuts(env, t', cuts[1..]) == Ok(t');
    }
  }

  lemma {:induction false} AddFailure(env: Env, t: Table, facet: Address, sels: seq<Selector>)
    requires ApplySelectors(env, t, Add, facet, sels).Revert?
    ensures ApplySelectors(env, t, Add, facet, sels) == Revert(FunctionExists)
    decreases |sels|
  {
    if sels[0] !in t {
      AddFailure(env, t[sels[0] := facet], facet, sels[1..]);
    }
  }

  lemma ReplaceStep(env: Env, t: Table, it: Item)
    requires ItemReady(env, t, it) && env.self !in t.Values
    ensures var t1 := Route(t, Elems(it.ToReplace()), it.address);
            ApplyCuts(env, t, CutIf(Replace, it.address, it.ToReplace())) == Ok(t1) && t1.Keys == t.Keys
  {
    CutIfApplies(env, t, Replace, it.address, it.ToReplace());
    ReplaceList(env, t, it.address, it.ToReplace());
    assert forall s <- it.ToReplace() :: s in Elems(it.oldSelectors);
  }

  lemma AddStep(env: Env, t: Table, facet: Address, add: seq<Selector>)
    requires NoDup(add) && facet != ZERO_ADDRESS && env.code(facet)
    ensures ApplyCuts(env, t, CutIf(Add, facet, add)) ==
            if Elems(add) !! t.Keys then Ok(Route(t, Elems(add), facet)) else Revert(FunctionExists)
  {
    CutIfApplies(env, t, Add, facet, add);
    AddList(env, t, facet, add);
    if !(Elems(add) !! t.Keys) { AddFailure(env, t, facet, add); }
  }

  lemma RemoveStep(env: Env, t: Table, rem: seq<Selector>)
    requires NoDup(rem) && Elems(rem) <= t.Keys && env.self !in t.Values
    ensures ApplyCuts(env, t, CutIf(Remove, ZERO_ADDRESS, rem)) == Ok(t - Elems(rem))
  {
    CutIfApplies(env, t, Remove, ZERO_ADDRESS, rem);
    RemoveList(env, t, ZERO_ADDRESS, rem);
    assert forall s <- rem :: s in Elems(rem);
  }

  lemma ItemTableSteps(t: Table, it: Item)
    ensures Route(Route(t, Elems(it.ToReplace()), it.address), Elems(it.ToAdd()), it.address) - Elems(it.ToRemove())
            == ItemTable(t, it)
  {
    var rep, add, rem := Elems(it.ToReplace()), Elems(it.ToAdd()), Elems(it.ToRemove());
    RouteInSteps(t, Elems(it.oldSelectors), Elems(it.newSelectors), rep, add, rem, it.address);
  }

  lemma RouteInSteps(t: Table, was: set<Selector>, now: set<Selector>,
                     rep: set<Selector>, add: set<Selector>, rem: set<Selector>, a: Address)
    requires now == rep + add && rem == was - now && rep == was * now
    ensures Route(Route(t, rep, a), add, a) - rem == Route(t - was, now, a)
  {
    var x, y := Route(Route(t, rep, a), add, a) - rem, Route(t - was, now, a);
    assert x.Keys == y.Keys by {
      assert x.Keys == t.Keys + rep + add - rem;
      assert y.Keys == (t.Keys - was) + now;
    }
  }

  /** The cuts of one facet go through exactly when nothing it adds is routed; only its additions can fail. */
  lemma ItemStep(env: Env, t: Table, it: Item)
    requires ItemReady(env, t, it) && env.self !in t.Values
    ensures ApplyCuts(env, t, ItemCuts(it)) ==
            if Elems(it.ToAdd()) !! t.Keys then Ok(ItemTable(t, it)) else Revert(FunctionExists)
  {
    var a := it.address;
    var c1, c2, c3 := CutIf(Replace, a, it.ToReplace()), CutIf(Add, a, it.ToAdd()),
      CutIf(Remove, ZERO_ADDRESS, it.ToRemove());
    ApplyConcat(env, t, c1 + c2, c3);
    ApplyConcat(env, t, c1, c2);
    ReplaceStep(env, t, it);
    var t1 := Route(t, Elems(it.ToReplace()), a);
    AddStep(env, t1, a, it.ToAdd());
    if Elems(it.ToAdd()) !! t.Keys {
      var t2 := Route(t1, Elems(it.ToAdd()), a);
      RouteValues(t, Elems(it.ToReplace()), a);
      RouteValues(t1, Elems(it.ToAdd()), a);
      RemoveStep(env, t2, it.ToRemove());
      ItemTableSteps(t, it);
    }
  }

  lemma RouteValues(t: Table, sels: set<Selector>, a: Address)
    ensures Route(t, sels, a).Values <= t.Values + {a}
  {
  }

  // ---------------------------------------------------------------- whole plans

  function AllOld(items: seq<Item>): set<Selector> {
    set it, s | it in items && s in it.oldSelectors :: s
  }

  function AllNew(items: seq<Item>): set<Selector> {
    set it, s | it in items && s in it.newSelectors :: s
  }

  /** What some facet of the plan stops serving. */
  function Dropped(items: seq<Item>): set<Selector> {
    set it, s | it in items && s in it.oldSelectors && s !in it.newSelectors :: s
  }

  /** Every facet is ready against the snapshot, the new addresses differ, and no selector has two old owners. */
  ghost predicate Ready(env: Env, t: Table, items: seq<Item>) {
    && env.self !in t.Values
    && (forall i :: 0 <= i < |items| ==>
      && ItemReady(env, t, items[i])
      && (forall x <- items[..i] :: x.address != items[i].address)
      && Elems(items[i].oldSelectors) !! AllOld(items[..i]))
  }

  /** The i-th new list meets none before it, and what it adds is unrouted or was dropped before it. */
  ghost predicate FitsAt(t: Table, items: seq<Item>, i: nat)
    requires i < |items|
  {
    && Elems(items[i].newSelectors) !! AllNew(items[..i])
    && Elems(items[i].ToAdd()) * t.Keys <= Dropped(items[..i])
  }

  ghost predicate Fits(t: Table, items: seq<Item>) {
    forall i :: 0 <= i < |items| ==> FitsAt(t, items, i)
  }

  /** The upgraded table, described without running the plan; it determines `t'` (see `UpgradedUnique`). */
  ghost predicate Upgraded(t: Table, items: seq<Item>, t': Table) {
    && t'.Keys == (t.Keys - AllOld(items)) + AllNew(items)
    && (forall it <- items, s <- it.newSelectors :: t'[s] == it.address)
    && (forall s <- t' :: s !in AllNew(items) ==> t'[s] == t[s])
  }

  lemma UpgradedUnique(t: Table, items: seq<Item>, items': seq<Item>, t1: Table, t2: Table)
    requires Elems(items) == Elems(items')
    requires Upgraded(t, items, t1) && Upgraded(t, items', t2)
    ensures t1 == t2
  {
    SameElements(items, items');
    forall s | s in t1 ensures t1[s] == t2[s] {
      if s in AllNew(items) {
        var it :| it in items && s in it.newSelectors;
        assert it in items';
      }
    }
  }

  lemma SameElements(items: seq<Item>, items': seq<Item>)
    requires Elems(items) == Elems(items')
    ensures forall it :: it in items <==> it in items'
    ensures AllNew(items) == AllNew(items') && AllOld(items) == AllOld(items') && Dropped(items) == Dropped(items')
  {
    assert forall it :: it in items <==> it in Elems(items);
    assert forall it :: it in items' <==> it in Elems(items');
  }

  /** The list as its prefix and its last facet, with what each of the set views gains. */
  lemma Snoc(items: seq<Item>)
    requires items != []
    ensures var p, it := items[..|items| - 1], items[|items| - 1];
            && items == p + [it] && it in items
            && AllOld(items) == AllOld(p) + Elems(it.oldSelectors)
            && AllNew(items) == AllNew(p) + Elems(it.newSelectors)
            && (forall x :: x in items <==> x in p || x == it)
            && forall i :: 0 <= i <= |p| ==> p[..i] == items[..i]
  {
    var p, it := items[..|items| - 1], items[|items| - 1];
    assert items == p + [it];
    assert forall x :: x in items <==> x in p || x == it;
  }

  /** What a fitting plan newly serves but was routed before, it took from facets of the plan. */
  lemma {:induction false} TakenWithinPlan(t: Table, items: seq<Item>)
    requires Fits(t, items)
    ensures AllNew(items) * t.Keys <= AllOld(items)
    decreases |items|
  {
    if items != [] {
      var p, it := items[..|items| - 1], items[|items| - 1];
      Snoc(items);
      FitsPrefix(t, items);
      TakenWithinPlan(t, p);
      assert FitsAt(t, items, |p|);
      assert Dropped(p) <= AllOld(p);
      assert Elems(it.newSelectors) <= Elems(it.oldSelectors) + Elems(it.ToAdd());
    }
  }

  lemma FitsPrefix(t: Table, items: seq<Item>)
    requires items != []
    ensures Fits(t, items) <==> Fits(t, items[..|items| - 1]) && FitsAt(t, items, |items| - 1)
  {
    var p := items[..|items| - 1];
    Snoc(items);
    forall i | 0 <= i < |p| ensures FitsAt(t, p, i) <==> FitsAt(t, items, i) {
      assert p[i] == items[i] && p[..i] == items[..i];
    }
  }

  lemma ReadyPrefix(env: Env, t: Table, items: seq<Item>)
    requires Ready(env, t, items) && items != []
    ensures Ready(env, t, items[..|items| - 1])
  {
    var p := items[..|items| - 1];
    Snoc(items);
    forall i | 0 <= i < |p|
      ensures ItemReady(env, t, p[i]) && (forall x <- p[..i] :: x.address != p[i].address)
      ensures Elems(p[i].oldSelectors) !! AllOld(p[..i])
    {
      assert p[i] == items[i] && p[..i] == items[..i];
    }
  }

  /** The last facet's additions are free exactly when the whole plan fits, given that its prefix does. */
  lemma FitsLast(env: Env, t: Table, items: seq<Item>, t1: Table)
    requires Ready(env, t, items) && items != [] && Fits(t, items[..|items| - 1])
    requires Upgraded(t, items[..|items| - 1], t1)
    ensures FitsAt(t, items, |items| - 1) <==> Elems(items[|items| - 1].ToAdd()) !! t1.Keys
    ensures Elems(items[|items| - 1].oldSelectors) !! AllNew(items[..|items| - 1])
  {
    var p, it := items[..|items| - 1], items[|items| - 1];
    TakenWithinPlan(t, p);
    assert Dropped(p) <= AllOld(p);
    assert AllOld(p) - AllNew(p) <= Dropped(p);
    assert Elems(it.newSelectors) == Elems(it.ToAdd()) + Elems(it.newSelectors) * Elems(it.oldSelectors);
  }

  lemma UpgradedSnoc(env: Env, t: Table, items: seq<Item>, t1: Table)
    requires Ready(env, t, items) && items != [] && Fits(t, items)
    requires Upgraded(t, items[..|items| - 1], t1)
    ensures Upgraded(t, items, ItemTable(t1, items[|items| - 1]))
  {
    hide Ready, Fits, Dropped, ItemTable, AllOld, AllNew;
    var p, it := items[..|items| - 1], items[|items| - 1];
    Snoc(items);
    FitsPrefix(t, items);
    FitsLast(env, t, items, t1);
    ItemTableRoutes(t1, it);
    KeysSnoc(t.Keys, AllOld(p), AllNew(p), Elems(it.oldSelectors), Elems(it.newSelectors));
    forall x, s | x in p && s in x.newSelectors ensures s in AllNew(p) && s !in it.newSelectors {
      Exposes(p, x, s);
    }
  }

  lemma ItemTableRoutes(t: Table, it: Item)
    ensures ItemTable(t, it).Keys == (t.Keys - Elems(it.oldSelectors)) + Elems(it.newSelectors)
    ensures forall s <- it.newSelectors :: s in ItemTable(t, it) && ItemTable(t, it)[s] == it.address
    ensures forall s <- ItemTable(t, it) :: s !in Elems(it.newSelectors) ==> s in t && ItemTable(t, it)[s] == t[s]
    ensures forall s <- t :: s !in Elems(it.oldSelectors) ==> s in ItemTable(t, it)
  {
  }

  lemma Exposes(items: seq<Item>, x: Item, s: Selector)
    requires x in items && s in x.newSelectors
    ensures s in AllNew(items)
  {
  }

  lemma KeysSnoc(routed: set<Selector>, old1: set<Selector>, new1: set<Selector>, old2: set<Selector>,
                 new2: set<Selector>)
    requires old2 !! new1
    ensures ((routed - old1) + new1 - old2) + new2 == (routed - (old1 + old2)) + (new1 + new2)
  {
  }

  lemma UpgradedKeepsReady(env: Env, t: Table, items: seq<Item>, t1: Table)
    requires Ready(env, t, items) && items != [] && Fits(t, items[..|items| - 1])
    requires Upgraded(t, items[..|items| - 1], t1)
    ensures ItemReady(env, t1, items[|items| - 1]) && env.self !in t1.Values
  {
    var p, it := items[..|items| - 1], items[|items| - 1];
    ReadyPrefix(env, t, items);
    FitsLast(env, t, items, t1);
    forall s | s in t1 ensures t1[s] != it.address && t1[s] != env.self {
      if s in AllNew(p) {
        var x :| x in p && s in x.newSelectors;
        assert t1[s] == x.address;
      }
    }
  }

  /** The exact outcome of a plan: it goes through precisely when it fits, and then leaves the upgraded table;
      otherwise an addition meets a routed selector and the whole transaction reverts. */
  lemma {:induction false} PlanOutcome(env: Env, t: Table, items: seq<Item>)
    requires Ready(env, t, items)
    ensures match ApplyCuts(env, t, PlanCuts(items))
            case Ok(t') => Fits(t, items) && Upgraded(t, items, t')
            case Revert(e) => !Fits(t, items) && e == FunctionExists
    decreases |items|
  {
    if items != [] {
      var p, it := items[..|items| - 1], items[|items| - 1];
      ReadyPrefix(env, t, items);
      PlanOutcome(env, t, p);
      ApplyConcat(env, t, PlanCuts(p), ItemCuts(it));
      FitsPrefix(t, items);
      match ApplyCuts(env, t, PlanCuts(p))
      case Revert(_) =>
      case Ok(t1) =>
        UpgradedKeepsReady(env, t, items, t1);
        ItemStep(env, t1, it);
        FitsLast(env, t, items, t1);
        if Fits(t, items) { UpgradedSnoc(env, t, items, t1); }
    }
  }

  /** After a plan, each new address serves exactly its new list. */
  lemma PlanOwners(env: Env, t: Table, items: seq<Item>, t': Table, it: Item)
    requires Ready(env, t, items) && Fits(t, items) && Upgraded(t, items, t') && it in items
    ensures Owned(t', it.address) == Elems(it.newSelectors)
  {
    var k :| 0 <= k < |items| && items[k] == it;
    forall s | s in t' && s !in it.newSelectors ensures t'[s] != it.address {
      if s in AllNew(items) {
        var x :| x in items && s in x.newSelectors;
        var j :| 0 <= j < |items| && items[j] == x;
        DistinctAddresses(env, t, items, j, k);
      }
    }
    forall s | s in it.newSelectors ensures s in Owned(t', it.address) {
      assert s in AllNew(items);
    }
  }

  lemma DistinctAddresses(env: Env, t: Table, items: seq<Item>, j: nat, k: nat)
    requires Ready(env, t, items) && j < |items| && k < |items| && j != k
    ensures items[j].address != items[k].address
  {
    var lo, hi := if j < k then j else k, if j < k then k else j;
    assert items[..hi][lo] in items[..hi];
  }

  // ---------------------------------------------------------------- what follows for callers

  /** No selector is exposed by two facets of the plan. */
  ghost predicate Disjoint(items: seq<Item>) {
    forall i :: 0 <= i < |items| ==> Elems(items[i].newSelectors) !! AllNew(items[..i])
  }

  /** When no new lists meet and nothing to be added is routed, the upgrade cannot fail, and it does what it is for. */
  lemma WholePlan(env: Env, t: Table, items: seq<Item>)
    requires Ready(env, t, items) && Disjoint(items)
    requires forall it <- items :: Elems(it.ToAdd()) !! t.Keys
    ensures var r := ApplyCuts(env, t, PlanCuts(items));
            && r.Ok?
            && (forall it <- items, s <- it.newSelectors :: s in r.value && r.value[s] == it.address)
            && (forall s <- AllOld(items) - AllNew(items) :: s !in r.value)
            && (forall s :: s !in AllOld(items) + AllNew(items) ==>
              (s in r.value <==> s in t) && (s in t ==> r.value[s] == t[s]))
            && |r.value| == |t| + Volume(PlanCuts(items), Add) - Volume(PlanCuts(items), Remove)
  {
    forall i | 0 <= i < |items| ensures FitsAt(t, items, i) {
      assert items[i] in items;
    }
    PlanOutcome(env, t, items);
    CutConservation(env, t, PlanCuts(items));
    assert forall it <- items, s <- it.newSelectors :: s in AllNew(items);
  }

  /** A selector that moves from facet `i` to facet `j` of one plan: fine when `i` comes first, fatal when `j` does. */
  lemma Migration(env: Env, t: Table, items: seq<Item>, i: nat, j: nat, s: Selector)
    requires Ready(env, t, items) && i < |items| && j < |items|
    requires s in items[i].oldSelectors && s !in items[i].newSelectors && s in items[j].newSelectors
    ensures var r := ApplyCuts(env, t, PlanCuts(items));
            && (j < i ==> r == Revert(FunctionExists))
            && (r.Ok? ==> i < j && s in r.value && r.value[s] == items[j].address)
  {
    PlanOutcome(env, t, items);
    assert s in t by { assert s in Elems(items[i].oldSelectors); }
    assert s in AllNew(items) by { assert items[j] in items; }
    if j < i {
      assert items[j] in items[..i];
      assert s !in AllOld(items[..i]) by { assert s in Elems(items[i].oldSelectors); }
      assert Dropped(items[..j]) <= AllOld(items[..i]);
      assert s in Elems(items[j].ToAdd());
      assert !FitsAt(t, items, j);
    }
  }

  /** No facet of the plan drops a selector that another one exposes. */
  ghost predicate NoMigration(items: seq<Item>) {
    Dropped(items) !! AllNew(items)
  }

  lemma FitsUnordered(env: Env, t: Table, items: seq<Item>, items': seq<Item>)
    requires Ready(env, t, items) && Ready(env, t, items') && Elems(items) == Elems(items')
    requires NoMigration(items) && Fits(t, items)
    ensures Fits(t, items')
  {
    SameElements(items, items');
    forall i | 0 <= i < |items'| ensures FitsAt(t, items', i) {
      var x := items'[i];
      assert x in items';
      forall y | y in items'[..i] ensures Elems(y.newSelectors) !! Elems(x.newSelectors) {
        assert y in items';
        var a :| 0 <= a < |items| && items[a] == x;
        var b :| 0 <= b < |items| && items[b] == y;
        assert a != b;
        FitsDisjoint(t, items, if a < b then a else b, if a < b then b else a);
      }
      var a :| 0 <= a < |items| && items[a] == x;
      assert FitsAt(t, items, a);
      assert Dropped(items[..a]) <= Dropped(items);
      assert Elems(x.ToAdd()) <= AllNew(items);
    }
  }

  lemma FitsDisjoint(t: Table, items: seq<Item>, a: nat, b: nat)
    requires Fits(t, items) && a < b < |items|
    ensures Elems(items[a].newSelectors) !! Elems(items[b].newSelectors)
  {
    assert FitsAt(t, items, b);
    assert items[..b][a] in items[..b];
    assert Elems(items[a].newSelectors) <= AllNew(items[..b]);
  }

  /** Without migration the order of the facets is immaterial: same outcome, same table. */
  lemma OrderIndependent(env: Env, t: Table, items: seq<Item>, items': seq<Item>)
    requires Ready(env, t, items) && Ready(env, t, items')
    requires Elems(items) == Elems(items') && NoMigration(items)
    ensures ApplyCuts(env, t, PlanCuts(items)) == ApplyCuts(env, t, PlanCuts(items'))
  {
    PlanOutcome(env, t, items);
    PlanOutcome(env, t, items');
    SameElements(items, items');
    if Fits(t, items) {
      FitsUnordered(env, t, items, items');
      UpgradedUnique(t, items, items', ApplyCuts(env, t, PlanCuts(items)).value,
                     ApplyCuts(env, t, PlanCuts(items')).value);
    } else if Fits(t, items') {
      FitsUnordered(env, t, items', items);
    }
  }
}
