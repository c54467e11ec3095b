/**
 LibDiamond's storage: the selector map with positions, one selector array per facet, and the array of
 facet addresses, all edited in place with swap-and-pop.  `Table()` is the routing table this layout
 stands for; every mutator is proved against the operations of Routing.dfy, including what reverts.
 */
module DiamondStorage {
  import opened Routing

  datatype FacetAddressAndPosition = FacetAddressAndPosition(facetAddress: Address, functionSelectorPosition: nat)

  datatype FacetFunctionSelectors = FacetFunctionSelectors(functionSelectors: seq<Selector>, facetAddressPosition: nat)

  type SelectorMap = map<Selector, FacetAddressAndPosition>

  type FacetMap = map<Address, FacetFunctionSelectors>

  // Mappings, read with Solidity's default values.

  function FacetOf(m: SelectorMap, s: Selector): FacetAddressAndPosition {
    if s in m then m[s] else FacetAddressAndPosition(ZERO_ADDRESS, 0)
  }

  function Facet(f: FacetMap, a: Address): FacetFunctionSelectors {
    if a in f then f[a] else FacetFunctionSelectors([], 0)
  }

  function Selectors(f: FacetMap, a: Address): seq<Selector> {
    Facet(f, a).functionSelectors
  }

  // ---------------------------------------------------------------- the invariant, one structure at a time

  /** Every routed selector sits where its entry says. */
  ghost predicate SelectorsPlaced(m: SelectorMap, f: FacetMap) {
    forall s <- m ::
      && m[s].facetAddress != ZERO_ADDRESS
      && m[s].functionSelectorPosition < |Selectors(f, m[s].facetAddress)|
      && Selectors(f, m[s].facetAddress)[m[s].functionSelectorPosition] == s
  }

  /** Every array slot holds a selector whose entry points back at the slot. */
  ghost predicate ArraysPlaced(m: SelectorMap, f: FacetMap) {
    forall a, i {:trigger Selectors(f, a)[i]} :: 0 <= i < |Selectors(f, a)| ==>
      && Selectors(f, a)[i] in m
      && m[Selectors(f, a)[i]] == FacetAddressAndPosition(a, i)
  }

  ghost predicate Listed(f: FacetMap, l: seq<Address>, a: Address) {
    && Facet(f, a).facetAddressPosition < |l|
    && l[Facet(f, a).facetAddressPosition] == a
  }

  /** The address array lists exactly the facets that have selectors, and `pending` besides. */
  ghost predicate FacetsPlaced(f: FacetMap, l: seq<Address>, pending: set<Address>) {
    && (forall i :: 0 <= i < |l| ==>
      && l[i] != ZERO_ADDRESS
      && Facet(f, l[i]).facetAddressPosition == i
      && (Selectors(f, l[i]) != [] || l[i] in pending))
    && (forall a {:trigger Listed(f, l, a)} {:trigger Selectors(f, a)} ::
      Selectors(f, a) != [] || a in pending ==> Listed(f, l, a))
  }

  ghost predicate Consistent(m: SelectorMap, f: FacetMap, l: seq<Address>, pending: set<Address>) {
    SelectorsPlaced(m, f) && ArraysPlaced(m, f) && FacetsPlaced(f, l, pending)
  }

  /** The routing table a selector map stands for. */
  ghost function TableOf(m: SelectorMap): Table {
    map s | s in m :: m[s].facetAddress
  }

  lemma SelectorsAreDistinct(m: SelectorMap, f: FacetMap, a: Address)
    requires ArraysPlaced(m, f)
    ensures NoDup(Selectors(f, a))
  {
    var l := Selectors(f, a);
    forall i, j | 0 <= i < j < |l| ensures l[i] != l[j] {
      assert m[Selectors(f, a)[i]].functionSelectorPosition == i;
      assert m[Selectors(f, a)[j]].functionSelectorPosition == j;
    }
  }

  /** The array of a facet holds exactly the selectors routed to it. */
  lemma SelectorsAreRouted(m: SelectorMap, f: FacetMap, a: Address)
    requires SelectorsPlaced(m, f) && ArraysPlaced(m, f)
    ensures Elems(Selectors(f, a)) == Owned(TableOf(m), a)
    ensures Selectors(f, a) != [] <==> a in TableOf(m).Values
  {
    forall s | s in Selectors(f, a) ensures s in m && m[s].facetAddress == a {
      var i :| 0 <= i < |Selectors(f, a)| && Selectors(f, a)[i] == s;
    }
    forall s | s in TableOf(m) && TableOf(m)[s] == a ensures s in Selectors(f, a) {
      assert Selectors(f, a)[m[s].functionSelectorPosition] == s;
    }
    if Selectors(f, a) != [] {
      assert TableOf(m)[Selectors(f, a)[0]] == a;
    }
  }

  // ---------------------------------------------------------------- the edits, on values

  lemma AppendKeepsPlaces(m: SelectorMap, f: FacetMap, l: seq<Address>, s: Selector, a: Address)
    requires Consistent(m, f, l, {a}) && a != ZERO_ADDRESS && s !in m
    ensures Consistent(m[s := FacetAddressAndPosition(a, |Selectors(f, a)|)],
                       f[a := Facet(f, a).(functionSelectors := Selectors(f, a) + [s])], l, {a})
  {
    var m' := m[s := FacetAddressAndPosition(a, |Selectors(f, a)|)];
    var f' := f[a := Facet(f, a).(functionSelectors := Selectors(f, a) + [s])];
    assert forall b :: b != a ==> Facet(f', b) == Facet(f, b);
    assert forall b :: Facet(f', b).facetAddressPosition == Facet(f, b).facetAddressPosition;
    assert forall b :: Listed(f, l, b) ==> Listed(f', l, b);
    assert ArraysPlaced(m', f') by {
      forall b, i | 0 <= i < |Selectors(f', b)|
        ensures Selectors(f', b)[i] in m' && m'[Selectors(f', b)[i]] == FacetAddressAndPosition(b, i)
      {
        if i < |Selectors(f, b)| {
          assert Selectors(f', b)[i] == Selectors(f, b)[i];
        }
      }
    }
  }

  function SwapPop(l: seq<Selector>, position: nat): seq<Selector>
    requires position < |l|
  {
    l[position := l[|l| - 1]][..|l| - 1]
  }

  /** The maps after `s` has left its facet's array: the array's last selector takes its slot. */
  function Unplaced(m: SelectorMap, f: FacetMap, s: Selector): (SelectorMap, FacetMap)
    requires s in m && m[s].functionSelectorPosition < |Selectors(f, m[s].facetAddress)|
  {
    var a, p := m[s].facetAddress, m[s].functionSelectorPosition;
    var l := Selectors(f, a);
    (m[l[|l| - 1] := FacetAddressAndPosition(a, p)] - {s},
     f[a := Facet(f, a).(functionSelectors := SwapPop(l, p))])
  }

  lemma UnplacedKeepsPlaces(m: SelectorMap, f: FacetMap, s: Selector)
    requires SelectorsPlaced(m, f) && ArraysPlaced(m, f) && s in m
    ensures var (m', f') := Unplaced(m, f, s); SelectorsPlaced(m', f') && ArraysPlaced(m', f')
  {
    var a, p := m[s].facetAddress, m[s].functionSelectorPosition;
    var l := Selectors(f, a);
    var (m', f') := Unplaced(m, f, s);
    SelectorsAreDistinct(m, f, a);
    assert forall b :: b != a ==> Facet(f', b) == Facet(f, b);
    assert Selectors(f', a) == SwapPop(l, p);
    assert m[Selectors(f, a)[|l| - 1]] == FacetAddressAndPosition(a, |l| - 1);
    forall b, i | 0 <= i < |Selectors(f', b)|
      ensures Selectors(f', b)[i] in m' && m'[Selectors(f', b)[i]] == FacetAddressAndPosition(b, i)
    {
      assert Selectors(f, b)[i] in m && m[Selectors(f, b)[i]] == FacetAddressAndPosition(b, i);
    }
    forall t | t in m'
      ensures m'[t].facetAddress != ZERO_ADDRESS
      ensures m'[t].functionSelectorPosition < |Selectors(f', m'[t].facetAddress)|
      ensures Selectors(f', m'[t].facetAddress)[m'[t].functionSelectorPosition] == t
    {
      assert t in m && Selectors(f, m[t].facetAddress)[m[t].functionSelectorPosition] == t;
    }
  }

  lemma UnplacedTable(m: SelectorMap, f: FacetMap, s: Selector)
    requires SelectorsPlaced(m, f) && ArraysPlaced(m, f) && s in m
    ensures TableOf(Unplaced(m, f, s).0) == TableOf(m) - {s}
  {
    var a := m[s].facetAddress;
    assert m[Selectors(f, a)[|Selectors(f, a)| - 1]].facetAddress == a;
  }

  lemma UnplacedKeepsFacets(m: SelectorMap, f: FacetMap, l: seq<Address>, s: Selector, pending: set<Address>)
    requires Consistent(m, f, l, pending) && s in m && m[s].facetAddress !in pending
    ensures var a := m[s].facetAddress;
            var f' := Unplaced(m, f, s).1;
            && FacetsPlaced(f', l, if Selectors(f', a) == [] then pending + {a} else pending)
            && forall b <- pending :: Selectors(f', b) == Selectors(f, b)
  {
    var a, f' := m[s].facetAddress, Unplaced(m, f, s).1;
    assert forall b :: b != a ==> Facet(f', b) == Facet(f, b);
    assert forall b :: Facet(f', b).facetAddressPosition == Facet(f, b).facetAddressPosition;
    forall b | Selectors(f', b) != [] || b in pending || b == a ensures Listed(f', l, b) {
      assert Listed(f, l, b);
    }
  }

  function DropAddress(f: FacetMap, l: seq<Address>, a: Address): (FacetMap, seq<Address>)
    requires Facet(f, a).facetAddressPosition < |l|
  {
    var p := Facet(f, a).facetAddressPosition;
    var b := l[|l| - 1];
    var f1 := f[b := Facet(f, b).(facetAddressPosition := p)];
    (f1[a := Facet(f1, a).(facetAddressPosition := 0)], l[p := b][..|l| - 1])
  }

  lemma DropAddressKeepsPlaces(f: FacetMap, l: seq<Address>, a: Address, pending: set<Address>)
    requires FacetsPlaced(f, l, pending + {a}) && a !in pending && Selectors(f, a) == []
    ensures Listed(f, l, a)
    ensures var (f', l') := DropAddress(f, l, a);
            FacetsPlaced(f', l', pending) && forall b :: Selectors(f', b) == Selectors(f, b)
  {
    assert Listed(f, l, a);
    var (f', l') := DropAddress(f, l, a);
    var p, last := Facet(f, a).facetAddressPosition, l[|l| - 1];
    assert Facet(f, last).facetAddressPosition == |l| - 1;
    forall b ensures Selectors(f', b) == Selectors(f, b) {}
    forall b ensures b != a && b != last ==> Facet(f', b) == Facet(f, b) {}
    forall b | Selectors(f', b) != [] || b in pending ensures Listed(f', l', b) {
      assert Selectors(f, b) != [] || b in pending + {a};
      assert Listed(f, l, b);
    }
    forall i | 0 <= i < |l'|
      ensures l'[i] != ZERO_ADDRESS && Facet(f', l'[i]).facetAddressPosition == i
      ensures Selectors(f', l'[i]) != [] || l'[i] in pending
    {
      assert Facet(f, l[i]).facetAddressPosition == i;
    }
  }

  // ---------------------------------------------------------------- uint96 positions

  /** The cast `uint96(x)`. */
  function Uint96(x: nat): nat {
    x % 0x1_0000_0000_0000_0000_0000_0000
  }

  lemma {:induction false} BoundedSetCardinality(s: set<Selector>, n: nat)
    requires forall x <- s :: x < n
    ensures |s| <= n
  {
    if n == 0 {
      assert s == {};
    } else if n - 1 < 0x1_0000_0000 {
      BoundedSetCardinality(s - {n - 1}, n - 1);
      assert s <= (s - {n - 1}) + {n - 1};
    } else {
      BoundedSetCardinality(s, n - 1);
    }
  }

  /** There are too few selectors for an array of distinct ones to outgrow `uint96`. */
  lemma SelectorPositionsFit(s: seq<Selector>)
    requires NoDup(s)
    ensures forall k: nat :: k <= |s| ==> Uint96(k) == k
  {
    NoDupCardinality(s);
    BoundedSetCardinality(Elems(s), 0x1_0000_0000);
  }

  /** Once a facet listed in advance has a selector, nothing is pending. */
  lemma PendingSettled(f: FacetMap, l: seq<Address>, a: Address)
    requires FacetsPlaced(f, l, {a}) && Selectors(f, a) != []
    ensures FacetsPlaced(f, l, {})
  {
  }

  lemma PlacedTable(m: SelectorMap, s: Selector, p: FacetAddressAndPosition)
    ensures TableOf(m[s := p]) == TableOf(m)[s := p.facetAddress]
  {
  }

  lemma Reroute(t: Table, s: Selector, a: Address)
    ensures (t - {s})[s := a] == t[s := a]
  {
  }

  ghost function RoutedTo(t: Table, l: seq<Address>): set<Selector> {
    set s | s in t && t[s] in l
  }

  lemma RoutedToNext(t: Table, l: seq<Address>, i: nat)
    requires NoDup(l) && i < |l|
    ensures |RoutedTo(t, l[..i + 1])| == |RoutedTo(t, l[..i])| + |Owned(t, l[i])|
  {
    var own := Owned(t, l[i]);
    assert l[..i + 1] == l[..i] + [l[i]];
    assert RoutedTo(t, l[..i]) !! own;
    assert RoutedTo(t, l[..i + 1]) == RoutedTo(t, l[..i]) + own;
  }

  // ---------------------------------------------------------------- the storage itself

  class Diamond {
    const self: Address
    var selectorToFacetAndPosition: SelectorMap
    var facetFunctionSelectors: FacetMap
    var facetAddresses: seq<Address>

    ghost predicate Places(pending: set<Address>)
      reads this
    {
      Consistent(selectorToFacetAndPosition, facetFunctionSelectors, facetAddresses, pending)
    }

    ghost predicate Valid()
      reads this
    {
      Places({})
    }

    ghost function Table(): Table
      reads this
    {
      TableOf(selectorToFacetAndPosition)
    }

    constructor (self: Address)
      ensures Valid() && Table() == map[] && this.self == self
    {
      this.self := self;
      selectorToFacetAndPosition, facetFunctionSelectors, facetAddresses := map[], map[], [];
    }

    // -------------------------------------------------------------- LibDiamond, internal helpers

    method AddFacet(a: Address, env: Env) returns (r: Result<()>)
      requires Valid() && Selectors(facetFunctionSelectors, a) == []
      requires a != ZERO_ADDRESS
      modifies this`facetFunctionSelectors, this`facetAddresses
      ensures r == if env.code(a) then Ok(()) else Revert(NoCode)
      ensures r.Ok? ==> Places({a})
      ensures r.Ok? ==> Selectors(facetFunctionSelectors, a) == []
    {
      if !env.code(a) { return Revert(NoCode); }
      ghost var f := facetFunctionSelectors;
      facetFunctionSelectors := facetFunctionSelectors[
        a := Facet(facetFunctionSelectors, a).(facetAddressPosition := |facetAddresses|)];
      facetAddresses := facetAddresses + [a];
      assert forall b :: Selectors(facetFunctionSelectors, b) == Selectors(f, b);
      assert forall b {:trigger Listed(f, old(facetAddresses), b)} ::
          Selectors(f, b) != [] ==> Listed(f, old(facetAddresses), b);
      r := Ok(());
    }

    method AddFunction(s: Selector, position: nat, a: Address)
      requires Places({a}) && a != ZERO_ADDRESS && s !in selectorToFacetAndPosition
      requires position == |Selectors(facetFunctionSelectors, a)|
      modifies this`selectorToFacetAndPosition, this`facetFunctionSelectors
      ensures Places({a})
      ensures Selectors(facetFunctionSelectors, a) == old(Selectors(facetFunctionSelectors, a)) + [s]
      ensures Table() == old(Table())[s := a]
    {
      AppendKeepsPlaces(selectorToFacetAndPosition, facetFunctionSelectors, facetAddresses, s, a);
      PlacedTable(selectorToFacetAndPosition, s, FacetAddressAndPosition(a, position));
      selectorToFacetAndPosition := selectorToFacetAndPosition[s := FacetAddressAndPosition(a, position)];
      facetFunctionSelectors := facetFunctionSelectors[
        a := Facet(facetFunctionSelectors, a).(functionSelectors := Selectors(facetFunctionSelectors, a) + [s])];
    }

    method RemoveFunction(a: Address, s: Selector, ghost pending: set<Address>) returns (r: Result<()>)
      requires Places(pending) && a == FacetOf(selectorToFacetAndPosition, s).facetAddress && a !in pending
      modifies this`selectorToFacetAndPosition, this`facetFunctionSelectors, this`facetAddresses
      ensures r == if s !in old(Table()) then Revert(FunctionMissing)
                   else if a == self then Revert(ImmutableFunction) else Ok(())
      ensures r.Ok? ==> Places(pending) && Table() == old(Table()) - {s} && s !in selectorToFacetAndPosition
      ensures r.Ok? ==> forall b <- pending ::
                Selectors(facetFunctionSelectors, b) == old(Selectors(facetFunctionSelectors, b))
    {
      if a == ZERO_ADDRESS { return Revert(FunctionMissing); }
      if a == self { return Revert(ImmutableFunction); }
      r := Ok(());
      UnplacedKeepsPlaces(selectorToFacetAndPosition, facetFunctionSelectors, s);
      UnplacedTable(selectorToFacetAndPosition, facetFunctionSelectors, s);
      UnplacedKeepsFacets(selectorToFacetAndPosition, facetFunctionSelectors, facetAddresses, s, pending);
      SelectorsAreDistinct(selectorToFacetAndPosition, facetFunctionSelectors, a);
      var last := |Selectors(facetFunctionSelectors, a)| - 1;
      UnplaceSelector(a, s);
      if last == 0 {
        DropFacet(a, pending);
      }
    }

    /** The middle of `removeFunction`: swap the facet's last selector into the hole, then pop. */
    method UnplaceSelector(a: Address, s: Selector)
      requires s in selectorToFacetAndPosition && selectorToFacetAndPosition[s].facetAddress == a
      requires NoDup(Selectors(facetFunctionSelectors, a))
      requires selectorToFacetAndPosition[s].functionSelectorPosition < |Selectors(facetFunctionSelectors, a)|
      requires Selectors(facetFunctionSelectors, a)[selectorToFacetAndPosition[s].functionSelectorPosition] == s
      requires var l := Selectors(facetFunctionSelectors, a);
               FacetOf(selectorToFacetAndPosition, l[|l| - 1]).facetAddress == a
      modifies this`selectorToFacetAndPosition, this`facetFunctionSelectors
      ensures (selectorToFacetAndPosition, facetFunctionSelectors) ==
              Unplaced(old(selectorToFacetAndPosition), old(facetFunctionSelectors), s)
    {
      ghost var m, f := selectorToFacetAndPosition, facetFunctionSelectors;
      SelectorPositionsFit(Selectors(facetFunctionSelectors, a));
      var position := FacetOf(selectorToFacetAndPosition, s).functionSelectorPosition;
      var last := |Selectors(facetFunctionSelectors, a)| - 1;
      if position != last {
        var lastSelector := Selectors(facetFunctionSelectors, a)[last];
        facetFunctionSelectors := facetFunctionSelectors[
          a := Facet(facetFunctionSelectors, a).(functionSelectors :=
            Selectors(facetFunctionSelectors, a)[position := lastSelector])];
        selectorToFacetAndPosition := selectorToFacetAndPosition[lastSelector :=
          FacetOf(selectorToFacetAndPosition, lastSelector).(functionSelectorPosition := Uint96(position))];
      }
      facetFunctionSelectors := facetFunctionSelectors[
        a := Facet(facetFunctionSelectors, a).(functionSelectors := Selectors(facetFunctionSelectors, a)[..last])];
      selectorToFacetAndPosition := selectorToFacetAndPosition - {s};
      assert Selectors(facetFunctionSelectors, a) == SwapPop(Selectors(f, a), position);
      assert selectorToFacetAndPosition == Unplaced(m, f, s).0;
      assert facetFunctionSelectors == Unplaced(m, f, s).1;
    }

    /** The end of `removeFunction`: the facet's last selector is gone, so its address leaves the array too. */
    method DropFacet(a: Address, ghost pending: set<Address>)
      requires Places(pending + {a}) && a !in pending && Selectors(facetFunctionSelectors, a) == []
      modifies this`facetFunctionSelectors, this`facetAddresses
      ensures Places(pending)
      ensures forall b :: Selectors(facetFunctionSelectors, b) == old(Selectors(facetFunctionSelectors, b))
    {
      ghost var f, l := facetFunctionSelectors, facetAddresses;
      DropAddressKeepsPlaces(f, l, a, pending);
      var lastPosition := |facetAddresses| - 1;
      var position := Facet(facetFunctionSelectors, a).facetAddressPosition;
      if position != lastPosition {
        var lastAddress := facetAddresses[lastPosition];
        facetAddresses := facetAddresses[position := lastAddress];
        facetFunctionSelectors := facetFunctionSelectors[
          lastAddress := Facet(facetFunctionSelectors, lastAddress).(facetAddressPosition := position)];
      }
      facetAddresses := facetAddresses[..lastPosition];
      facetFunctionSelectors := facetFunctionSelectors[
        a := Facet(facetFunctionSelectors, a).(facetAddressPosition := 0)];
      assert facetAddresses == DropAddress(f, l, a).1;
      assert facetFunctionSelectors == DropAddress(f, l, a).0;
    }

    // -------------------------------------------------------------- LibDiamond, the three actions

    method AddFunctions(a: Address, sels: seq<Selector>, env: Env) returns (r: Result<()>)
      requires Valid()
      modifies this`selectorToFacetAndPosition, this`facetFunctionSelectors, this`facetAddresses
      ensures Performs(r, ApplyCut(env, old(Table()), FacetCut(a, Add, sels)))
    {
      if |sels| == 0 { return Revert(NoSelectors); }
      if a == ZERO_ADDRESS { return Revert(AddZeroFacet); }
      var selectorPosition;
      r, selectorPosition := ListFacet(a, env);
      if r.Revert? { return; }
      r := AddEach(a, sels, selectorPosition, env);
    }

    /** The loop of `addFunctions`. */
    method AddEach(a: Address, sels: seq<Selector>, position: nat, env: Env) returns (r: Result<()>)
      requires Places({a}) && a != ZERO_ADDRESS && sels != []
      requires position == |Selectors(facetFunctionSelectors, a)|
      modifies this`selectorToFacetAndPosition, this`facetFunctionSelectors, this`facetAddresses
      ensures Performs(r, ApplySelectors(env, old(Table()), Add, a, sels))
    {
      hide ApplySelectors, Step, SelectorsPlaced, ArraysPlaced, TableOf;
      var selectorPosition := position;
      r := Ok(());
      ghost var goal := ApplySelectors(env, Table(), Add, a, sels);
      assert sels[0..] == sels;
      var i := 0;
      while i < |sels|
        invariant 0 <= i <= |sels| && r.Ok?
        invariant Places({a}) && selectorPosition == |Selectors(facetFunctionSelectors, a)|
        invariant i > 0 ==> selectorPosition > 0
        invariant ApplySelectors(env, Table(), Add, a, sels[i..]) == goal
      {
        NextSelector(env, Table(), Add, a, sels, i);
        r := AddNewFunction(a, sels[i], selectorPosition, env);
        if r.Revert? { return; }
        selectorPosition := selectorPosition + 1;
        i := i + 1;
      }
      NoneLeft(env, Table(), Add, a, sels[i..]);
      PendingSettled(facetFunctionSelectors, facetAddresses, a);
    }

    /** The body of `addFunctions`' loop. */
    method AddNewFunction(a: Address, s: Selector, position: nat, env: Env) returns (r: Result<()>)
      requires Places({a}) && a != ZERO_ADDRESS
      requires position == |Selectors(facetFunctionSelectors, a)|
      modifies this`selectorToFacetAndPosition, this`facetFunctionSelectors
      ensures Step(env, old(Table()), Add, a, s) == if r.Ok? then Ok(Table()) else Revert(r.reason)
      ensures r.Ok? ==> Places({a}) && |Selectors(facetFunctionSelectors, a)| == position + 1
    {
      var oldFacetAddress := FacetOf(selectorToFacetAndPosition, s).facetAddress;
      if oldFacetAddress != ZERO_ADDRESS { return Revert(FunctionExists); }
      AddFunction(s, position, a);
      r := Ok(());
    }

    /** The shared opening of `addFunctions` and `replaceFunctions`: list the facet if it has no selector yet. */
    method ListFacet(a: Address, env: Env) returns (r: Result<()>, selectorPosition: nat)
      requires Valid() && a != ZERO_ADDRESS
      modifies this`facetFunctionSelectors, this`facetAddresses
      ensures r == if a !in Table().Values && !env.code(a) then Revert(NoCode) else Ok(())
      ensures r.Ok? ==> Places({a}) && selectorPosition == |Selectors(facetFunctionSelectors, a)|
    {
      SelectorsAreRouted(selectorToFacetAndPosition, facetFunctionSelectors, a);
      SelectorsAreDistinct(selectorToFacetAndPosition, facetFunctionSelectors, a);
      SelectorPositionsFit(Selectors(facetFunctionSelectors, a));
      selectorPosition := Uint96(|Selectors(facetFunctionSelectors, a)|);
      r := Ok(());
      if selectorPosition == 0 {
        r := AddFacet(a, env);
      }
    }

    method ReplaceFunctions(a: Address, sels: seq<Selector>, env: Env) returns (r: Result<()>)
      requires Valid() && env.self == self
      modifies this`selectorToFacetAndPosition, this`facetFunctionSelectors, this`facetAddresses
      ensures Performs(r, ApplyCut(env, old(Table()), FacetCut(a, Replace, sels)))
    {
      if |sels| == 0 { return Revert(NoSelectors); }
      if a == ZERO_ADDRESS { return Revert(ReplaceZeroFacet); }
      var selectorPosition;
      r, selectorPosition := ListFacet(a, env);
      if r.Revert? { return; }
      r := ReplaceEach(a, sels, selectorPosition, env);
    }

    /** The loop of `replaceFunctions`. */
    method ReplaceEach(a: Address, sels: seq<Selector>, position: nat, env: Env) returns (r: Result<()>)
      requires Places({a}) && a != ZERO_ADDRESS && env.self == self && sels != []
      requires position == |Selectors(facetFunctionSelectors, a)|
      modifies this`selectorToFacetAndPosition, this`facetFunctionSelectors, this`facetAddresses
      ensures Performs(r, ApplySelectors(env, old(Table()), Replace, a, sels))
    {
      hide ApplySelectors, Step, SelectorsPlaced, ArraysPlaced, TableOf;
      var selectorPosition := position;
      r := Ok(());
      ghost var goal := ApplySelectors(env, Table(), Replace, a, sels);
      assert sels[0..] == sels;
      var i := 0;
      while i < |sels|
        invariant 0 <= i <= |sels| && r.Ok?
        invariant Places({a}) && selectorPosition == |Selectors(facetFunctionSelectors, a)|
        invariant i > 0 ==> selectorPosition > 0
        invariant ApplySelectors(env, Table(), Replace, a, sels[i..]) == goal
      {
        NextSelector(env, Table(), Replace, a, sels, i);
        r := ReplaceFunction(a, sels[i], selectorPosition, env);
        if r.Revert? { return; }
        selectorPosition := selectorPosition + 1;
        i := i + 1;
      }
      NoneLeft(env, Table(), Replace, a, sels[i..]);
      PendingSettled(facetFunctionSelectors, facetAddresses, a);
    }

    /** The body of `replaceFunctions`' loop. */
    method ReplaceFunction(a: Address, s: Selector, position: nat, env: Env) returns (r: Result<()>)
      requires Places({a}) && a != ZERO_ADDRESS && env.self == self
      requires position == |Selectors(facetFunctionSelectors, a)|
      modifies this`selectorToFacetAndPosition, this`facetFunctionSelectors, this`facetAddresses
      ensures Step(env, old(Table()), Replace, a, s) == if r.Ok? then Ok(Table()) else Revert(r.reason)
      ensures r.Ok? ==> Places({a}) && |Selectors(facetFunctionSelectors, a)| == position + 1
    {
      var oldFacetAddress := FacetOf(selectorToFacetAndPosition, s).facetAddress;
      if oldFacetAddress == a { return Revert(SameFunction); }
      ghost var t := Table();
      assert oldFacetAddress == if s in t then t[s] else ZERO_ADDRESS;
      r := RemoveFunction(oldFacetAddress, s, {a});
      if r.Revert? { return; }
      AddFunction(s, position, a);
      Reroute(t, s, a);
    }

    method RemoveFunctions(a: Address, sels: seq<Selector>, env: Env) returns (r: Result<()>)
      requires Valid() && env.self == self
      modifies this`selectorToFacetAndPosition, this`facetFunctionSelectors, this`facetAddresses
      ensures Performs(r, ApplyCut(env, old(Table()), FacetCut(a, Remove, sels)))
    {
      if |sels| == 0 { return Revert(NoSelectors); }
      if a != ZERO_ADDRESS { return Revert(RemoveNonZeroFacet); }
      r := RemoveEach(a, sels, env);
    }

    /** The loop of `removeFunctions`. */
    method RemoveEach(a: Address, sels: seq<Selector>, env: Env) returns (r: Result<()>)
      requires Valid() && env.self == self
      modifies this`selectorToFacetAndPosition, this`facetFunctionSelectors, this`facetAddresses
      ensures Performs(r, ApplySelectors(env, old(Table()), Remove, a, sels))
    {
      hide ApplySelectors, Step, Consistent, TableOf;
      r := Ok(());
      ghost var goal := ApplySelectors(env, Table(), Remove, a, sels);
      assert sels[0..] == sels;
      var i := 0;
      while i < |sels|
        invariant 0 <= i <= |sels| && Valid()
        invariant ApplySelectors(env, Table(), Remove, a, sels[i..]) == goal
        invariant r.Ok?
      {
        NextSelector(env, Table(), Remove, a, sels, i);
        r := RemoveOne(a, sels[i], env);
        if r.Revert? { return; }
        i := i + 1;
      }
      NoneLeft(env, Table(), Remove, a, sels[i..]);
    }

    /** The body of `removeFunctions`' loop. */
    method RemoveOne(a: Address, s: Selector, env: Env) returns (r: Result<()>)
      requires Valid() && env.self == self
      modifies this`selectorToFacetAndPosition, this`facetFunctionSelectors, this`facetAddresses
      ensures Step(env, old(Table()), Remove, a, s) == if r.Ok? then Ok(Table()) else Revert(r.reason)
      ensures r.Ok? ==> Valid()
    {
      var oldFacetAddress := FacetOf(selectorToFacetAndPosition, s).facetAddress;
      r := RemoveFunction(oldFacetAddress, s, {});
    }

    /** The call reports what the specification says and, when it goes through, leaves the specified table. */
    ghost predicate Performs(r: Result<()>, spec: Result<Table>)
      reads this
    {
      match spec
      case Ok(t) => r.Ok? && Valid() && Table() == t
      case Revert(e) => r == Revert(e)
    }

    // -------------------------------------------------------------- the external call

    method PerformCut(cut: FacetCut, env: Env) returns (r: Result<()>)
      requires Valid() && env.self == self
      modifies this`selectorToFacetAndPosition, this`facetFunctionSelectors, this`facetAddresses
      ensures Performs(r, ApplyCut(env, old(Table()), cut))
    {
      match cut.action {
        case Add => r := AddFunctions(cut.facet, cut.selectors, env);
        case Replace => r := ReplaceFunctions(cut.facet, cut.selectors, env);
        case Remove => r := RemoveFunctions(cut.facet, cut.selectors, env);
      }
    }

    /** One transaction: every cut in order, or no change at all. */
    method DiamondCut(cuts: seq<FacetCut>, env: Env) returns (r: Result<()>)
      requires Valid() && env.self == self
      modifies this`selectorToFacetAndPosition, this`facetFunctionSelectors, this`facetAddresses
      ensures Valid() && Performs(r, ApplyCuts(env, old(Table()), cuts))
      ensures r.Revert? ==> unchanged(this)
    {
      var before := (selectorToFacetAndPosition, facetFunctionSelectors, facetAddresses);
      r := Ok(());
      ghost var goal := ApplyCuts(env, Table(), cuts);
      assert cuts[0..] == cuts;
      var i := 0;
      while i < |cuts|
        invariant 0 <= i <= |cuts| && Valid() && r.Ok?
        invariant ApplyCuts(env, Table(), cuts[i..]) == goal
      {
        NextCut(env, Table(), cuts, i);
        r := PerformCut(cuts[i], env);
        if r.Revert? {
          selectorToFacetAndPosition, facetFunctionSelectors, facetAddresses := before.0, before.1, before.2;
          return;
        }
        i := i + 1;
      }
    }

    // -------------------------------------------------------------- DiamondLoupeFacet

    /** `facetAddress(bytes4)`: zero exactly for an unrouted selector. */
    method FacetAddress(s: Selector) returns (a: Address)
      requires Valid()
      ensures a == if s in Table() then Table()[s] else ZERO_ADDRESS
      ensures a != ZERO_ADDRESS <==> s in Table()
    {
      a := FacetOf(selectorToFacetAndPosition, s).facetAddress;
    }

    /** `facetFunctionSelectors(address)`: the selectors routed to the facet, each once. */
    method FacetFunctionSelectors(a: Address) returns (l: seq<Selector>)
      requires Valid()
      ensures NoDup(l) && Elems(l) == Owned(Table(), a)
    {
      SelectorsAreRouted(selectorToFacetAndPosition, facetFunctionSelectors, a);
      SelectorsAreDistinct(selectorToFacetAndPosition, facetFunctionSelectors, a);
      l := Selectors(facetFunctionSelectors, a);
    }

    /** `facetAddresses()`: the facets that have a selector, each once. */
    method FacetAddresses() returns (l: seq<Address>)
      requires Valid()
      ensures NoDup(l) && Elems(l) == Table().Values
    {
      l := facetAddresses;
      forall i, j | 0 <= i < j < |l| ensures l[i] != l[j] {
        assert Facet(facetFunctionSelectors, l[i]).facetAddressPosition == i;
        assert Facet(facetFunctionSelectors, l[j]).facetAddressPosition == j;
      }
      forall a ensures a in l <==> a in Table().Values {
        SelectorsAreRouted(selectorToFacetAndPosition, facetFunctionSelectors, a);
        if a in Table().Values {
          assert Listed(facetFunctionSelectors, facetAddresses, a);
        }
      }
    }

    /** `facets()` summed up as the deployment check does: no selector is missed or counted twice. */
    method CountSelectors() returns (total: nat)
      requires Valid()
      ensures total == |Table()|
    {
      var facets := FacetAddresses();
      ghost var t := Table();
      assert facets[..0] == [];
      total := 0;
      for i := 0 to |facets|
        invariant total == |RoutedTo(t, facets[..i])|
      {
        var sels := FacetFunctionSelectors(facets[i]);
        NoDupCardinality(sels);
        RoutedToNext(t, facets, i);
        total := total + |sels|;
      }
      assert facets[..|facets|] == facets;
      assert RoutedTo(t, facets) == t.Keys by {
        forall s | s in t ensures s in RoutedTo(t, facets) { assert t[s] in Elems(facets); }
      }
    }
  }
}
