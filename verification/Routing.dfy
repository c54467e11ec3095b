/**
 The selector-to-facet routing table of the diamond, as a value: what one cut does to it, what a list
 of cuts does, and when each of the three actions reverts.  The storage layout that implements this
 table is in DiamondStorage.dfy; the scripts that plan lists of cuts are in Plans.dfy, Deploys.dfy and Upgrades.dfy.
 */
module Routing {

  /** A `bytes4` function selector. */
  type Selector = x: int | 0 <= x < 0x1_0000_0000 witness 0

  type Address = nat

  const ZERO_ADDRESS: Address := 0

  /** The `require` that failed, one constructor per message. */
  datatype Reason =
    | NoSelectors
    | AddZeroFacet
    | ReplaceZeroFacet
    | RemoveNonZeroFacet
    | NoCode
    | FunctionExists
    | SameFunction
    | FunctionMissing
    | ImmutableFunction

  datatype Result<+T> = Ok(value: T) | Revert(reason: Reason)

  datatype Action = Add | Replace | Remove

  datatype FacetCut = FacetCut(facet: Address, action: Action, selectors: seq<Selector>)

  /** The routed selectors and their facets; a selector outside the domain has facet `address(0)`. */
  type Table = map<Selector, Address>

  /** What a cut can see besides the table: the diamond's own address and the accounts that have code. */
  datatype Env = Env(self: Address, code: Address -> bool)

  /** One selector of a cut, after the cut's own guards have passed. */
  function Step(env: Env, t: Table, action: Action, facet: Address, s: Selector): Result<Table> {
    match action
    case Add =>
      if s in t then Revert(FunctionExists) else Ok(t[s := facet])
    case Replace =>
      if s in t && t[s] == facet then Revert(SameFunction)
      else if s !in t then Revert(FunctionMissing)
      else if t[s] == env.self then Revert(ImmutableFunction)
      else Ok(t[s := facet])
    case Remove =>
      if s !in t then Revert(FunctionMissing)
      else if t[s] == env.self then Revert(ImmutableFunction)
      else Ok(t - {s})
  }

  function ApplySelectors(env: Env, t: Table, action: Action, facet: Address, sels: seq<Selector>): Result<Table>
    decreases |sels|
  {
    if sels == [] then Ok(t)
    else
      match Step(env, t, action, facet, sels[0])
      case Revert(e) => Revert(e)
      case Ok(t') => ApplySelectors(env, t', action, facet, sels[1..])
  }

  /** The guards a whole cut passes before its first selector is looked at. */
  function Guard(env: Env, t: Table, cut: FacetCut): Result<()> {
    if cut.selectors == [] then Revert(NoSelectors)
    else
      match cut.action
      case Remove => if cut.facet != ZERO_ADDRESS then Revert(RemoveNonZeroFacet) else Ok(())
      case _ =>
        if cut.facet == ZERO_ADDRESS then Revert(if cut.action == Add then AddZeroFacet else ReplaceZeroFacet)
        else if cut.facet !in t.Values && !env.code(cut.facet) then Revert(NoCode)
        else Ok(())
  }

  function ApplyCut(env: Env, t: Table, cut: FacetCut): Result<Table> {
    match Guard(env, t, cut)
    case Revert(e) => Revert(e)
    case Ok(_) => ApplySelectors(env, t, cut.action, cut.facet, cut.selectors)
  }

  function ApplyCuts(env: Env, t: Table, cuts: seq<FacetCut>): Result<Table>
    decreases |cuts|
  {
    if cuts == [] then Ok(t)
    else
      match ApplyCut(env, t, cuts[0])
      case Revert(e) => Revert(e)
      case Ok(t') => ApplyCuts(env, t', cuts[1..])
  }

  /** Unfolding one selector, or one cut, at an index: what a loop over the list does next. */
  lemma NextSelector(env: Env, t: Table, action: Action, facet: Address, sels: seq<Selector>, i: nat)
    requires i < |sels|
    ensures ApplySelectors(env, t, action, facet, sels[i..]) ==
            match Step(env, t, action, facet, sels[i])
            case Revert(e) => Revert(e)
            case Ok(t') => ApplySelectors(env, t', action, facet, sels[i + 1..])
  {
    assert sels[i..][0] == sels[i] && sels[i..][1..] == sels[i + 1..];
  }

  lemma NoneLeft(env: Env, t: Table, action: Action, facet: Address, sels: seq<Selector>)
    ensures sels == [] ==> ApplySelectors(env, t, action, facet, sels) == Ok(t)
  {
  }

  lemma NextCut(env: Env, t: Table, cuts: seq<FacetCut>, i: nat)
    requires i < |cuts|
    ensures ApplyCuts(env, t, cuts[i..]) ==
            match ApplyCut(env, t, cuts[i])
            case Revert(e) => Revert(e)
            case Ok(t') => ApplyCuts(env, t', cuts[i + 1..])
  {
    assert cuts[i..][0] == cuts[i] && cuts[i..][1..] == cuts[i + 1..];
  }

  // ---------------------------------------------------------------- sequences of selectors

  predicate NoDup<T(==)>(s: seq<T>) {
    forall i, j :: 0 <= i < j < |s| ==> s[i] != s[j]
  }

  function Elems<T>(s: seq<T>): set<T> {
    set x | x in s
  }

  lemma NoDupCons<T>(s: seq<T>)
    requires s != []
    ensures NoDup(s) <==> NoDup(s[1..]) && s[0] !in s[1..]
    ensures forall x :: x in s <==> x == s[0] || x in s[1..]
  {
    assert s == [s[0]] + s[1..];
    if NoDup(s[1..]) && s[0] !in s[1..] {
      forall i, j | 0 <= i < j < |s| ensures s[i] != s[j] {
        assert s[j] == s[1..][j - 1];
        if i > 0 { assert s[i] == s[1..][i - 1]; }
      }
    }
  }

  lemma {:induction false} NoDupCardinality<T>(s: seq<T>)
    requires NoDup(s)
    ensures |Elems(s)| == |s|
  {
    if s != [] {
      NoDupCardinality(s[1..]);
      assert Elems(s) == Elems(s[1..]) + {s[0]};
    }
  }

  /** The selectors routed to a facet. */
  function Owned(t: Table, a: Address): set<Selector> {
    set s | s in t && t[s] == a
  }

  // ---------------------------------------------------------------- the three actions, whole lists

  /** The table after the given selectors have been pointed at `facet`. */
  function Route(t: Table, sels: set<Selector>, facet: Address): Table {
    t + map s | s in sels :: facet
  }

  lemma RouteCons(t: Table, sels: seq<Selector>, facet: Address)
    requires sels != []
    ensures Elems(sels) == Elems(sels[1..]) + {sels[0]}
    ensures Route(t[sels[0] := facet], Elems(sels[1..]), facet) == Route(t, Elems(sels), facet)
  {
    assert Elems(sels) == Elems(sels[1..]) + {sels[0]};
  }

  /** Adding a list succeeds exactly when it repeats nothing and nothing in it is routed. */
  lemma {:induction false} AddList(env: Env, t: Table, facet: Address, sels: seq<Selector>)
    ensures ApplySelectors(env, t, Add, facet, sels).Ok? <==> NoDup(sels) && Elems(sels) !! t.Keys
    ensures NoDup(sels) && Elems(sels) !! t.Keys ==>
              ApplySelectors(env, t, Add, facet, sels) == Ok(Route(t, Elems(sels), facet))
    decreases |sels|
  {
    if sels == [] {
      assert Route(t, Elems(sels), facet) == t;
    } else {
      var tail := sels[1..];
      RouteCons(t, sels, facet);
      NoDupCons(sels);
      assert sels[0] in Elems(sels);
      if sels[0] !in t {
        var t' := t[sels[0] := facet];
        assert t'.Keys == t.Keys + {sels[0]};
        AddList(env, t', facet, tail);
        assert sels[0] in Elems(tail) <==> sels[0] in tail;
      }
    }
  }

  ghost predicate Replaceable(env: Env, t: Table, facet: Address, sels: seq<Selector>) {
    NoDup(sels) && forall s <- sels :: s in t && t[s] != facet && t[s] != env.self
  }

  /** Replacing a list succeeds exactly when it repeats nothing and every selector in it is routed elsewhere. */
  lemma {:induction false} ReplaceList(env: Env, t: Table, facet: Address, sels: seq<Selector>)
    ensures ApplySelectors(env, t, Replace, facet, sels).Ok? <==> Replaceable(env, t, facet, sels)
    ensures Replaceable(env, t, facet, sels) ==>
              ApplySelectors(env, t, Replace, facet, sels) == Ok(Route(t, Elems(sels), facet))
    decreases |sels|
  {
    if sels == [] {
      assert Route(t, Elems(sels), facet) == t;
    } else {
      var tail := sels[1..];
      RouteCons(t, sels, facet);
      NoDupCons(sels);
      if sels[0] in t && t[sels[0]] != facet && t[sels[0]] != env.self {
        ReplaceList(env, t[sels[0] := facet], facet, tail);
      }
    }
  }

  ghost predicate Removable(env: Env, t: Table, sels: seq<Selector>) {
    NoDup(sels) && forall s <- sels :: s in t && t[s] != env.self
  }

  /** Removing a list succeeds exactly when it repeats nothing and every selector in it is routed. */
  lemma {:induction false} RemoveList(env: Env, t: Table, facet: Address, sels: seq<Selector>)
    ensures ApplySelectors(env, t, Remove, facet, sels).Ok? <==> Removable(env, t, sels)
    ensures Removable(env, t, sels) ==> ApplySelectors(env, t, Remove, facet, sels) == Ok(t - Elems(sels))
    decreases |sels|
  {
    if sels == [] {
      assert t - Elems(sels) == t;
    } else {
      var tail := sels[1..];
      NoDupCons(sels);
      assert Elems(sels) == Elems(tail) + {sels[0]};
      if sels[0] in t && t[sels[0]] != env.self {
        var t' := t - {sels[0]};
        RemoveList(env, t', facet, tail);
        assert t' - Elems(tail) == t - Elems(sels);
      }
    }
  }

  // ---------------------------------------------------------------- one cut

  /** When a cut goes through, and the table it then leaves, said of the cut and the table before alone. */
  lemma CutOutcome(env: Env, t: Table, cut: FacetCut)
    ensures ApplyCut(env, t, cut).Ok? <==>
            && cut.selectors != []
            && (forall i, j :: 0 <= i < j < |cut.selectors| ==> cut.selectors[i] != cut.selectors[j])
            && (if cut.action == Remove then cut.facet == 0
                else cut.facet != 0 && (env.code(cut.facet) || exists s <- t :: t[s] == cut.facet))
            && (cut.action == Add ==> forall s <- cut.selectors :: s !in t)
            && (cut.action == Replace ==> forall s <- cut.selectors :: s in t && t[s] != cut.facet && t[s] != env.self)
            && (cut.action == Remove ==> forall s <- cut.selectors :: s in t && t[s] != env.self)
    ensures ApplyCut(env, t, cut).Ok? ==>
              var t' := ApplyCut(env, t, cut).value;
              && (forall s: Selector :: s in t' <==> if s in cut.selectors then cut.action != Remove else s in t)
              && (forall s <- t' :: t'[s] == if s in cut.selectors then cut.facet else t[s])
  {
    AddList(env, t, cut.facet, cut.selectors);
    ReplaceList(env, t, cut.facet, cut.selectors);
    RemoveList(env, t, cut.facet, cut.selectors);
    hide ApplySelectors;
    assert Elems(cut.selectors) !! t.Keys <==> forall s <- cut.selectors :: s !in t;
    assert cut.facet in t.Values <==> exists s <- t :: t[s] == cut.facet;
    assert forall s :: s in Elems(cut.selectors) <==> s in cut.selectors;
  }

  /** What is wrong with the i-th selector of a list, given that nothing is with those before it. */
  predicate Fails(env: Env, t: Table, action: Action, facet: Address, sels: seq<Selector>, i: nat, e: Reason)
    requires i < |sels|
  {
    var s, again := sels[i], sels[i] in sels[..i];
    match e
    case FunctionExists => action == Add && (again || s in t)
    case SameFunction => action == Replace && (again || (s in t && t[s] == facet))
    case FunctionMissing => if action == Remove then again || s !in t else action == Replace && !again && s !in t
    case ImmutableFunction =>
      action != Add && !again && s in t && t[s] == env.self && (action == Replace ==> t[s] != facet)
    case _ => false
  }

  lemma {:induction false} SelectorFailure(env: Env, t: Table, action: Action, facet: Address, sels: seq<Selector>,
                                           e: Reason)
      returns (i: nat)
    requires ApplySelectors(env, t, action, facet, sels) == Revert(e)
    ensures i < |sels| && Fails(env, t, action, facet, sels, i, e)
    ensures ApplySelectors(env, t, action, facet, sels[..i]).Ok?
    decreases |sels|
  {
    assert sels[..0] == [];
    match Step(env, t, action, facet, sels[0]) {
      case Revert(_) => i := 0;
      case Ok(t') =>
        var j := SelectorFailure(env, t', action, facet, sels[1..], e);
        i := j + 1;
        assert sels[1..][j] == sels[i] && sels[..i] == [sels[0]] + sels[1..][..j];
        assert sels[..i][1..] == sels[1..][..j];
    }
  }

  /** Why a cut fails: the first guard that it does not pass, or the first selector that something is wrong with. */
  lemma CutFailure(env: Env, t: Table, cut: FacetCut)
    requires ApplyCut(env, t, cut).Revert?
    ensures var e, known := ApplyCut(env, t, cut).reason, env.code(cut.facet) || exists s <- t :: t[s] == cut.facet;
            if cut.selectors == [] then e == NoSelectors
            else if cut.action == Remove && cut.facet != 0 then e == RemoveNonZeroFacet
            else if cut.action == Add && cut.facet == 0 then e == AddZeroFacet
            else if cut.action == Replace && cut.facet == 0 then e == ReplaceZeroFacet
            else if cut.action != Remove && !known then e == NoCode
            else exists i: nat :: i < |cut.selectors| && Fails(env, t, cut.action, cut.facet, cut.selectors, i, e)
  {
    assert cut.facet in t.Values <==> exists s <- t :: t[s] == cut.facet;
    if Guard(env, t, cut).Ok? {
      var i := SelectorFailure(env, t, cut.action, cut.facet, cut.selectors, ApplyCut(env, t, cut).reason);
    }
  }

  // ---------------------------------------------------------------- lists of cuts

  lemma {:induction false} ApplyConcat(env: Env, t: Table, a: seq<FacetCut>, b: seq<FacetCut>)
    ensures ApplyCuts(env, t, a + b) ==
            match ApplyCuts(env, t, a)
            case Revert(e) => Revert(e)
            case Ok(t') => ApplyCuts(env, t', b)
    decreases |a|
  {
    if a == [] {
      assert a + b == b;
    } else {
      assert (a + b)[0] == a[0] && (a + b)[1..] == a[1..] + b;
      match ApplyCut(env, t, a[0])
      case Revert(_) =>
      case Ok(t') => ApplyConcat(env, t', a[1..], b);
    }
  }

  /** How many selectors of the list carry the given action. */
  function Volume(cuts: seq<FacetCut>, action: Action): nat {
    if cuts == [] then 0
    else (if cuts[0].action == action then |cuts[0].selectors| else 0) + Volume(cuts[1..], action)
  }

  lemma {:induction false} VolumeConcat(a: seq<FacetCut>, b: seq<FacetCut>, action: Action)
    ensures Volume(a + b, action) == Volume(a, action) + Volume(b, action)
    decreases |a|
  {
    if a == [] {
      assert a + b == b;
    } else {
      assert (a + b)[1..] == a[1..] + b;
      VolumeConcat(a[1..], b, action);
    }
  }

  lemma {:induction false} SelectorVolume(env: Env, t: Table, action: Action, facet: Address, sels: seq<Selector>)
    requires ApplySelectors(env, t, action, facet, sels).Ok?
    ensures |ApplySelectors(env, t, action, facet, sels).value| ==
            |t| + (match action case Add => |sels| case Replace => 0 case Remove => -|sels|)
    decreases |sels|
  {
    if sels != [] {
      var t' := Step(env, t, action, facet, sels[0]).value;
      assert action == Remove ==> t.Keys == t'.Keys + {sels[0]};
      assert action != Remove ==> t'.Keys == t.Keys + {sels[0]};
      SelectorVolume(env, t', action, facet, sels[1..]);
    }
  }

  /** Conservation: a cut list that goes through changes the number of routed selectors by what it adds less what it
      removes. */
  lemma {:induction false} CutConservation(env: Env, t: Table, cuts: seq<FacetCut>)
    requires ApplyCuts(env, t, cuts).Ok?
    ensures |ApplyCuts(env, t, cuts).value| == |t| + Volume(cuts, Add) - Volume(cuts, Remove)
    decreases |cuts|
  {
    if cuts != [] {
      SelectorVolume(env, t, cuts[0].action, cuts[0].facet, cuts[0].selectors);
      CutConservation(env, ApplyCut(env, t, cuts[0]).value, cuts[1..]);
    }
  }
}
