/**
 The deployment scripts' three ways of keeping selectors unique: a local tracker across batches, a
 snapshot of the chain per batch, and the plain process that asks the chain before every facet.
 `FirstWins` is what all of them are meant to produce.
 */
module Deploys {
  import opened Routing
  import opened Plans

  /** A deployed facet contract and selectors of it: its whole interface, or what is left of it in a batch entry. */
  datatype Facet = Facet(name: string, address: Address, selectors: seq<Selector>)

  /** Deployed contracts; the compiler gives the functions of one contract distinct selectors. */
  ghost predicate Deployed(env: Env, fs: seq<Facet>) {
    forall f <- fs :: f.address != ZERO_ADDRESS && env.code(f.address) && NoDup(f.selectors)
  }

  function Exposed(fs: seq<Facet>): set<Selector> {
    set f, s | f in fs && s in f.selectors :: s
  }

  // ---------------------------------------------------------------- the intended table

  /** Each facet in turn is given those of its selectors that are still free. */
  function FirstWins(t: Table, fs: seq<Facet>): Table {
    if fs == [] then t
    else
      var t1 := FirstWins(t, fs[..|fs| - 1]);
      Route(t1, Elems(fs[|fs| - 1].selectors) - t1.Keys, fs[|fs| - 1].address)
  }

  lemma ExposedSnoc(fs: seq<Facet>)
    requires fs != []
    ensures Exposed(fs) == Exposed(fs[..|fs| - 1]) + Elems(fs[|fs| - 1].selectors)
  {
    assert fs == fs[..|fs| - 1] + [fs[|fs| - 1]];
  }

  lemma {:induction false} FirstWinsKeys(t: Table, fs: seq<Facet>)
    ensures FirstWins(t, fs).Keys == t.Keys + Exposed(fs)
    decreases |fs|
  {
    if fs != [] {
      FirstWinsKeys(t, fs[..|fs| - 1]);
      ExposedSnoc(fs);
    }
  }

  /** A routed selector keeps its facet; any other goes to the first facet, in deployment order, that exposes it. */
  lemma {:induction false} FirstWinsOwner(t: Table, fs: seq<Facet>, s: Selector, i: nat)
    ensures s in t ==> s in FirstWins(t, fs) && FirstWins(t, fs)[s] == t[s]
    ensures s !in t && i < |fs| && s in fs[i].selectors && (forall j :: 0 <= j < i ==> s !in fs[j].selectors) ==>
              s in FirstWins(t, fs) && FirstWins(t, fs)[s] == fs[i].address
    decreases |fs|
  {
    if fs != [] {
      var p := fs[..|fs| - 1];
      FirstWinsOwner(t, p, s, i);
      FirstWinsKeys(t, p);
      if i == |p| && s !in t && (forall j :: 0 <= j < i ==> s !in fs[j].selectors) {
        assert s !in Exposed(p);
      }
    }
  }

  lemma {:induction false} FirstWinsConcat(t: Table, a: seq<Facet>, b: seq<Facet>)
    ensures FirstWins(t, a + b) == FirstWins(FirstWins(t, a), b)
    decreases |b|
  {
    if b == [] {
      assert a + b == a;
    } else {
      assert (a + b)[..|a + b| - 1] == a + b[..|b| - 1];
      FirstWinsConcat(t, a, b[..|b| - 1]);
    }
  }

  // ---------------------------------------------------------------- batches

  /** The cuts of one batch: an Add for every entry that still has selectors. */
  function BatchCuts(entries: seq<Facet>): seq<FacetCut> {
    if entries == [] then []
    else
      var e := entries[|entries| - 1];
      BatchCuts(entries[..|entries| - 1]) + CutIf(Add, e.address, e.selectors)
  }

  /** The entries of a batch when each facet is filtered against everything in `seen` or earlier in the batch. */
  function Tracked(seen: set<Selector>, fs: seq<Facet>): seq<Facet> {
    if fs == [] then []
    else
      var p, f := fs[..|fs| - 1], fs[|fs| - 1];
      Tracked(seen, p) + [f.(selectors := Without(f.selectors, seen + Exposed(p)))]
  }

  /** The entries of a batch when each facet is filtered against the chain as it was before the batch. */
  function Snapshot(routed: set<Selector>, fs: seq<Facet>): seq<Facet> {
    if fs == [] then []
    else
      var p, f := fs[..|fs| - 1], fs[|fs| - 1];
      Snapshot(routed, p) + [f.(selectors := Without(f.selectors, routed))]
  }

  lemma {:induction false} EntriesLength(seen: set<Selector>, fs: seq<Facet>)
    ensures |Tracked(seen, fs)| == |Snapshot(seen, fs)| == |fs|
    decreases |fs|
  {
    if fs != [] { EntriesLength(seen, fs[..|fs| - 1]); }
  }

  /** A batch is its earlier entries, then one guarded Add. */
  lemma BatchSnoc(env: Env, t: Table, entries: seq<Facet>, e: Facet, t1: Table)
    requires e.address != ZERO_ADDRESS && env.code(e.address) && NoDup(e.selectors)
    ensures ApplyCuts(env, t, BatchCuts(entries)) == Ok(t1) ==>
              ApplyCuts(env, t, BatchCuts(entries + [e])) ==
              (if Elems(e.selectors) !! t1.Keys then Ok(Route(t1, Elems(e.selectors), e.address))
               else Revert(FunctionExists))
    ensures ApplyCuts(env, t, BatchCuts(entries)) == Revert(FunctionExists) ==>
              ApplyCuts(env, t, BatchCuts(entries + [e])) == Revert(FunctionExists)
  {
    assert (entries + [e])[..|entries|] == entries;
    ApplyConcat(env, t, BatchCuts(entries), CutIf(Add, e.address, e.selectors));
    AddStep(env, t1, e.address, e.selectors);
  }

  /** A tracker that agrees with the chain makes the batch go through, with the intended table. */
  lemma {:induction false} TrackedBatch(env: Env, t: Table, fs: seq<Facet>)
    requires Deployed(env, fs)
    ensures ApplyCuts(env, t, BatchCuts(Tracked(t.Keys, fs))) == Ok(FirstWins(t, fs))
    decreases |fs|
  {
    if fs != [] {
      var p, f := fs[..|fs| - 1], fs[|fs| - 1];
      var e := f.(selectors := Without(f.selectors, t.Keys + Exposed(p)));
      TrackedBatch(env, t, p);
      FirstWinsKeys(t, p);
      assert f in fs;
      BatchSnoc(env, t, Tracked(t.Keys, p), e, FirstWins(t, p));
      assert Elems(e.selectors) == Elems(f.selectors) - FirstWins(t, p).Keys;
    }
  }

  /** No two facets of the batch expose the same free selector. */
  ghost predicate Clear(routed: set<Selector>, fs: seq<Facet>) {
    forall i :: 0 <= i < |fs| ==> (Elems(fs[i].selectors) - routed) !! Exposed(fs[..i])
  }

  lemma ClearSnoc(routed: set<Selector>, fs: seq<Facet>)
    requires fs != []
    ensures Clear(routed, fs) <==>
            Clear(routed, fs[..|fs| - 1]) && (Elems(fs[|fs| - 1].selectors) - routed) !! Exposed(fs[..|fs| - 1])
  {
    var p := fs[..|fs| - 1];
    forall i | 0 <= i < |p| ensures p[i] == fs[i] && p[..i] == fs[..i] {}
  }

  /** Filtering against a snapshot works exactly when the batch's filtered lists do not meet; then it agrees with
      the tracker. */
  lemma {:induction false} SnapshotBatch(env: Env, t: Table, fs: seq<Facet>)
    requires Deployed(env, fs)
    ensures ApplyCuts(env, t, BatchCuts(Snapshot(t.Keys, fs))) ==
            if Clear(t.Keys, fs) then Ok(FirstWins(t, fs)) else Revert(FunctionExists)
    decreases |fs|
  {
    if fs != [] {
      SnapshotBatch(env, t, fs[..|fs| - 1]);
      ClearSnoc(t.Keys, fs);
      SnapshotNext(env, t, fs, Clear(t.Keys, fs[..|fs| - 1]));
    }
  }

  lemma SnapshotNext(env: Env, t: Table, fs: seq<Facet>, clear: bool)
    requires Deployed(env, fs) && fs != []
    requires ApplyCuts(env, t, BatchCuts(Snapshot(t.Keys, fs[..|fs| - 1]))) ==
             if clear then Ok(FirstWins(t, fs[..|fs| - 1])) else Revert(FunctionExists)
    ensures ApplyCuts(env, t, BatchCuts(Snapshot(t.Keys, fs))) ==
            if clear && (Elems(fs[|fs| - 1].selectors) - t.Keys) !! Exposed(fs[..|fs| - 1])
            then Ok(FirstWins(t, fs)) else Revert(FunctionExists)
  {
    var p, f := fs[..|fs| - 1], fs[|fs| - 1];
    var e := f.(selectors := Without(f.selectors, t.Keys));
    assert f in fs;
    FirstWinsKeys(t, p);
    FreeAmong(Elems(e.selectors), Elems(f.selectors), t.Keys, Exposed(p));
    BatchSnoc(env, t, Snapshot(t.Keys, p), e, FirstWins(t, p));
  }

  lemma FreeAmong(left: set<Selector>, all: set<Selector>, routed: set<Selector>, earlier: set<Selector>)
    requires left == all - routed
    ensures left !! routed + earlier <==> all - routed !! earlier
    ensures left !! earlier ==> left == all - (routed + earlier)
  {
  }

  /** The overlap named in step 03's own note: two facets of one batch with a common free selector make it revert,
      although the tracker of the one-go script deploys the same facets without trouble. */
  lemma SharedSelectorReverts(env: Env, t: Table, fs: seq<Facet>, i: nat, j: nat, s: Selector)
    requires Deployed(env, fs) && i < j < |fs|
    requires s in fs[i].selectors && s in fs[j].selectors && s !in t
    ensures ApplyCuts(env, t, BatchCuts(Snapshot(t.Keys, fs))) == Revert(FunctionExists)
    ensures ApplyCuts(env, t, BatchCuts(Tracked(t.Keys, fs))).Ok?
  {
    SharedNotClear(t.Keys, fs, i, j, s);
    SnapshotBatch(env, t, fs);
    TrackedBatch(env, t, fs);
  }

  lemma SharedNotClear(routed: set<Selector>, fs: seq<Facet>, i: nat, j: nat, s: Selector)
    requires i < j < |fs| && s in fs[i].selectors && s in fs[j].selectors && s !in routed
    ensures !Clear(routed, fs)
  {
    assert fs[..j][i] in fs[..j];
    assert s in (Elems(fs[j].selectors) - routed) * Exposed(fs[..j]);
  }

  // ---------------------------------------------------------------- the plain process

  /** Ask the chain, cut the facet on its own, go on to the next. */
  function OneByOne(env: Env, t: Table, fs: seq<Facet>): Result<Table> {
    if fs == [] then Ok(t)
    else
      var f := fs[|fs| - 1];
      match OneByOne(env, t, fs[..|fs| - 1])
      case Revert(e) => Revert(e)
      case Ok(t1) => ApplyCuts(env, t1, CutIf(Add, f.address, Without(f.selectors, t1.Keys)))
  }

  lemma {:induction false} OneByOneIsFirstWins(env: Env, t: Table, fs: seq<Facet>)
    requires Deployed(env, fs)
    ensures OneByOne(env, t, fs) == Ok(FirstWins(t, fs))
    decreases |fs|
  {
    if fs != [] {
      var f := fs[|fs| - 1];
      OneByOneIsFirstWins(env, t, fs[..|fs| - 1]);
      var t1 := FirstWins(t, fs[..|fs| - 1]);
      assert f in fs;
      AddStep(env, t1, f.address, Without(f.selectors, t1.Keys));
      assert Elems(Without(f.selectors, t1.Keys)) == Elems(f.selectors) - t1.Keys;
    }
  }

  // ---------------------------------------------------------------- several batches

  function Flatten(batches: seq<seq<Facet>>): seq<Facet> {
    if batches == [] then [] else Flatten(batches[..|batches| - 1]) + batches[|batches| - 1]
  }

  /** The tracker and the chain after a number of tracked batches. */
  function TrackBatches(env: Env, t: Table, seen: set<Selector>, batches: seq<seq<Facet>>):
      Result<(Table, set<Selector>)>
  {
    if batches == [] then Ok((t, seen))
    else
      var b := batches[|batches| - 1];
      match TrackBatches(env, t, seen, batches[..|batches| - 1])
      case Revert(e) => Revert(e)
      case Ok((t1, seen1)) =>
        match ApplyCuts(env, t1, BatchCuts(Tracked(seen1, b)))
        case Revert(e) => Revert(e)
        case Ok(t2) => Ok((t2, seen1 + Exposed(b)))
  }

  /** Refinement: seeded with what is routed, the tracker stays equal to the routed selectors after every batch, no
      batch reverts, and the chain is what asking it before every single facet would have given. */
  lemma {:induction false} TrackerRefinesChain(env: Env, t: Table, batches: seq<seq<Facet>>)
    requires forall b <- batches :: Deployed(env, b)
    ensures var r := TrackBatches(env, t, t.Keys, batches);
            && r.Ok?
            && r.value.1 == r.value.0.Keys
            && r.value.0 == FirstWins(t, Flatten(batches))
            && OneByOne(env, t, Flatten(batches)) == Ok(r.value.0)
    decreases |batches|
  {
    if batches != [] {
      var p, b := batches[..|batches| - 1], batches[|batches| - 1];
      TrackerRefinesChain(env, t, p);
      var t1 := FirstWins(t, Flatten(p));
      assert b in batches;
      TrackedBatch(env, t1, b);
      FirstWinsKeys(t1, b);
      FirstWinsConcat(t, Flatten(p), b);
    }
    FlattenDeployed(env, batches);
    OneByOneIsFirstWins(env, t, Flatten(batches));
  }

  lemma {:induction false} FlattenDeployed(env: Env, batches: seq<seq<Facet>>)
    requires forall b <- batches :: Deployed(env, b)
    ensures Deployed(env, Flatten(batches))
    decreases |batches|
  {
    if batches != [] {
      FlattenDeployed(env, batches[..|batches| - 1]);
      assert batches[|batches| - 1] in batches;
    }
  }
}
