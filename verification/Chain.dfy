/**
 What all scripts share: where contracts come from, the manifest, and the helpers that talk to a diamond.
 */
module Chain {
  import opened Routing
  import opened DiamondStorage
  import opened Plans
  import opened Deploys
  import opened Upgrades

  /** Where contracts come from: every deployment gets the next address. */
  class Network {
    var deployed: nat

    method DeployContract() returns (a: Address)
      modifies this
      ensures a == deployed == old(deployed) + 1
    {
      deployed := deployed + 1;
      a := deployed;
    }
  }

  /** The deployment manifest, as far as facets and upgrades go. */
  class Manifest {
    var facets: Facets
    var upgrades: seq<Entry>

    constructor ()
      ensures facets == map[] && upgrades == []
    {
      facets, upgrades := map[], [];
    }

    method RecordFacet(name: string, address: Address, selectors: seq<Selector>)
      modifies this`facets
      ensures facets == old(facets)[name := Record(address, selectors)]
    {
      facets := facets[name := Record(address, selectors)];
    }
  }

  /** What a transaction sees after `deployed` deployments: exactly the addresses handed out have code. */
  function EnvOf(self: Address, deployed: nat): Env {
    Env(self, a => 1 <= a <= deployed)
  }

  ghost function StateOf(d: Diamond, m: Manifest, net: Network): State
    reads d, m, net
  {
    State(d.Table(), m.facets, m.upgrades, net.deployed)
  }

  /** A live diamond: its storage is consistent and no selector is routed to the diamond itself. */
  ghost predicate Live(d: Diamond, net: Network)
    reads d, net
  {
    d.Valid() && 0 < d.self <= net.deployed && d.self !in d.Table().Values
  }

  lemma EnvSelf(self: Address, deployed: nat)
    ensures EnvOf(self, deployed).self == self
  {
  }

  lemma LiveMeans(d: Diamond, net: Network)
    requires Live(d, net)
    ensures d.Valid() && 0 < d.self <= net.deployed && d.self !in d.Table().Values
  {
  }

  lemma StillLive(d: Diamond, net: Network)
    requires d.Valid() && 0 < d.self <= net.deployed && d.self !in d.Table().Values
    ensures Live(d, net)
  {
  }

  lemma StateIs(d: Diamond, m: Manifest, net: Network)
    ensures StateOf(d, m, net) == State(d.Table(), m.facets, m.upgrades, net.deployed)
  {
  }

  lemma PerformsMeans(d: Diamond, r: Result<()>, spec: Result<Table>)
    requires d.Performs(r, spec)
    ensures r.Ok? <==> spec.Ok?
    ensures r.Revert? ==> r.reason == spec.reason
    ensures r.Ok? ==> d.Valid() && d.Table() == spec.value
  {
  }

  /** A compiled contract to be deployed: its name and the selectors of its interface. */
  datatype Contract = Contract(name: string, abi: seq<Selector>)

  /** The facets that deploying the contracts one after the other yields. */
  function FacetsAt(deployed: nat, cs: seq<Contract>): (fs: seq<Facet>)
    ensures |fs| == |cs|
    ensures forall i :: 0 <= i < |cs| ==> fs[i] == Facet(cs[i].name, deployed + i + 1, cs[i].abi)
  {
    if cs == [] then []
    else FacetsAt(deployed, cs[..|cs| - 1]) + [Facet(cs[|cs| - 1].name, deployed + |cs|, cs[|cs| - 1].abi)]
  }

  /** Every address in the table and in the manifest has been handed out. */
  ghost predicate HandedOut(t: Table, fs: Facets, deployed: nat) {
    && (forall s <- t :: 0 < t[s] <= deployed)
    && (forall n <- fs :: 0 < fs[n].address <= deployed)
  }

  ghost predicate DistinctNames(cs: seq<Contract>) {
    forall i, j :: 0 <= i < j < |cs| ==> cs[i].name != cs[j].name
  }

  /** The manifest is exact for `t` and mentions no address that was not handed out. */
  ghost predicate Indexing(t: Table, fs: Facets, deployed: nat) {
    Indexes(fs, t) && HandedOut(t, fs, deployed)
  }

  /** A facet with its own new address, of selectors not routed yet, recorded under a new name. */
  lemma IndexingNext(t: Table, fs: Facets, deployed: nat, e: Facet)
    requires Indexing(t, fs, deployed) && Elems(e.selectors) !! t.Keys
    requires e.address == deployed + 1 && e.name !in fs
    ensures Indexing(Route(t, Elems(e.selectors), e.address), fs[e.name := Record(e.address, e.selectors)], e.address)
  {
    assert Owned(t, e.address) == {};
    RecordNew(fs, t, e.name, e.address, e.selectors);
    StagedAddresses(t, fs, e.name, e.address, e.selectors, deployed);
  }

  lemma StagedAddresses(t: Table, fs: Facets, name: string, a: Address, sels: seq<Selector>, deployed: nat)
    requires HandedOut(t, fs, deployed) && a == deployed + 1
    ensures HandedOut(Route(t, Elems(sels), a), fs[name := Record(a, sels)], a)
  {
  }

  /** Contracts a batch can take: names of their own, not yet recorded, and selectors without repetition. */
  ghost predicate Acceptable(recorded: set<string>, cs: seq<Contract>) {
    DistinctNames(cs) && forall c <- cs :: c.name !in recorded && NoDup(c.abi)
  }

  // ---------------------------------------------------------------- the shared helpers

  lemma {:induction false} WithoutSnoc(l: seq<Selector>, s: Selector, excluded: set<Selector>)
    ensures Without(l + [s], excluded) == Without(l, excluded) + (if s in excluded then [] else [s])
    decreases |l|
  {
    if l == [] {
      assert [s][1..] == [];
    } else {
      hide NoDup;
      assert (l + [s])[1..] == l[1..] + [s];
      WithoutSnoc(l[1..], s, excluded);
      var head, tail := if l[0] in excluded then [] else [l[0]], if s in excluded then [] else [s];
      assert head + (Without(l[1..], excluded) + tail) == head + Without(l[1..], excluded) + tail;
    }
  }

  /** `filterNewSelectors`: what the chain does not route yet, in order. */
  method FilterNewSelectors(selectors: seq<Selector>, d: Diamond) returns (l: seq<Selector>)
    requires d.Valid()
    ensures l == Without(selectors, d.Table().Keys)
  {
    l := [];
    for i := 0 to |selectors|
      invariant l == Without(selectors[..i], d.Table().Keys)
    {
      var a := d.FacetAddress(selectors[i]);
      if a == ZERO_ADDRESS { l := l + [selectors[i]]; }
      WithoutSnoc(selectors[..i], selectors[i], d.Table().Keys);
      assert selectors[..i + 1] == selectors[..i] + [selectors[i]];
    }
    assert selectors[..|selectors|] == selectors;
  }

  /** `batchDiamondCut`: one transaction for all entries that have selectors, none at all if no entry has. */
  method BatchDiamondCut(d: Diamond, net: Network, entries: seq<Facet>) returns (r: Result<()>)
    requires d.Valid()
    modifies d
    ensures d.Valid()
    ensures ApplyCuts(EnvOf(d.self, net.deployed), old(d.Table()), BatchCuts(entries)) ==
            if r.Ok? then Ok(d.Table()) else Revert(r.reason)
    ensures r.Revert? ==> unchanged(d)
  {
    var cuts := BatchCuts(entries);
    if |cuts| == 0 { return Ok(()); }
    r := d.DiamondCut(cuts, EnvOf(d.self, net.deployed));
  }

  lemma EmptyList(l: seq<Selector>)
    ensures l == [] <==> Elems(l) == {}
  {
    if l != [] { assert l[0] in Elems(l); }
  }

  function Names(cs: seq<Contract>): set<string> {
    set c | c in cs :: c.name
  }

  lemma NamesSnoc(cs: seq<Contract>, recorded: set<string>)
    requires cs != [] && DistinctNames(cs)
    ensures recorded + Names(cs) == recorded + Names(cs[..|cs| - 1]) + {cs[|cs| - 1].name}
    ensures cs[|cs| - 1].name !in Names(cs[..|cs| - 1]) && DistinctNames(cs[..|cs| - 1])
  {
    var p := cs[..|cs| - 1];
    assert cs == p + [cs[|cs| - 1]];
    forall c | c in p ensures c.name != cs[|cs| - 1].name {
      var j :| 0 <= j < |p| && p[j] == c;
    }
  }

  lemma FacetsAtDeployed(env: Env, n: nat, cs: seq<Contract>)
    requires env == EnvOf(env.self, n + |cs|) && forall c <- cs :: NoDup(c.abi)
    ensures Deployed(env, FacetsAt(n, cs))
  {
    var fs := FacetsAt(n, cs);
    forall f | f in fs ensures f.address != ZERO_ADDRESS && env.code(f.address) && NoDup(f.selectors) {
      var i :| 0 <= i < |cs| && fs[i] == f;
      assert cs[i] in cs;
    }
  }

  /** The transaction, unless there is nothing to cut. */
  method Execute(d: Diamond, net: Network, cuts: seq<FacetCut>) returns (r: Result<()>)
    requires d.Valid()
    modifies d
    ensures d.Valid()
    ensures ApplyCuts(EnvOf(d.self, net.deployed), old(d.Table()), cuts) ==
            if r.Ok? then Ok(d.Table()) else Revert(r.reason)
    ensures r.Revert? ==> unchanged(d)
  {
    if |cuts| == 0 { return Ok(()); }
    r := d.DiamondCut(cuts, EnvOf(d.self, net.deployed));
  }
}
