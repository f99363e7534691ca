/** `get_oldest_mcp_parent`, of which the drivers carry five copies: three
    return the oldest particle, two also count the parent links followed
    (`nIters`). One definition with the counter covers both; the copies
    without it discard the depth. */
module Provenance {
  import opened Lcio

  /** What a call returns. `AllSelfParents` is Python's implicit `None`: the
      parent list is not empty but every entry is the particle itself.
      `Unbounded` stands for a recursion that did not end within the fuel. */
  datatype Resolution = Oldest(id: int, depth: nat) | AllSelfParents | Unbounded

  /** Stand-in for CPython's recursion limit: deeper parent chains raise. */
  const RECURSION_LIMIT: nat := 1000

  function ParentsOf(g: ParentMap, p: int): seq<int>
  {
    if p in g then g[p] else []
  }

  /** Position of the first entry of `pars` that is not `p` itself, or `|pars|`. */
  function FirstNonSelfIndex(pars: seq<int>, p: int): (k: nat)
    ensures k <= |pars|
    ensures forall j :: 0 <= j < k ==> pars[j] == p
    ensures k < |pars| ==> pars[k] != p
  {
    if pars == [] || pars[0] != p then 0 else 1 + FirstNonSelfIndex(pars[1..], p)
  }

  /** The parent the loop `for par in pars: if par is mcp: continue; return ...`
      recurses into, if any. */
  function Next(g: ParentMap, p: int): Option<int>
  {
    var pars := ParentsOf(g, p);
    var k := FirstNonSelfIndex(pars, p);
    if k < |pars| then Some(pars[k]) else None
  }

  /** The particle reached after following `k` first-non-self parent links. */
  function Follow(g: ParentMap, p: int, k: nat): Option<int>
    decreases k
  {
    if k == 0 then Some(p)
    else match Next(g, p)
      case None => None
      case Some(q) => Follow(g, q, k - 1)
  }

  /** `get_oldest_mcp_parent(mcp, nIters)` with at most `fuel` recursive calls.
      A result `Oldest(r, d)` is a particle without parents reached by
      following exactly `d - nIters` first-non-self links. */
  function OldestMcpParent(g: ParentMap, mcp: int, nIters: nat, fuel: nat): (r: Resolution)
    decreases fuel
    ensures r.Oldest? ==> ParentsOf(g, r.id) == [] && r.depth >= nIters
    ensures r.Oldest? ==> Follow(g, mcp, r.depth - nIters) == Some(r.id)
  {
    var pars := ParentsOf(g, mcp);
    if |pars| < 1 then Oldest(mcp, nIters)
    else match Next(g, mcp)
      case None => AllSelfParents
      case Some(par) =>
        if fuel == 0 then Unbounded else OldestMcpParent(g, par, nIters + 1, fuel - 1)
  }

  /** A particle without parents is its own oldest parent, at the depth it was
      reached with. */
  lemma NoParentsIsOwnOldest(g: ParentMap, mcp: int, nIters: nat, fuel: nat)
    requires ParentsOf(g, mcp) == []
    ensures OldestMcpParent(g, mcp, nIters, fuel) == Oldest(mcp, nIters)
  {
  }

  /** When every parent is the particle itself the loop falls through and the
      function returns `None`, not the particle. */
  lemma AllSelfParentsIsNone(g: ParentMap, mcp: int, nIters: nat, fuel: nat)
    requires |ParentsOf(g, mcp)| > 0
    requires forall j :: 0 <= j < |ParentsOf(g, mcp)| ==> ParentsOf(g, mcp)[j] == mcp
    ensures OldestMcpParent(g, mcp, nIters, fuel) == AllSelfParents
  {
  }

  /** Resolving a result again returns it unchanged, at depth 0. */
  lemma OldestIsIdempotent(g: ParentMap, mcp: int, fuel: nat, fuel': nat)
    requires OldestMcpParent(g, mcp, 0, fuel).Oldest?
    ensures var r := OldestMcpParent(g, mcp, 0, fuel).id;
            OldestMcpParent(g, r, 0, fuel') == Oldest(r, 0)
  {
  }

  /** Starting from `nIters = 0`, the depth is 0 exactly when the particle has
      no parents. */
  lemma DepthZeroIffNoParents(g: ParentMap, mcp: int, fuel: nat)
    requires OldestMcpParent(g, mcp, 0, fuel).Oldest?
    ensures OldestMcpParent(g, mcp, 0, fuel).depth == 0 <==> ParentsOf(g, mcp) == []
  {
  }

  /** The depth counts links: a chain of `k` first-non-self links ending at a
      particle without parents resolves to that particle at depth `nIters + k`,
      provided the fuel allows `k` recursive calls. */
  lemma {:induction false} ChainResolves(g: ParentMap, mcp: int, k: nat, root: int, nIters: nat, fuel: nat)
    requires Follow(g, mcp, k) == Some(root) && ParentsOf(g, root) == []
    requires k <= fuel
    ensures OldestMcpParent(g, mcp, nIters, fuel) == Oldest(root, nIters + k)
    decreases k
  {
    if k > 0 {
      var q := Next(g, mcp).value;
      ChainResolves(g, q, k - 1, root, nIters + 1, fuel - 1);
    }
  }

  /** Fuel beyond what a call needed changes nothing: a call that returned
      returns the same with more fuel. */
  lemma {:induction false} MoreFuelSameResult(g: ParentMap, mcp: int, nIters: nat, fuel: nat, fuel': nat)
    requires fuel <= fuel'
    requires OldestMcpParent(g, mcp, nIters, fuel) != Unbounded
    ensures OldestMcpParent(g, mcp, nIters, fuel') == OldestMcpParent(g, mcp, nIters, fuel)
    decreases fuel
  {
    if |ParentsOf(g, mcp)| >= 1 && Next(g, mcp).Some? {
      MoreFuelSameResult(g, Next(g, mcp).value, nIters + 1, fuel - 1, fuel' - 1);
    }
  }

  /** Running out of fuel means the chain really is that long: `fuel + 1`
      links can be followed from the particle. */
  lemma {:induction false} UnboundedMeansLongChain(g: ParentMap, mcp: int, nIters: nat, fuel: nat)
    requires OldestMcpParent(g, mcp, nIters, fuel) == Unbounded
    ensures Follow(g, mcp, fuel + 1).Some?
    decreases fuel
  {
    var q := Next(g, mcp).value;
    if fuel > 0 {
      UnboundedMeansLongChain(g, q, nIters + 1, fuel - 1);
    }
  }

  /** Two particles that are each other's first non-self parent make the
      recursion endless: no amount of fuel resolves them. */
  lemma {:induction false} TwoCycleNeverResolves(g: ParentMap, a: int, b: int, nIters: nat, fuel: nat)
    requires Next(g, a) == Some(b) && Next(g, b) == Some(a)
    ensures OldestMcpParent(g, a, nIters, fuel) == Unbounded
    ensures OldestMcpParent(g, b, nIters, fuel) == Unbounded
    decreases fuel
  {
    if fuel > 0 {
      TwoCycleNeverResolves(g, a, b, nIters + 1, fuel - 1);
    }
  }

  /** Only the first non-self parent matters: two parent maps that agree on
      which parent each particle recurses into (and on which particles have no
      parents) resolve every particle identically, whatever the later
      parents are. */
  lemma {:induction false} OnlyFirstNonSelfParentMatters(g: ParentMap, h: ParentMap, mcp: int, nIters: nat, fuel: nat)
    requires forall x :: (ParentsOf(g, x) == []) == (ParentsOf(h, x) == [])
    requires forall x :: Next(g, x) == Next(h, x)
    ensures OldestMcpParent(g, mcp, nIters, fuel) == OldestMcpParent(h, mcp, nIters, fuel)
    decreases fuel
  {
    if fuel > 0 && Next(g, mcp).Some? {
      OnlyFirstNonSelfParentMatters(g, h, Next(g, mcp).value, nIters + 1, fuel - 1);
    }
  }

  /** Appending or changing parents after the first non-self one leaves the
      particle's recursion target unchanged. */
  lemma LaterParentsIgnored(g: ParentMap, p: int, rest: seq<int>)
    requires FirstNonSelfIndex(ParentsOf(g, p), p) < |ParentsOf(g, p)|
    ensures var k := FirstNonSelfIndex(ParentsOf(g, p), p);
            var h := g[p := ParentsOf(g, p)[..k + 1] + rest];
            Next(h, p) == Next(g, p) && ParentsOf(h, p) != []
  {
    var pars := ParentsOf(g, p);
    var k := FirstNonSelfIndex(pars, p);
    var h := g[p := pars[..k + 1] + rest];
    var pars' := ParentsOf(h, p);
    assert pars'[..k + 1] == pars[..k + 1];
    FirstNonSelfIndexOfPrefix(pars, pars', p, k);
  }

  lemma {:induction false} FirstNonSelfIndexOfPrefix(a: seq<int>, b: seq<int>, p: int, k: nat)
    requires k < |a| && k < |b| && a[..k + 1] == b[..k + 1]
    requires FirstNonSelfIndex(a, p) == k
    ensures FirstNonSelfIndex(b, p) == k
    decreases k
  {
    if k > 0 {
      assert a[0] == a[..k + 1][0] == b[..k + 1][0] == b[0];
      assert a[1..][..k] == b[1..][..k] by {
        assert a[1..][..k] == a[..k + 1][1..];
        assert b[1..][..k] == b[..k + 1][1..];
      }
      FirstNonSelfIndexOfPrefix(a[1..], b[1..], p, k - 1);
    } else {
      assert b[0] == b[..1][0] == a[..1][0] == a[0];
    }
  }

  /** In a well-formed event the oldest parent is a particle of the event. */
  lemma {:induction false} OldestIsKnown(ev: Event, mcp: int, nIters: nat, fuel: nat)
    requires WellFormed(ev) && mcp in ev.mcps
    requires OldestMcpParent(ev.parents, mcp, nIters, fuel).Oldest?
    ensures OldestMcpParent(ev.parents, mcp, nIters, fuel).id in ev.mcps
    decreases fuel
  {
    if |ParentsOf(ev.parents, mcp)| >= 1 {
      var q := Next(ev.parents, mcp).value;
      var k := FirstNonSelfIndex(ParentsOf(ev.parents, mcp), mcp);
      assert ev.parents[mcp][k] == q;
      OldestIsKnown(ev, q, nIters + 1, fuel - 1);
    }
  }
}
