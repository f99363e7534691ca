/** `CalHitsMCPDriver`: one tree row per calorimeter contribution inside a
    narrow time window around T0, with the contribution's particle and its
    oldest ancestor. The branch buffers are one-element arrays that every
    step overwrites, so a row is a snapshot of whatever they hold when
    `tree.Fill()` runs. */
module CalHitsMcp {
  import opened Lcio
  import opened Provenance

  /** The accepted window of `t - T0`, in ns; both ends included. */
  const T_MAX: real := 0.3
  const T_MIN: real := -1.0

  /** The `<prefix>_*` branches of one particle (`mcp` or `mcp_bib`). The
      `e` branch is booked but never written. */
  datatype ParticleRow = ParticleRow(vtxX: real, vtxY: real, vtxZ: real, vtxR: real, pdg: int, time: real,
                                     gen: int, theta: real, phi: real, p: real, pt: real, pz: real,
                                     beta: real, gamma: real, e: real)

  /** The branch buffers; `path_len` is booked but never written. */
  datatype Row = Row(edep: real, time: real, time0: real, pathLen: real,
                     posR: real, posZ: real, posX: real, posY: real,
                     mcp: ParticleRow, mcpBib: ParticleRow,
                     layer: int, side: int, colId: int, mcpBibNiters: int)

  const ZERO_PARTICLE: ParticleRow := ParticleRow(0.0, 0.0, 0.0, 0.0, 0, 0.0, 0, 0.0, 0.0, 0.0, 0.0, 0.0, 0.0, 0.0, 0.0)
  /** The buffers as `startOfData` allocates them (`np.zeros(1)`). */
  const ZERO_ROW: Row := Row(0.0, 0.0, 0.0, 0.0, 0.0, 0.0, 0.0, 0.0, ZERO_PARTICLE, ZERO_PARTICLE, 0, 0, 0, 0)

  /** The buffers and the rows filled so far. */
  datatype State = State(data: Row, tree: seq<Row>)

  /** A SimCalorimeterHit: the two CellID words, its position with its
      transverse radius, the T0 of that position, and its contributions. */
  datatype CaloHit = CaloHit(cellID0: int, cellID1: int, pos: Vec3, posR: real, t0: real,
                             contributions: seq<Contribution>)

  /** A contribution is kept when `T_MIN <= t - T0 <= T_MAX`. */
  predicate InWindow(dt: real)
  {
    !(dt > T_MAX) && !(dt < T_MIN)
  }

  /** The `<prefix>_*` branches written from particle `m`; `e` keeps its value. */
  function ParticleRowOf(m: McParticle, e: real): ParticleRow
  {
    ParticleRow(m.vertex.x, m.vertex.y, m.vertex.z, m.vtxR, m.pdg, m.time, m.genStatus,
                m.kin.theta, m.kin.phi, m.kin.p, m.kin.pt, m.kin.pz, m.kin.beta, m.kin.gamma, e)
  }

  /** The per-hit branches, written once before the contribution loop. */
  function WithHitFields(data: Row, iCol: int, side: int, layer: int, hit: CaloHit): Row
  {
    data.(colId := iCol, side := side, layer := layer, posX := hit.pos.x, posY := hit.pos.y,
          posZ := hit.pos.z, posR := hit.posR, time0 := hit.t0)
  }

  /** The branches a contribution loop never writes. */
  predicate SameHitFields(a: Row, b: Row)
  {
    a.colId == b.colId && a.side == b.side && a.layer == b.layer && a.posX == b.posX && a.posY == b.posY
    && a.posZ == b.posZ && a.posR == b.posR && a.time0 == b.time0
  }

  /** One iteration of the contribution loop. A particle id outside the event
      is a null reference; a resolver `None` cannot be unpacked into two names. */
  function ContributionEffect(ev: Event, s: State, t0: real, c: Contribution): Outcome<State>
    requires WellFormed(ev)
  {
    var data := s.data.(time := c.time);
    if data.time - t0 > T_MAX then Ok(State(data, s.tree))
    else if data.time - t0 < T_MIN then Ok(State(data, s.tree))
    else if c.particle !in ev.mcps then Raised(AttributeError)
    else
      match OldestMcpParent(ev.parents, c.particle, 0, RECURSION_LIMIT)
      case AllSelfParents => Raised(TypeError)
      case Unbounded => Raised(RecursionError)
      case Oldest(bib, n) =>
        OldestIsKnown(ev, c.particle, 0, RECURSION_LIMIT);
        var row := data.(edep := c.energy, mcpBibNiters := n,
                         mcp := ParticleRowOf(ev.mcps[c.particle], data.mcp.e),
                         mcpBib := ParticleRowOf(ev.mcps[bib], data.mcpBib.e));
        Ok(State(row, s.tree + [row]))
  }

  function ContributionsEffect(ev: Event, s: State, t0: real, conts: seq<Contribution>): Outcome<State>
    requires WellFormed(ev)
  {
    if conts == [] then Ok(s)
    else
      match ContributionsEffect(ev, s, t0, conts[..|conts| - 1])
      case Raised(e) => Raised(e)
      case Ok(s') => ContributionEffect(ev, s', t0, conts[|conts| - 1])
  }

  /** One iteration of the hit loop of collection `iCol`; `sideOf` and
      `layerOf` are the `side` and `layer` fields of the collection's CellID
      decoder. */
  function HitEffect(ev: Event, s: State, iCol: int, hit: CaloHit, sideOf: (int, int) -> int, layerOf: (int, int) -> int): Outcome<State>
    requires WellFormed(ev)
  {
    var cellId := CellId(hit.cellID0, hit.cellID1);
    var data := WithHitFields(s.data, iCol, sideOf(iCol, cellId), layerOf(iCol, cellId), hit);
    ContributionsEffect(ev, State(data, s.tree), hit.t0, hit.contributions)
  }

  function HitsEffect(ev: Event, s: State, iCol: int, hits: seq<CaloHit>, sideOf: (int, int) -> int, layerOf: (int, int) -> int): Outcome<State>
    requires WellFormed(ev)
  {
    if hits == [] then Ok(s)
    else
      match HitsEffect(ev, s, iCol, hits[..|hits| - 1], sideOf, layerOf)
      case Raised(e) => Raised(e)
      case Ok(s') => HitEffect(ev, s', iCol, hits[|hits| - 1], sideOf, layerOf)
  }

  /** `processEvent` over the collections in order, `iCol` being each one's index. */
  function CollectionsEffect(ev: Event, s: State, cols: seq<seq<CaloHit>>, sideOf: (int, int) -> int, layerOf: (int, int) -> int): Outcome<State>
    requires WellFormed(ev)
  {
    if cols == [] then Ok(s)
    else
      match CollectionsEffect(ev, s, cols[..|cols| - 1], sideOf, layerOf)
      case Raised(e) => Raised(e)
      case Ok(s') => HitsEffect(ev, s', |cols| - 1, cols[|cols| - 1], sideOf, layerOf)
  }

  function AcceptedCount(conts: seq<Contribution>, t0: real): nat
  {
    if conts == [] then 0
    else AcceptedCount(conts[..|conts| - 1], t0) + (if InWindow(conts[|conts| - 1].time - t0) then 1 else 0)
  }

  // ---------------------------------------------------------------------
  // Properties

  /** The window is inclusive at both ends: -1 ns and 0.3 ns are kept. */
  lemma WindowIsInclusive(dt: real)
    ensures InWindow(dt) <==> -1.0 <= dt <= 0.3
  {
  }

  /** A rejected contribution cannot fail, adds no row and changes only the
      `time` branch. */
  lemma RejectedChangesOnlyTime(ev: Event, s: State, t0: real, c: Contribution)
    requires WellFormed(ev) && !InWindow(c.time - t0)
    ensures ContributionEffect(ev, s, t0, c) == Ok(State(s.data.(time := c.time), s.tree))
  {
  }

  /** An accepted contribution adds exactly one row, which is the new buffer
      content: its time and energy, the particle, its oldest ancestor and the
      number of links to it, which is 0 exactly when the particle has no
      parents. Every per-hit branch keeps its value. */
  lemma AcceptedAddsOneRow(ev: Event, s: State, t0: real, c: Contribution)
    requires WellFormed(ev) && InWindow(c.time - t0)
    requires ContributionEffect(ev, s, t0, c).Ok?
    ensures var s' := ContributionEffect(ev, s, t0, c).value;
            var res := OldestMcpParent(ev.parents, c.particle, 0, RECURSION_LIMIT);
            && s'.tree == s.tree + [s'.data]
            && c.particle in ev.mcps && res.Oldest? && res.id in ev.mcps
            && s'.data.time == c.time && s'.data.edep == c.energy
            && s'.data.mcp == ParticleRowOf(ev.mcps[c.particle], s.data.mcp.e)
            && s'.data.mcpBib == ParticleRowOf(ev.mcps[res.id], s.data.mcpBib.e)
            && s'.data.mcpBibNiters == res.depth
            && (s'.data.mcpBibNiters == 0 <==> ParentsOf(ev.parents, c.particle) == [])
            && SameHitFields(s'.data, s.data)
  {
    OldestIsKnown(ev, c.particle, 0, RECURSION_LIMIT);
    DepthZeroIffNoParents(ev.parents, c.particle, RECURSION_LIMIT);
  }

  /** An accepted contribution whose particle's parents are all itself makes
      the unpacking fail. */
  lemma AllSelfParentsFailsUnpacking(ev: Event, s: State, t0: real, c: Contribution)
    requires WellFormed(ev) && InWindow(c.time - t0) && c.particle in ev.mcps
    requires OldestMcpParent(ev.parents, c.particle, 0, RECURSION_LIMIT) == AllSelfParents
    ensures ContributionEffect(ev, s, t0, c) == Raised(TypeError)
  {
  }

  /** Over a whole contribution loop: the earlier rows are kept, exactly one
      row is added per accepted contribution, every added row lies in the
      window, and the per-hit branches are never touched. */
  lemma {:induction false} LoopAddsAcceptedRows(ev: Event, s: State, t0: real, conts: seq<Contribution>)
    requires WellFormed(ev) && ContributionsEffect(ev, s, t0, conts).Ok?
    ensures var s' := ContributionsEffect(ev, s, t0, conts).value;
            && |s'.tree| == |s.tree| + AcceptedCount(conts, t0)
            && s'.tree[..|s.tree|] == s.tree
            && SameHitFields(s'.data, s.data)
            && forall i :: |s.tree| <= i < |s'.tree| ==> InWindow(s'.tree[i].time - t0) && SameHitFields(s'.tree[i], s.data)
  {
    if conts != [] {
      var init := conts[..|conts| - 1];
      var c := conts[|conts| - 1];
      LoopAddsAcceptedRows(ev, s, t0, init);
      var mid := ContributionsEffect(ev, s, t0, init).value;
      if InWindow(c.time - t0) {
        AcceptedAddsOneRow(ev, mid, t0, c);
      } else {
        RejectedChangesOnlyTime(ev, mid, t0, c);
      }
    }
  }

  /** Every row a hit adds carries that hit's collection index, decoded side
      and layer, position and T0, and a contribution time inside the window. */
  lemma HitRowsCarryHitFields(ev: Event, s: State, iCol: int, hit: CaloHit, sideOf: (int, int) -> int, layerOf: (int, int) -> int)
    requires WellFormed(ev) && HitEffect(ev, s, iCol, hit, sideOf, layerOf).Ok?
    ensures var s' := HitEffect(ev, s, iCol, hit, sideOf, layerOf).value;
            var cellId := CellId(hit.cellID0, hit.cellID1);
            && |s'.tree| == |s.tree| + AcceptedCount(hit.contributions, hit.t0)
            && s'.tree[..|s.tree|] == s.tree
            && forall i :: |s.tree| <= i < |s'.tree| ==>
                 var r := s'.tree[i];
                 r.colId == iCol && r.side == sideOf(iCol, cellId) && r.layer == layerOf(iCol, cellId)
                 && r.time0 == hit.t0 && r.posX == hit.pos.x && r.posY == hit.pos.y && r.posZ == hit.pos.z
                 && T_MIN <= r.time - hit.t0 <= T_MAX
  {
    var cellId := CellId(hit.cellID0, hit.cellID1);
    var data := WithHitFields(s.data, iCol, sideOf(iCol, cellId), layerOf(iCol, cellId), hit);
    LoopAddsAcceptedRows(ev, State(data, s.tree), hit.t0, hit.contributions);
  }

  // ---------------------------------------------------------------------
  // The driver

  class CalHitsMcpDriver {
    var data: Row
    var tree: seq<Row>

    /** `startOfData`: zeroed buffers and an empty tree. */
    constructor()
      ensures data == ZERO_ROW && tree == []
    {
      data := ZERO_ROW;
      tree := [];
    }

    function Snapshot(): State
      reads this
    {
      State(data, tree)
    }

    /** One contribution; `raised` is the exception it throws, if any. */
    method ProcessContribution(ev: Event, t0: real, c: Contribution) returns (raised: Option<PyError>)
      requires WellFormed(ev)
      modifies this
      ensures raised.None? ==> ContributionEffect(ev, old(Snapshot()), t0, c) == Ok(Snapshot())
      ensures raised.Some? ==> ContributionEffect(ev, old(Snapshot()), t0, c) == Raised(raised.value)
    {
      data := data.(time := c.time);
      if data.time - t0 > T_MAX {
        return None;
      }
      if data.time - t0 < T_MIN {
        return None;
      }
      data := data.(edep := c.energy);
      if c.particle !in ev.mcps {
        return Some(AttributeError);
      }
      var mcp := ev.mcps[c.particle];
      var res := OldestMcpParent(ev.parents, c.particle, 0, RECURSION_LIMIT);
      match res
      case AllSelfParents =>
        return Some(TypeError);
      case Unbounded =>
        return Some(RecursionError);
      case Oldest(bibId, niters) =>
        OldestIsKnown(ev, c.particle, 0, RECURSION_LIMIT);
        var mcpBib := ev.mcps[bibId];
        data := data.(mcpBibNiters := niters);
        data := data.(mcp := ParticleRowOf(mcp, data.mcp.e));
        data := data.(mcpBib := ParticleRowOf(mcpBib, data.mcpBib.e));
        tree := tree + [data];
        return None;
    }

    /** One hit: the per-hit branches, then the contribution loop. */
    method ProcessHit(ev: Event, iCol: int, hit: CaloHit, sideOf: (int, int) -> int, layerOf: (int, int) -> int)
      returns (raised: Option<PyError>)
      requires WellFormed(ev)
      modifies this
      ensures raised.None? ==> HitEffect(ev, old(Snapshot()), iCol, hit, sideOf, layerOf) == Ok(Snapshot())
      ensures raised.Some? ==> HitEffect(ev, old(Snapshot()), iCol, hit, sideOf, layerOf) == Raised(raised.value)
    {
      var cellId := CellId(hit.cellID0, hit.cellID1);
      data := data.(colId := iCol);
      data := data.(side := sideOf(iCol, cellId));
      data := data.(layer := layerOf(iCol, cellId));
      data := data.(posX := hit.pos.x, posY := hit.pos.y, posZ := hit.pos.z, posR := hit.posR);
      data := data.(time0 := hit.t0);
      ghost var start := Snapshot();
      var conts := hit.contributions;
      for iC := 0 to |conts|
        invariant ContributionsEffect(ev, start, hit.t0, conts[..iC]) == Ok(Snapshot())
      {
        assert conts[..iC + 1][..iC] == conts[..iC];
        raised := ProcessContribution(ev, hit.t0, conts[iC]);
        if raised.Some? {
          ContributionsRaisedStays(ev, start, hit.t0, conts[..iC + 1], conts[iC + 1..]);
          assert conts[..iC + 1] + conts[iC + 1..] == conts;
          return;
        }
      }
      assert conts[..|conts|] == conts;
      raised := None;
    }

    /** `processEvent`: every hit of every collection, in order. */
    method ProcessEvent(ev: Event, cols: seq<seq<CaloHit>>, sideOf: (int, int) -> int, layerOf: (int, int) -> int)
      returns (raised: Option<PyError>)
      requires WellFormed(ev)
      modifies this
      ensures raised.None? ==> CollectionsEffect(ev, old(Snapshot()), cols, sideOf, layerOf) == Ok(Snapshot())
      ensures raised.Some? ==> CollectionsEffect(ev, old(Snapshot()), cols, sideOf, layerOf) == Raised(raised.value)
    {
      ghost var start := Snapshot();
      for iCol := 0 to |cols|
        invariant CollectionsEffect(ev, start, cols[..iCol], sideOf, layerOf) == Ok(Snapshot())
      {
        assert cols[..iCol + 1][..iCol] == cols[..iCol];
        ghost var colStart := Snapshot();
        var col := cols[iCol];
        for iHit := 0 to |col|
          invariant HitsEffect(ev, colStart, iCol, col[..iHit], sideOf, layerOf) == Ok(Snapshot())
        {
          assert col[..iHit + 1][..iHit] == col[..iHit];
          raised := ProcessHit(ev, iCol, col[iHit], sideOf, layerOf);
          if raised.Some? {
            HitsRaisedStays(ev, colStart, iCol, col[..iHit + 1], col[iHit + 1..], sideOf, layerOf);
            assert col[..iHit + 1] + col[iHit + 1..] == col;
            CollectionsRaisedStays(ev, start, cols[..iCol + 1], cols[iCol + 1..], sideOf, layerOf);
            assert cols[..iCol + 1] + cols[iCol + 1..] == cols;
            return;
          }
        }
        assert col[..|col|] == col;
      }
      assert cols[..|cols|] == cols;
      raised := None;
    }
  }

  lemma {:induction false} ContributionsRaisedStays(ev: Event, s: State, t0: real, p: seq<Contribution>, q: seq<Contribution>)
    requires WellFormed(ev) && ContributionsEffect(ev, s, t0, p).Raised?
    ensures ContributionsEffect(ev, s, t0, p + q) == ContributionsEffect(ev, s, t0, p)
    decreases |q|
  {
    if q == [] {
      assert p + q == p;
    } else {
      assert (p + q)[..|p + q| - 1] == p + q[..|q| - 1];
      ContributionsRaisedStays(ev, s, t0, p, q[..|q| - 1]);
    }
  }

  lemma {:induction false} HitsRaisedStays(ev: Event, s: State, iCol: int, p: seq<CaloHit>, q: seq<CaloHit>,
                                           sideOf: (int, int) -> int, layerOf: (int, int) -> int)
    requires WellFormed(ev) && HitsEffect(ev, s, iCol, p, sideOf, layerOf).Raised?
    ensures HitsEffect(ev, s, iCol, p + q, sideOf, layerOf) == HitsEffect(ev, s, iCol, p, sideOf, layerOf)
    decreases |q|
  {
    if q == [] {
      assert p + q == p;
    } else {
      assert (p + q)[..|p + q| - 1] == p + q[..|q| - 1];
      HitsRaisedStays(ev, s, iCol, p, q[..|q| - 1], sideOf, layerOf);
    }
  }

  lemma {:induction false} CollectionsRaisedStays(ev: Event, s: State, p: seq<seq<CaloHit>>, q: seq<seq<CaloHit>>,
                                                  sideOf: (int, int) -> int, layerOf: (int, int) -> int)
    requires WellFormed(ev) && CollectionsEffect(ev, s, p, sideOf, layerOf).Raised?
    ensures CollectionsEffect(ev, s, p + q, sideOf, layerOf) == CollectionsEffect(ev, s, p, sideOf, layerOf)
    decreases |q|
  {
    if q == [] {
      assert p + q == p;
    } else {
      assert (p + q)[..|p + q| - 1] == p + q[..|q| - 1];
      CollectionsRaisedStays(ev, s, p, q[..|q| - 1], sideOf, layerOf);
    }
  }
}
