/** `TrkHitLoopersDriver`: for every electron or positron of an event, the
    tracker hits it made are copied into fixed-size buffers, one tree entry
    is filled, and the particle with its hits is written as an LCIO event of
    its own. */
module TrkHitLoopers {
  import opened Lcio

  /** Capacity of the per-particle hit buffers. */
  const NHITS_MAX: nat := 300

  /** A SimTrackerHit: time, position with its transverse radius, and the id
      of its MCParticle. */
  datatype TrackerHit = TrackerHit(time: real, pos: Vec3, posR: real, particle: int)

  /** Entry `iH` of the `hit_*` buffers. */
  datatype HitSlot = HitSlot(t: real, posZ: real, posX: real, posY: real, posR: real, det: int)
  const ZERO_SLOT: HitSlot := HitSlot(0.0, 0.0, 0.0, 0.0, 0.0, 0)

  /** The `mcp_*` one-element buffers; `mcp_e` is booked but never written. */
  datatype McpBranches = McpBranches(vtxZ: real, vtxX: real, vtxY: real, vtxR: real, theta: real, phi: real,
                                     t: real, beta: real, gamma: real, e: real, p: real, pt: real, pz: real,
                                     pdg: int, nhits: int)
  const ZERO_MCP: McpBranches := McpBranches(0.0, 0.0, 0.0, 0.0, 0.0, 0.0, 0.0, 0.0, 0.0, 0.0, 0.0, 0.0, 0.0, 0, 0)

  /** One tree entry: the `mcp_*` branches and the first `mcp_nhits` hit slots. */
  datatype TreeRow = TreeRow(mcp: McpBranches, hits: seq<HitSlot>)

  /** One event handed to the LCIO writer: its number and run number, the
      particle, and per collection the particle's hits. */
  datatype LcioEvent = LcioEvent(eventNumber: int, runNumber: int, particle: int, hits: seq<seq<TrackerHit>>)

  /** Everything the driver holds: the hit buffers' contents, the `mcp_*`
      buffers, the tree, the LCIO output and the `event` counter. */
  datatype Snapshot = Snapshot(buf: seq<HitSlot>, mcp: McpBranches, tree: seq<TreeRow>,
                               written: seq<LcioEvent>, event: int)

  function Zeros(n: nat): (z: seq<HitSlot>)
    ensures |z| == n && forall k :: 0 <= k < n ==> z[k] == ZERO_SLOT
  {
    seq(n, _ => ZERO_SLOT)
  }

  predicate IsElectron(m: McParticle)
  {
    m.pdg == 11 || m.pdg == -11
  }

  /** The hits of `col` made by particle `id`, in order. */
  function Matching(col: seq<TrackerHit>, id: int): seq<TrackerHit>
  {
    if col == [] then []
    else Matching(col[..|col| - 1], id) + (if col[|col| - 1].particle == id then [col[|col| - 1]] else [])
  }

  function SlotOf(h: TrackerHit, iCol: int): HitSlot
  {
    HitSlot(h.time, h.pos.z, h.pos.x, h.pos.y, h.posR, iCol)
  }

  function SlotsOf(hs: seq<TrackerHit>, iCol: int): (r: seq<HitSlot>)
    ensures |r| == |hs| && forall k :: 0 <= k < |hs| ==> r[k] == SlotOf(hs[k], iCol)
  {
    seq(|hs|, k requires 0 <= k < |hs| => SlotOf(hs[k], iCol))
  }

  /** The buffer contents the hit loops write for particle `id`: collection
      after collection, matching hit after matching hit. */
  function Slots(cols: seq<seq<TrackerHit>>, id: int): seq<HitSlot>
  {
    if cols == [] then []
    else Slots(cols[..|cols| - 1], id) + SlotsOf(Matching(cols[|cols| - 1], id), |cols| - 1)
  }

  /** `lcio_hits` after the hit loops. */
  function LcioHits(cols: seq<seq<TrackerHit>>, id: int): seq<seq<TrackerHit>>
  {
    if cols == [] then []
    else LcioHits(cols[..|cols| - 1], id) + [Matching(cols[|cols| - 1], id)]
  }

  /** The `mcp_*` buffers after a particle with `nHits` hits. */
  function McpBranchesOf(m: McParticle, nHits: int): McpBranches
  {
    McpBranches(m.vertex.z, m.vertex.x, m.vertex.y, m.vtxR, m.kin.theta, m.kin.phi, m.time,
                m.kin.beta, m.kin.gamma, 0.0, m.kin.p, m.kin.pt, m.kin.pz, m.pdg, nHits)
  }

  /** One iteration of the particle loop: the new state and whether the
      particle was kept (`nParticles += 1`). */
  function ParticleEffect(ev: Event, s: Snapshot, eventNr: int, id: int, cols: seq<seq<TrackerHit>>)
    : (r: Outcome<(Snapshot, bool)>)
    requires id in ev.mcps && |s.buf| == NHITS_MAX
    ensures r.Ok? ==> |r.value.0.buf| == NHITS_MAX
  {
    var m := ev.mcps[id];
    if !IsElectron(m) then Ok((s, false))
    else
      var slots := Slots(cols, id);
      if |slots| > NHITS_MAX then Raised(IndexError)
      else if |slots| == 0 then Ok((s.(buf := Zeros(NHITS_MAX), mcp := ZERO_MCP), false))
      else
        var mcp := McpBranchesOf(m, |slots|);
        Ok((Snapshot(slots + Zeros(NHITS_MAX - |slots|), mcp, s.tree + [TreeRow(mcp, slots)],
                     s.written + [LcioEvent(s.event, eventNr, id, LcioHits(cols, id))], s.event + 1), true))
  }

  predicate AllKnown(ev: Event, ids: seq<int>)
  {
    forall i :: 0 <= i < |ids| ==> ids[i] in ev.mcps
  }

  /** The particle loop of `processEvent` over `ids`: the final state and
      `nParticles`. */
  function EventEffect(ev: Event, s: Snapshot, eventNr: int, ids: seq<int>, cols: seq<seq<TrackerHit>>)
    : (r: Outcome<(Snapshot, nat)>)
    requires AllKnown(ev, ids) && |s.buf| == NHITS_MAX
    ensures r.Ok? ==> |r.value.0.buf| == NHITS_MAX
  {
    if ids == [] then Ok((s, 0))
    else
      match EventEffect(ev, s, eventNr, ids[..|ids| - 1], cols)
      case Raised(e) => Raised(e)
      case Ok((s', n)) =>
        match ParticleEffect(ev, s', eventNr, ids[|ids| - 1], cols)
        case Raised(e) => Raised(e)
        case Ok((s'', kept)) => Ok((s'', if kept then n + 1 else n))
  }

  /** The number of particles of `ids` that are electrons or positrons with
      at least one hit. */
  function KeptCount(ev: Event, ids: seq<int>, cols: seq<seq<TrackerHit>>): nat
    requires AllKnown(ev, ids)
  {
    if ids == [] then 0
    else
      var id := ids[|ids| - 1];
      KeptCount(ev, ids[..|ids| - 1], cols) + (if IsElectron(ev.mcps[id]) && Slots(cols, id) != [] then 1 else 0)
  }

  // ---------------------------------------------------------------------
  // Properties

  /** `Matching` is the filter on the hit's particle: it keeps exactly the
      hits of `id`, keeps their order, and distributes over concatenation. */
  lemma {:induction false} MatchingIsFilter(col: seq<TrackerHit>, id: int)
    ensures forall h :: h in Matching(col, id) <==> h in col && h.particle == id
    ensures |Matching(col, id)| <= |col|
  {
    if col != [] {
      MatchingIsFilter(col[..|col| - 1], id);
      assert col == col[..|col| - 1] + [col[|col| - 1]];
    }
  }

  lemma {:induction false} MatchingAppend(a: seq<TrackerHit>, b: seq<TrackerHit>, id: int)
    ensures Matching(a + b, id) == Matching(a, id) + Matching(b, id)
    decreases |b|
  {
    if b == [] {
      assert a + b == a;
    } else {
      assert (a + b)[..|a + b| - 1] == a + b[..|b| - 1];
      MatchingAppend(a, b[..|b| - 1], id);
    }
  }

  /** `lcio_hits[iCol]` holds the particle's hits of collection `iCol`. */
  lemma {:induction false} LcioHitsPerCollection(cols: seq<seq<TrackerHit>>, id: int)
    ensures |LcioHits(cols, id)| == |cols|
    ensures forall i :: 0 <= i < |cols| ==> LcioHits(cols, id)[i] == Matching(cols[i], id)
  {
    if cols != [] {
      LcioHitsPerCollection(cols[..|cols| - 1], id);
    }
  }

  /** The buffers hold the particle's hits collection after collection:
      the slots are `lcio_hits` flattened, each tagged with the index of its
      collection, and `mcp_nhits` is the number of the particle's hits. */
  lemma {:induction false} SlotsAreFlattenedHits(cols: seq<seq<TrackerHit>>, id: int)
    ensures |Slots(cols, id)| == |Flatten(LcioHits(cols, id))|
    ensures forall k :: 0 <= k < |Slots(cols, id)| ==>
              var sl := Slots(cols, id)[k];
              0 <= sl.det < |cols| && sl == SlotOf(Flatten(LcioHits(cols, id))[k], sl.det)
              && Flatten(LcioHits(cols, id))[k] in cols[sl.det]
  {
    if cols != [] {
      var init := cols[..|cols| - 1];
      var last := cols[|cols| - 1];
      SlotsAreFlattenedHits(init, id);
      MatchingIsFilter(last, id);
      var li := LcioHits(cols, id);
      assert li[..|li| - 1] == LcioHits(init, id);
      forall k | 0 <= k < |Slots(cols, id)|
        ensures var sl := Slots(cols, id)[k];
                0 <= sl.det < |cols| && sl == SlotOf(Flatten(li)[k], sl.det) && Flatten(li)[k] in cols[sl.det]
      {
        if k >= |Slots(init, id)| {
          var j := k - |Slots(init, id)|;
          assert Flatten(li)[k] == Matching(last, id)[j];
        } else {
          assert Flatten(li)[k] == Flatten(LcioHits(init, id))[k];
        }
      }
    }
  }

  lemma {:induction false} SlotsPrefix(cols: seq<seq<TrackerHit>>, id: int, i: nat)
    requires i <= |cols|
    ensures |Slots(cols[..i], id)| <= |Slots(cols, id)|
    decreases |cols|
  {
    if i < |cols| {
      assert cols[..|cols| - 1][..i] == cols[..i];
      SlotsPrefix(cols[..|cols| - 1], id, i);
    } else {
      assert cols[..i] == cols;
    }
  }

  /** A particle that is not an electron or positron leaves everything as it was. */
  lemma NonElectronUntouched(ev: Event, s: Snapshot, eventNr: int, id: int, cols: seq<seq<TrackerHit>>)
    requires id in ev.mcps && |s.buf| == NHITS_MAX && !IsElectron(ev.mcps[id])
    ensures ParticleEffect(ev, s, eventNr, id, cols) == Ok((s, false))
  {
  }

  /** An electron with more than `NHITS_MAX` hits overflows the buffers. */
  lemma OverflowRaises(ev: Event, s: Snapshot, eventNr: int, id: int, cols: seq<seq<TrackerHit>>)
    requires id in ev.mcps && |s.buf| == NHITS_MAX && IsElectron(ev.mcps[id])
    ensures ParticleEffect(ev, s, eventNr, id, cols).Raised? <==> |Flatten(LcioHits(cols, id))| > NHITS_MAX
    ensures ParticleEffect(ev, s, eventNr, id, cols).Raised? ==> ParticleEffect(ev, s, eventNr, id, cols).error == IndexError
  {
    SlotsAreFlattenedHits(cols, id);
  }

  /** An electron without hits clears the buffers but fills nothing, writes
      nothing and leaves `event` alone; one with hits adds exactly one tree
      entry and one LCIO event, numbered with the old `event`, which then
      grows by one. */
  lemma ElectronEffect(ev: Event, s: Snapshot, eventNr: int, id: int, cols: seq<seq<TrackerHit>>)
    requires id in ev.mcps && |s.buf| == NHITS_MAX && IsElectron(ev.mcps[id])
    requires ParticleEffect(ev, s, eventNr, id, cols).Ok?
    ensures var (s', kept) := ParticleEffect(ev, s, eventNr, id, cols).value;
            var n := |Flatten(LcioHits(cols, id))|;
            && s'.mcp.nhits == n
            && (forall k :: n <= k < NHITS_MAX ==> s'.buf[k] == ZERO_SLOT)
            && (kept <==> n > 0)
            && (n == 0 ==> s'.tree == s.tree && s'.written == s.written && s'.event == s.event)
            && (n > 0 ==> s'.tree == s.tree + [TreeRow(s'.mcp, s'.buf[..n])] && s'.event == s.event + 1
                          && s'.written == s.written + [LcioEvent(s.event, eventNr, id, LcioHits(cols, id))]
                          && s'.mcp.e == 0.0 && s'.mcp.pdg == ev.mcps[id].pdg)
  {
    SlotsAreFlattenedHits(cols, id);
    var slots := Slots(cols, id);
    assert (slots + Zeros(NHITS_MAX - |slots|))[..|slots|] == slots;
  }

  /** Over a whole event: `event`, the tree and the LCIO output each grow by
      exactly `nParticles`, which counts the electrons and positrons with at
      least one hit; earlier tree entries and LCIO events are kept. */
  lemma {:induction false} EventCounts(ev: Event, s: Snapshot, eventNr: int, ids: seq<int>, cols: seq<seq<TrackerHit>>)
    requires AllKnown(ev, ids) && |s.buf| == NHITS_MAX
    requires EventEffect(ev, s, eventNr, ids, cols).Ok?
    ensures var (s', n) := EventEffect(ev, s, eventNr, ids, cols).value;
            && n == KeptCount(ev, ids, cols)
            && s'.event == s.event + n
            && |s'.tree| == |s.tree| + n && s'.tree[..|s.tree|] == s.tree
            && |s'.written| == |s.written| + n && s'.written[..|s.written|] == s.written
  {
    if ids != [] {
      var init := ids[..|ids| - 1];
      var id := ids[|ids| - 1];
      EventCounts(ev, s, eventNr, init, cols);
      var mid := EventEffect(ev, s, eventNr, init, cols).value.0;
      if IsElectron(ev.mcps[id]) {
        ElectronEffect(ev, mid, eventNr, id, cols);
        SlotsAreFlattenedHits(cols, id);
      }
    }
  }

  /** Starting from `event == |written|` with every written event numbered by
      its position, the LCIO events stay numbered 0, 1, 2, ... */
  predicate Numbered(s: Snapshot)
  {
    s.event == |s.written| && forall k :: 0 <= k < |s.written| ==> s.written[k].eventNumber == k
  }

  lemma {:induction false} EventKeepsNumbering(ev: Event, s: Snapshot, eventNr: int, ids: seq<int>, cols: seq<seq<TrackerHit>>)
    requires AllKnown(ev, ids) && |s.buf| == NHITS_MAX && Numbered(s)
    requires EventEffect(ev, s, eventNr, ids, cols).Ok?
    ensures Numbered(EventEffect(ev, s, eventNr, ids, cols).value.0)
  {
    if ids != [] {
      var init := ids[..|ids| - 1];
      EventKeepsNumbering(ev, s, eventNr, init, cols);
    }
  }

  // ---------------------------------------------------------------------
  // The driver

  class TrkHitLoopersDriver {
    /** The `hit_*` buffers, `NHITS_MAX` entries each, one slot per index. */
    const hitBuf: array<HitSlot>
    var mcpData: McpBranches
    var tree: seq<TreeRow>
    var written: seq<LcioEvent>
    var event: int

    predicate Valid()
      reads this
    {
      hitBuf.Length == NHITS_MAX
    }

    function Snap(): Snapshot
      reads this, hitBuf
    {
      Snapshot(hitBuf[..], mcpData, tree, written, event)
    }

    /** `__init__` and `startOfData`: zeroed buffers, nothing written, `event == 0`. */
    constructor()
      ensures Valid() && Snap() == Snapshot(Zeros(NHITS_MAX), ZERO_MCP, [], [], 0)
    {
      hitBuf := new HitSlot[NHITS_MAX](_ => ZERO_SLOT);
      mcpData := ZERO_MCP;
      tree := [];
      written := [];
      event := 0;
      new;
      assert hitBuf[..] == Zeros(NHITS_MAX);
    }

    /** `clear_data`: every entry of every buffer becomes 0. */
    method ClearData()
      requires Valid()
      modifies this, hitBuf
      ensures Valid() && hitBuf[..] == Zeros(NHITS_MAX) && mcpData == ZERO_MCP
      ensures tree == old(tree) && written == old(written) && event == old(event)
    {
      mcpData := ZERO_MCP;
      for i := 0 to NHITS_MAX
        invariant forall k :: 0 <= k < i ==> hitBuf[k] == ZERO_SLOT
        invariant tree == old(tree) && written == old(written) && event == old(event) && mcpData == ZERO_MCP
      {
        hitBuf[i] := ZERO_SLOT;
      }
      assert hitBuf[..] == Zeros(NHITS_MAX);
    }

    /** The hit loop over collection `iCol`: every hit of particle `id` is
      appended to `matched` and written at the next free index; a write past
      the end raises. */
    method FillCollection(iCol: int, col: seq<TrackerHit>, id: int, nHits: nat, ghost before: seq<HitSlot>)
      returns (n: nat, overflow: bool, matched: seq<TrackerHit>)
      requires Valid() && nHits <= NHITS_MAX && hitBuf[..nHits] == before
      requires forall k :: nHits <= k < NHITS_MAX ==> hitBuf[k] == ZERO_SLOT
      modifies hitBuf
      ensures overflow <==> nHits + |Matching(col, id)| > NHITS_MAX
      ensures !overflow ==> matched == Matching(col, id) && n == nHits + |matched|
                            && hitBuf[..n] == before + SlotsOf(matched, iCol)
                            && forall k :: n <= k < NHITS_MAX ==> hitBuf[k] == ZERO_SLOT
    {
      n := nHits;
      matched := [];
      for iHit := 0 to |col|
        invariant matched == Matching(col[..iHit], id) && n == nHits + |matched| && n <= NHITS_MAX
        invariant hitBuf[..n] == before + SlotsOf(matched, iCol)
        invariant forall k :: n <= k < NHITS_MAX ==> hitBuf[k] == ZERO_SLOT
      {
        assert col[..iHit + 1][..iHit] == col[..iHit];
        var hit := col[iHit];
        if hit.particle != id {
          continue;
        }
        matched := matched + [hit];
        var iH := n;
        if iH >= NHITS_MAX {
          MatchingAppend(col[..iHit + 1], col[iHit + 1..], id);
          assert col[..iHit + 1] + col[iHit + 1..] == col;
          return n, true, matched;
        }
        hitBuf[iH] := SlotOf(hit, iCol);
        n := n + 1;
      }
      assert col[..|col|] == col;
      overflow := false;
    }

    /** One iteration of the particle loop of `processEvent`. */
    method ProcessParticle(ev: Event, eventNr: int, id: int, cols: seq<seq<TrackerHit>>)
      returns (raised: Option<PyError>, kept: bool)
      requires Valid() && id in ev.mcps
      modifies this, hitBuf
      ensures raised.None? ==> ParticleEffect(ev, old(Snap()), eventNr, id, cols) == Ok((Snap(), kept))
      ensures raised.Some? ==> ParticleEffect(ev, old(Snap()), eventNr, id, cols) == Raised(raised.value)
    {
      var mcp := ev.mcps[id];
      if mcp.pdg != 11 && mcp.pdg != -11 {
        return None, false;
      }
      ClearData();
      var nHits: nat := 0;
      var lcioHits := [];
      for iCol := 0 to |cols|
        invariant Valid() && nHits <= NHITS_MAX && hitBuf[..nHits] == Slots(cols[..iCol], id)
        invariant forall k :: nHits <= k < NHITS_MAX ==> hitBuf[k] == ZERO_SLOT
        invariant lcioHits == LcioHits(cols[..iCol], id)
        invariant mcpData == ZERO_MCP && tree == old(tree) && written == old(written) && event == old(event)
      {
        assert cols[..iCol + 1][..iCol] == cols[..iCol];
        var n, overflow, matched := FillCollection(iCol, cols[iCol], id, nHits, Slots(cols[..iCol], id));
        if overflow {
          SlotsPrefix(cols, id, iCol + 1);
          return Some(IndexError), false;
        }
        nHits := n;
        lcioHits := lcioHits + [matched];
      }
      assert cols[..|cols|] == cols;
      if nHits == 0 {
        assert hitBuf[..] == Zeros(NHITS_MAX);
        return None, false;
      }
      mcpData := McpBranchesOf(mcp, nHits);
      tree := tree + [TreeRow(mcpData, hitBuf[..nHits])];
      written := written + [LcioEvent(event, eventNr, id, lcioHits)];
      event := event + 1;
      assert hitBuf[..] == hitBuf[..nHits] + Zeros(NHITS_MAX - nHits);
      return None, true;
    }

    /** `processEvent`: the particle loop over `ids`, returning `nParticles`. */
    method ProcessEvent(ev: Event, eventNr: int, ids: seq<int>, cols: seq<seq<TrackerHit>>)
      returns (raised: Option<PyError>, nParticles: nat)
      requires Valid() && AllKnown(ev, ids)
      modifies this, hitBuf
      ensures raised.None? ==> EventEffect(ev, old(Snap()), eventNr, ids, cols) == Ok((Snap(), nParticles))
      ensures raised.Some? ==> EventEffect(ev, old(Snap()), eventNr, ids, cols) == Raised(raised.value)
    {
      ghost var start := Snap();
      nParticles := 0;
      for i := 0 to |ids|
        invariant EventEffect(ev, start, eventNr, ids[..i], cols) == Ok((Snap(), nParticles))
      {
        assert ids[..i + 1][..i] == ids[..i];
        var kept;
        raised, kept := ProcessParticle(ev, eventNr, ids[i], cols);
        if raised.Some? {
          EventRaisedStays(ev, start, eventNr, ids[..i + 1], ids[i + 1..], cols);
          assert ids[..i + 1] + ids[i + 1..] == ids;
          return;
        }
        if kept {
          nParticles := nParticles + 1;
        }
      }
      assert ids[..|ids|] == ids;
      raised := None;
    }
  }

  lemma {:induction false} EventRaisedStays(ev: Event, s: Snapshot, eventNr: int, p: seq<int>, q: seq<int>,
                                            cols: seq<seq<TrackerHit>>)
    requires AllKnown(ev, p) && AllKnown(ev, p + q) && |s.buf| == NHITS_MAX
    requires EventEffect(ev, s, eventNr, p, cols).Raised?
    ensures EventEffect(ev, s, eventNr, p + q, cols) == EventEffect(ev, s, eventNr, p, cols)
    decreases |q|
  {
    if q == [] {
      assert p + q == p;
    } else {
      assert (p + q)[..|p + q| - 1] == p + q[..|q| - 1];
      assert forall i :: 0 <= i < |p + q[..|q| - 1]| ==> (p + q[..|q| - 1])[i] == (p + q)[i];
      EventRaisedStays(ev, s, eventNr, p, q[..|q| - 1], cols);
    }
  }
}
