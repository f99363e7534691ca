/** `TrkEfficiencyDriver`: for every generator-level muon above the pT
    threshold, count the layers with simulated and with reconstructed hits,
    and, when it crossed enough layers, look for the nearest reconstructed
    track and record how well it matches. */
module TrkEfficiency {
  import opened Lcio

  const N_LAYERS: seq<nat> := [8, 8, 3, 7, 3, 4]
  const N_LAYERS_TOTAL: nat := 33
  const N_LAYERS_VTX: nat := 16
  const MCP_PDGS: seq<int> := [-13, 13]
  const MCP_PT_MIN: real := 0.1
  const N_HIT_LAYERS_MIN: nat := 4
  /** Starting value of `dR_min`. */
  const DR_START: real := 999.0
  const DR_MAX: real := 0.01
  const DPT_MAX: real := 1.0
  /** `nhits_sim` and `nhits_rec` are numpy `uint8` arrays. */
  const UINT8_RANGE: nat := 256
  /** `TMath::RadToDeg()` and `TMath::PiOver2()` as doubles. */
  const RAD_TO_DEG: real := 57.29577951308232
  const PI_OVER_2: real := 1.5707963267948966

  /** A SimTrackerHit: its identity, its CellID words and its particle. */
  datatype SimHit = SimHit(uid: int, cellID0: int, cellID1: int, particle: int)
  /** A hit relation: reconstructed hit `from`, simulated hit `to`. */
  datatype Relation = Relation(from: int, to: int)
  /** A track, through `trk_vec` at the IP, and its number of hits. */
  datatype Track = Track(pt: real, theta: real, nHits: nat)

  datatype Histo = McpPt | McpTheta | McpAbsTheta | McpAbsThetaReco | TrkPt | TrkTheta
                 | TrkDR | TrkDpt | TrkThetaPt | NTrk | NHits
  datatype Fill = Fill(histo: Histo, values: seq<real>)

  /** One sim hit of the particle: its raw global layer index and the number
      of relations pointing at it. */
  datatype Inc = Inc(raw: int, nRel: nat)

  lemma LayerTotal()
    ensures N_LAYERS_TOTAL == LayerOffset(N_LAYERS, |N_LAYERS|)
    ensures LayerOffset(N_LAYERS, 2) == N_LAYERS_VTX
  {
    LayerOffsetStep(N_LAYERS, 0);
    LayerOffsetStep(N_LAYERS, 1);
    LayerOffsetStep(N_LAYERS, 2);
    LayerOffsetStep(N_LAYERS, 3);
    LayerOffsetStep(N_LAYERS, 4);
    LayerOffsetStep(N_LAYERS, 5);
  }

  // ---------------------------------------------------------------------
  // Layer counters

  /** The number of relations whose simulated hit is `uid`. */
  function RelCount(rels: seq<Relation>, uid: int): nat
  {
    if rels == [] then 0 else RelCount(rels[..|rels| - 1], uid) + (if rels[|rels| - 1].to == uid then 1 else 0)
  }

  function IncOf(h: SimHit, colRels: seq<Relation>, iCol: nat, offset: nat, layerOf: (int, int) -> int): Inc
  {
    Inc(offset + layerOf(iCol, CellId(h.cellID0, h.cellID1)), RelCount(colRels, h.uid))
  }

  /** The counter updates one collection makes for particle `id`, in hit order. */
  function IncsOf(col: seq<SimHit>, colRels: seq<Relation>, id: int, iCol: nat, offset: nat, layerOf: (int, int) -> int): seq<Inc>
  {
    if col == [] then []
    else IncsOf(col[..|col| - 1], colRels, id, iCol, offset, layerOf)
         + (if col[|col| - 1].particle == id then [IncOf(col[|col| - 1], colRels, iCol, offset, layerOf)] else [])
  }

  /** The counter updates of all collections, collection after collection. */
  function Increments(cols: seq<seq<SimHit>>, rels: seq<seq<Relation>>, id: int, layerOf: (int, int) -> int): seq<Inc>
    requires |cols| == |rels| <= |N_LAYERS|
  {
    if cols == [] then []
    else Increments(cols[..|cols| - 1], rels[..|rels| - 1], id, layerOf)
         + IncsOf(cols[|cols| - 1], rels[|rels| - 1], id, |cols| - 1, LayerOffset(N_LAYERS, |cols| - 1), layerOf)
  }

  function Zeros(n: nat): (z: seq<int>)
    ensures |z| == n && forall k :: 0 <= k < n ==> z[k] == 0
  {
    seq(n, _ => 0)
  }

  /** `nhits_sim` and `nhits_rec` after the updates `incs`: each update indexes
      both arrays numpy-style, adds one to `nhits_sim` and one per relation to
      `nhits_rec`, both wrapping at 256. */
  function Counters(incs: seq<Inc>): (r: Outcome<(seq<int>, seq<int>)>)
    ensures r.Ok? ==> |r.value.0| == N_LAYERS_TOTAL && |r.value.1| == N_LAYERS_TOTAL
    ensures r.Raised? ==> r.error == IndexError
  {
    if incs == [] then Ok((Zeros(N_LAYERS_TOTAL), Zeros(N_LAYERS_TOTAL)))
    else
      match Counters(incs[..|incs| - 1])
      case Raised(e) => Raised(e)
      case Ok((sim, rec)) =>
        var inc := incs[|incs| - 1];
        match PyIndex(inc.raw, N_LAYERS_TOTAL)
        case None => Raised(IndexError)
        case Some(k) => Ok((sim[k := (sim[k] + 1) % UINT8_RANGE], rec[k := (rec[k] + inc.nRel) % UINT8_RANGE]))
  }

  /** The number of updates landing on counter `k`. */
  function CountAt(incs: seq<Inc>, k: nat): nat
  {
    if incs == [] then 0
    else CountAt(incs[..|incs| - 1], k) + (if PyIndex(incs[|incs| - 1].raw, N_LAYERS_TOTAL) == Some(k) then 1 else 0)
  }

  /** The number of relations counted on counter `k`. */
  function RelSumAt(incs: seq<Inc>, k: nat): nat
  {
    if incs == [] then 0
    else RelSumAt(incs[..|incs| - 1], k)
         + (if PyIndex(incs[|incs| - 1].raw, N_LAYERS_TOTAL) == Some(k) then incs[|incs| - 1].nRel else 0)
  }

  /** Counter `k` holds, modulo 256, one per sim hit and one per relation
      whose global layer is `k`; the counting raises exactly when some global
      layer index lies outside what numpy accepts. */
  lemma {:induction false} CountersCount(incs: seq<Inc>)
    ensures Counters(incs).Raised? <==> exists i :: 0 <= i < |incs| && PyIndex(incs[i].raw, N_LAYERS_TOTAL).None?
    ensures Counters(incs).Ok? ==>
              forall k :: 0 <= k < N_LAYERS_TOTAL ==>
                Counters(incs).value.0[k] == CountAt(incs, k) % UINT8_RANGE
                && Counters(incs).value.1[k] == RelSumAt(incs, k) % UINT8_RANGE
  {
    if incs != [] {
      var init := incs[..|incs| - 1];
      CountersCount(init);
      if Counters(init).Raised? {
        var i :| 0 <= i < |init| && PyIndex(init[i].raw, N_LAYERS_TOTAL).None?;
        assert incs[i] == init[i];
      } else if PyIndex(incs[|incs| - 1].raw, N_LAYERS_TOTAL).Some? {
        forall i | 0 <= i < |incs|
          ensures PyIndex(incs[i].raw, N_LAYERS_TOTAL).Some?
        {
          if i < |init| {
            assert incs[i] == init[i];
          }
        }
      }
    }
  }

  /** Counter updates come exactly from the particle's own sim hits, each with
      the number of relations pointing at it. */
  lemma {:induction false} IncsOfAreOwnHits(col: seq<SimHit>, colRels: seq<Relation>, id: int, iCol: nat, offset: nat,
                                            layerOf: (int, int) -> int)
    ensures |IncsOf(col, colRels, id, iCol, offset, layerOf)| <= |col|
    ensures forall h :: h in col && h.particle == id ==> IncOf(h, colRels, iCol, offset, layerOf) in IncsOf(col, colRels, id, iCol, offset, layerOf)
    ensures forall inc :: inc in IncsOf(col, colRels, id, iCol, offset, layerOf) ==>
              exists h :: h in col && h.particle == id && inc == IncOf(h, colRels, iCol, offset, layerOf)
  {
    if col != [] {
      IncsOfAreOwnHits(col[..|col| - 1], colRels, id, iCol, offset, layerOf);
      assert col == col[..|col| - 1] + [col[|col| - 1]];
    }
  }

  lemma {:induction false} RelCountIsMatchingRelations(rels: seq<Relation>, uid: int)
    ensures RelCount(rels, uid) == |set i | 0 <= i < |rels| && rels[i].to == uid|
  {
    if rels != [] {
      var n := |rels| - 1;
      RelCountIsMatchingRelations(rels[..n], uid);
      var before := set i | 0 <= i < n && rels[..n][i].to == uid;
      var after := set i | 0 <= i < |rels| && rels[i].to == uid;
      if rels[n].to == uid {
        assert after == before + {n};
      } else {
        assert after == before;
      }
    }
  }

  lemma {:induction false} IncsOfAppend(a: seq<SimHit>, b: seq<SimHit>, colRels: seq<Relation>, id: int, iCol: nat, offset: nat,
                                        layerOf: (int, int) -> int)
    ensures IncsOf(a + b, colRels, id, iCol, offset, layerOf) == IncsOf(a, colRels, id, iCol, offset, layerOf) + IncsOf(b, colRels, id, iCol, offset, layerOf)
    decreases |b|
  {
    if b == [] {
      assert a + b == a;
    } else {
      assert (a + b)[..|a + b| - 1] == a + b[..|b| - 1];
      IncsOfAppend(a, b[..|b| - 1], colRels, id, iCol, offset, layerOf);
    }
  }

  lemma {:induction false} IncrementsPrefix(cols: seq<seq<SimHit>>, rels: seq<seq<Relation>>, id: int,
                                            layerOf: (int, int) -> int, i: nat)
    requires |cols| == |rels| <= |N_LAYERS| && i <= |cols|
    ensures Increments(cols[..i], rels[..i], id, layerOf) <= Increments(cols, rels, id, layerOf)
    decreases |cols|
  {
    if i == |cols| {
      assert cols[..i] == cols && rels[..i] == rels;
    } else {
      var n := |cols| - 1;
      assert cols[..n][..i] == cols[..i] && rels[..n][..i] == rels[..i];
      IncrementsPrefix(cols[..n], rels[..n], id, layerOf, i);
    }
  }

  lemma IncrementsRaisedStays(cols: seq<seq<SimHit>>, rels: seq<seq<Relation>>, id: int, layerOf: (int, int) -> int, i: nat)
    requires |cols| == |rels| <= |N_LAYERS| && i <= |cols|
    requires Counters(Increments(cols[..i], rels[..i], id, layerOf)).Raised?
    ensures Counters(Increments(cols, rels, id, layerOf)) == Counters(Increments(cols[..i], rels[..i], id, layerOf))
  {
    var p := Increments(cols[..i], rels[..i], id, layerOf);
    var all := Increments(cols, rels, id, layerOf);
    IncrementsPrefix(cols, rels, id, layerOf, i);
    assert p + all[|p|..] == all;
    CountersRaisedStays(p, all[|p|..]);
  }

  lemma IncsOfRaisedStays(done: seq<Inc>, col: seq<SimHit>, i: nat, colRels: seq<Relation>, id: int, iCol: nat, offset: nat,
                          layerOf: (int, int) -> int)
    requires i <= |col| && Counters(done + IncsOf(col[..i], colRels, id, iCol, offset, layerOf)).Raised?
    ensures Counters(done + IncsOf(col, colRels, id, iCol, offset, layerOf)) == Counters(done + IncsOf(col[..i], colRels, id, iCol, offset, layerOf))
  {
    var p := done + IncsOf(col[..i], colRels, id, iCol, offset, layerOf);
    var q := IncsOf(col[i..], colRels, id, iCol, offset, layerOf);
    IncsOfAppend(col[..i], col[i..], colRels, id, iCol, offset, layerOf);
    assert col[..i] + col[i..] == col;
    CountersRaisedStays(p, q);
    assert done + IncsOf(col, colRels, id, iCol, offset, layerOf) == p + q;
  }

  lemma {:induction false} CountersRaisedStays(p: seq<Inc>, q: seq<Inc>)
    requires Counters(p).Raised?
    ensures Counters(p + q) == Counters(p)
    decreases |q|
  {
    if q == [] {
      assert p + q == p;
    } else {
      assert (p + q)[..|p + q| - 1] == p + q[..|q| - 1];
      CountersRaisedStays(p, q[..|q| - 1]);
    }
  }

  /** `len(a[a > 0])`: the number of non-zero layer counters. */
  function PositiveCount(s: seq<int>): nat
  {
    if s == [] then 0 else PositiveCount(s[..|s| - 1]) + (if s[|s| - 1] > 0 then 1 else 0)
  }

  /** The layer count is the number of layers whose counter is positive; the
      vertex-detector count, taken on the first `N_LAYERS_VTX` counters, is at
      most the full count. */
  lemma {:induction false} PositiveCountIsLayerCount(s: seq<int>)
    ensures PositiveCount(s) == |set k | 0 <= k < |s| && s[k] > 0|
  {
    if s != [] {
      var n := |s| - 1;
      PositiveCountIsLayerCount(s[..n]);
      var before := set k | 0 <= k < n && s[..n][k] > 0;
      var after := set k | 0 <= k < |s| && s[k] > 0;
      if s[n] > 0 {
        assert after == before + {n};
      } else {
        assert after == before;
      }
    }
  }

  lemma {:induction false} PositiveCountOfPrefix(s: seq<int>, i: nat)
    requires i <= |s|
    ensures PositiveCount(s[..i]) <= PositiveCount(s) && PositiveCount(s[..i]) <= i
    decreases |s|
  {
    if i == |s| {
      assert s[..i] == s;
      if s != [] {
        PositiveCountOfPrefix(s[..|s| - 1], |s| - 1);
        assert s[..|s| - 1][..|s| - 1] == s[..|s| - 1];
      }
    } else {
      assert s[..|s| - 1][..i] == s[..i];
      PositiveCountOfPrefix(s[..|s| - 1], i);
    }
  }

  // ---------------------------------------------------------------------
  // Angles and the nearest track

  /** `abstheta`: the angle to the plane perpendicular to the beam, in degrees. */
  function AbsTheta(theta: real): real
  {
    Abs(theta - PI_OVER_2) * RAD_TO_DEG
  }

  lemma AbsThetaSymmetric(d: real)
    ensures AbsTheta(PI_OVER_2 + d) == AbsTheta(PI_OVER_2 - d) >= 0.0
    ensures AbsTheta(PI_OVER_2 + d) == 0.0 <==> d == 0.0
  {
  }

  /** `theta_m`, from the polar angle in degrees. */
  function ThetaM(thetaDeg: real): real
  {
    90.0 - Abs(thetaDeg - 90.0)
  }

  /** For a polar angle in [0, 180] degrees, `theta_m` is the angle to the
      nearer beam direction, so it lies in [0, 90]. */
  lemma ThetaMIsAngleToBeam(x: real)
    requires 0.0 <= x <= 180.0
    ensures ThetaM(x) == (if x <= 180.0 - x then x else 180.0 - x)
    ensures 0.0 <= ThetaM(x) <= 90.0
  {
  }

  /** `(dR_min, trk_id)` after the search loop over `dRs`. */
  function Nearest(dRs: seq<real>): (r: (real, int))
    ensures r.1 == -1 ==> r.0 == DR_START
    ensures r.1 == -1 || (0 <= r.1 < |dRs| && r.0 == dRs[r.1])
  {
    if dRs == [] then (DR_START, -1)
    else
      var prev := Nearest(dRs[..|dRs| - 1]);
      if dRs[|dRs| - 1] < prev.0 then (dRs[|dRs| - 1], |dRs| - 1) else prev
  }

  /** The search finds the first smallest distance below 999, and no track
      when there is none. */
  lemma {:induction false} NearestIsFirstMinimum(dRs: seq<real>)
    ensures Nearest(dRs).1 == -1 <==> forall i :: 0 <= i < |dRs| ==> dRs[i] >= DR_START
    ensures Nearest(dRs).1 != -1 ==>
              && Nearest(dRs).0 < DR_START
              && (forall i :: 0 <= i < |dRs| ==> dRs[i] >= Nearest(dRs).0)
              && (forall i :: 0 <= i < Nearest(dRs).1 ==> dRs[i] > Nearest(dRs).0)
  {
    if dRs != [] {
      var init := dRs[..|dRs| - 1];
      NearestIsFirstMinimum(init);
      assert forall i :: 0 <= i < |init| ==> dRs[i] == init[i];
    }
  }

  method NearestTrack(dRs: seq<real>) returns (dRMin: real, trkId: int)
    ensures (dRMin, trkId) == Nearest(dRs)
  {
    dRMin := DR_START;
    trkId := -1;
    for iTrk := 0 to |dRs|
      invariant (dRMin, trkId) == Nearest(dRs[..iTrk])
    {
      assert dRs[..iTrk + 1][..iTrk] == dRs[..iTrk];
      var dR := dRs[iTrk];
      if dR < dRMin {
        dRMin := dR;
        trkId := iTrk;
      }
    }
    assert dRs[..|dRs|] == dRs;
  }

  // ---------------------------------------------------------------------
  // Particle and event

  predicate Preselected(m: McParticle)
  {
    m.genStatus == 1 && m.pdg in MCP_PDGS && !(m.kin.pt < MCP_PT_MIN)
  }

  /** The fills made with the re-read track `trk`, given `dR_min`. */
  function TrackFills(m: McParticle, trk: Track, dRMin: real, thetaM: real): seq<Fill>
    requires m.kin.pt >= MCP_PT_MIN
  {
    [Fill(TrkDR, [dRMin])]
    + (if dRMin > DR_MAX then []
       else
         var dpt := (trk.pt - m.kin.pt) / m.kin.pt;
         if Abs(dpt) > DPT_MAX then []
         else [Fill(McpAbsThetaReco, [thetaM]), Fill(TrkThetaPt, [thetaM, trk.pt]), Fill(TrkPt, [trk.pt]),
               Fill(TrkTheta, [trk.theta]), Fill(TrkDpt, [100.0 * dpt]), Fill(NHits, [trk.nHits as real])])
  }

  /** The track fills when the nearest track is the one re-read. */
  function NearestFills(m: McParticle, tracks: seq<Track>, dRs: seq<real>, thetaM: real): seq<Fill>
    requires |dRs| == |tracks| && m.kin.pt >= MCP_PT_MIN
  {
    var (dRMin, trkId) := Nearest(dRs);
    if trkId == -1 then [] else TrackFills(m, tracks[trkId], dRMin, thetaM)
  }

  /** The track fills as the driver makes them: after the search, the track
      re-read is the one at the loop variable's last value. */
  function NearestFillsAsWritten(m: McParticle, tracks: seq<Track>, dRs: seq<real>, thetaM: real): seq<Fill>
    requires |dRs| == |tracks| && m.kin.pt >= MCP_PT_MIN
  {
    var (dRMin, trkId) := Nearest(dRs);
    if trkId == -1 then [] else TrackFills(m, tracks[|tracks| - 1], dRMin, thetaM)
  }

  /** With the nearest track re-read, the track fills are made only when a
      track was found, always record `dR_min`, and record that track's pT
      exactly when `dR_min <= 0.01` and `|dpt| <= 1`. */
  lemma NearestFillsDescribeNearest(m: McParticle, tracks: seq<Track>, dRs: seq<real>, thetaM: real)
    requires |dRs| == |tracks| && m.kin.pt >= MCP_PT_MIN
    ensures var r := NearestFills(m, tracks, dRs, thetaM);
            var (dRMin, trkId) := Nearest(dRs);
            && (r == [] <==> forall i :: 0 <= i < |dRs| ==> dRs[i] >= DR_START)
            && (r != [] ==>
                  && r[0] == Fill(TrkDR, [dRMin]) && 0 <= trkId < |tracks|
                  && (forall i :: 0 <= i < |dRs| ==> dRs[i] >= dRMin)
                  && (Fill(TrkPt, [tracks[trkId].pt]) in r
                      <==> dRMin <= DR_MAX && Abs((tracks[trkId].pt - m.kin.pt) / m.kin.pt) <= DPT_MAX))
  {
    NearestIsFirstMinimum(dRs);
  }

  /** The re-read track need not be the nearest one: with the nearest track
      first and a second, farther one of twice the pT, the driver records
      the second track's pT. */
  lemma AsWrittenRecordsWrongTrack()
    ensures var m := McParticle(13, 1, 0.0, Vec3(0.0, 0.0, 0.0), 0.0, Kinematics(1.0, 0.0, 10.0, 10.0, 0.0, 1.0, 1.0));
            var tracks := [Track(10.0, 1.0, 5), Track(20.0, 1.0, 6)];
            var dRs := [0.001, 0.5];
            && Nearest(dRs) == (0.001, 0)
            && Fill(TrkPt, [20.0]) in NearestFillsAsWritten(m, tracks, dRs, 45.0)
            && Fill(TrkPt, [20.0]) !in NearestFills(m, tracks, dRs, 45.0)
            && Fill(TrkPt, [10.0]) in NearestFills(m, tracks, dRs, 45.0)
  {
    var dRs := [0.001, 0.5];
    assert dRs[..1] == [0.001];
    assert dRs[..1][..0] == [];
  }

  /** The code as written and the corrected code fill the same values
      exactly when the nearest track is the last one searched, or no track
      is found; in particular they agree for events with at most one track. */
  lemma AsWrittenAgreesWhenNearestIsLast(m: McParticle, tracks: seq<Track>, dRs: seq<real>, thetaM: real)
    requires |dRs| == |tracks| && m.kin.pt >= MCP_PT_MIN
    ensures (Nearest(dRs).1 == -1 || Nearest(dRs).1 == |tracks| - 1) ==>
              NearestFillsAsWritten(m, tracks, dRs, thetaM) == NearestFills(m, tracks, dRs, thetaM)
    ensures |tracks| <= 1 ==> NearestFillsAsWritten(m, tracks, dRs, thetaM) == NearestFills(m, tracks, dRs, thetaM)
  {
    NearestIsFirstMinimum(dRs);
  }

  function DRs(id: int, n: nat, deltaR: (int, int) -> real): (r: seq<real>)
    ensures |r| == n && forall i :: 0 <= i < n ==> r[i] == deltaR(id, i)
  {
    seq(n, i => deltaR(id, i))
  }

  /** One iteration of the particle loop: its fills and its contribution to
      `nmcp`. */
  function ParticleStep(ev: Event, id: int, cols: seq<seq<SimHit>>, rels: seq<seq<Relation>>, tracks: seq<Track>,
                        deltaR: (int, int) -> real, layerOf: (int, int) -> int): Outcome<(seq<Fill>, nat)>
    requires id in ev.mcps && |cols| == |rels| <= |N_LAYERS|
  {
    var m := ev.mcps[id];
    if !Preselected(m) then Ok(([], 0))
    else
      match Counters(Increments(cols, rels, id, layerOf))
      case Raised(e) => Raised(e)
      case Ok((sim, rec)) =>
        if PositiveCount(sim) < N_HIT_LAYERS_MIN then Ok(([], 1))
        else
          var thetaM := ThetaM(m.kin.theta * RAD_TO_DEG);
          var mcpFills := [Fill(McpPt, [m.kin.pt]), Fill(McpTheta, [m.kin.theta]), Fill(McpAbsTheta, [thetaM]),
                           Fill(NTrk, [|tracks| as real])];
          Ok((mcpFills + NearestFillsAsWritten(m, tracks, DRs(id, |tracks|, deltaR), thetaM), 1))
  }

  /** Only preselected muons count towards `nmcp`, and only those with sim
      hits in at least four layers make fills, starting with their own pT. */
  lemma ParticleSelection(ev: Event, id: int, cols: seq<seq<SimHit>>, rels: seq<seq<Relation>>, tracks: seq<Track>,
                          deltaR: (int, int) -> real, layerOf: (int, int) -> int)
    requires id in ev.mcps && |cols| == |rels| <= |N_LAYERS|
    requires ParticleStep(ev, id, cols, rels, tracks, deltaR, layerOf).Ok?
    ensures var (fills, n) := ParticleStep(ev, id, cols, rels, tracks, deltaR, layerOf).value;
            var m := ev.mcps[id];
            && (n == 1 <==> m.genStatus == 1 && (m.pdg == 13 || m.pdg == -13) && m.kin.pt >= MCP_PT_MIN)
            && (fills != [] <==> n == 1 && |set k | 0 <= k < N_LAYERS_TOTAL
                                                    && Counters(Increments(cols, rels, id, layerOf)).value.0[k] > 0| >= N_HIT_LAYERS_MIN)
            && (fills != [] ==> fills[0] == Fill(McpPt, [m.kin.pt]))
  {
    if Preselected(ev.mcps[id]) {
      PositiveCountIsLayerCount(Counters(Increments(cols, rels, id, layerOf)).value.0);
    }
  }

  function EventStep(ev: Event, ids: seq<int>, cols: seq<seq<SimHit>>, rels: seq<seq<Relation>>, tracks: seq<Track>,
                     deltaR: (int, int) -> real, layerOf: (int, int) -> int): Outcome<(seq<Fill>, nat)>
    requires (forall i :: 0 <= i < |ids| ==> ids[i] in ev.mcps) && |cols| == |rels| <= |N_LAYERS|
  {
    if ids == [] then Ok(([], 0))
    else
      match EventStep(ev, ids[..|ids| - 1], cols, rels, tracks, deltaR, layerOf)
      case Raised(e) => Raised(e)
      case Ok((fills, nmcp)) =>
        match ParticleStep(ev, ids[|ids| - 1], cols, rels, tracks, deltaR, layerOf)
        case Raised(e) => Raised(e)
        case Ok((more, n)) => Ok((fills + more, nmcp + n))
  }

  lemma {:induction false} EventRaisedStays(ev: Event, p: seq<int>, q: seq<int>, cols: seq<seq<SimHit>>,
                                            rels: seq<seq<Relation>>, tracks: seq<Track>,
                                            deltaR: (int, int) -> real, layerOf: (int, int) -> int)
    requires (forall i :: 0 <= i < |p| ==> p[i] in ev.mcps) && (forall i :: 0 <= i < |p + q| ==> (p + q)[i] in ev.mcps)
    requires |cols| == |rels| <= |N_LAYERS|
    requires EventStep(ev, p, cols, rels, tracks, deltaR, layerOf).Raised?
    ensures EventStep(ev, p + q, cols, rels, tracks, deltaR, layerOf) == EventStep(ev, p, cols, rels, tracks, deltaR, layerOf)
    decreases |q|
  {
    if q == [] {
      assert p + q == p;
    } else {
      assert (p + q)[..|p + q| - 1] == p + q[..|q| - 1];
      assert forall i :: 0 <= i < |p + q[..|q| - 1]| ==> (p + q[..|q| - 1])[i] == (p + q)[i];
      EventRaisedStays(ev, p, q[..|q| - 1], cols, rels, tracks, deltaR, layerOf);
    }
  }

  /** `nmcp` counts exactly the preselected muons of the event. */
  function PreselectedCount(ev: Event, ids: seq<int>): nat
    requires forall i :: 0 <= i < |ids| ==> ids[i] in ev.mcps
  {
    if ids == [] then 0 else PreselectedCount(ev, ids[..|ids| - 1]) + (if Preselected(ev.mcps[ids[|ids| - 1]]) then 1 else 0)
  }

  lemma {:induction false} NmcpCountsPreselected(ev: Event, ids: seq<int>, cols: seq<seq<SimHit>>,
                                                 rels: seq<seq<Relation>>, tracks: seq<Track>,
                                                 deltaR: (int, int) -> real, layerOf: (int, int) -> int)
    requires (forall i :: 0 <= i < |ids| ==> ids[i] in ev.mcps) && |cols| == |rels| <= |N_LAYERS|
    requires EventStep(ev, ids, cols, rels, tracks, deltaR, layerOf).Ok?
    ensures EventStep(ev, ids, cols, rels, tracks, deltaR, layerOf).value.1 == PreselectedCount(ev, ids)
  {
    if ids != [] {
      var init := ids[..|ids| - 1];
      NmcpCountsPreselected(ev, init, cols, rels, tracks, deltaR, layerOf);
    }
  }

  // ---------------------------------------------------------------------
  // Methods

  /** The relation loop for one sim hit: one more on `nhits_rec[k]` per
      relation whose target is the hit. */
  method CountRelations(colRels: seq<Relation>, uid: int, k: nat, rec: array<int>)
    requires k < rec.Length
    modifies rec
    ensures rec[..] == old(rec[..])[k := (old(rec[k]) + RelCount(colRels, uid)) % UINT8_RANGE]
  {
    ghost var start := rec[..];
    rec[k] := rec[k] % UINT8_RANGE;
    for iRel := 0 to |colRels|
      invariant rec[..] == start[k := (start[k] + RelCount(colRels[..iRel], uid)) % UINT8_RANGE]
    {
      assert colRels[..iRel + 1][..iRel] == colRels[..iRel];
      if colRels[iRel].to != uid {
        continue;
      }
      rec[k] := (rec[k] + 1) % UINT8_RANGE;
    }
    assert colRels[..|colRels|] == colRels;
  }

  /** The body of the sim-hit loop for a hit of the particle: index both
      counters at the hit's global layer and count the hit and its relations. */
  method CountHit(simHit: SimHit, colRels: seq<Relation>, iCol: nat, offset: nat, layerOf: (int, int) -> int,
                  sim: array<int>, rec: array<int>, ghost before: seq<Inc>) returns (raised: bool)
    requires sim != rec && Counters(before) == Ok((sim[..], rec[..]))
    modifies sim, rec
    ensures !raised ==> Counters(before + [IncOf(simHit, colRels, iCol, offset, layerOf)]) == Ok((sim[..], rec[..]))
    ensures raised ==> Counters(before + [IncOf(simHit, colRels, iCol, offset, layerOf)]).Raised?
  {
    ghost var now := before + [IncOf(simHit, colRels, iCol, offset, layerOf)];
    assert now[..|now| - 1] == before;
    var cellId := CellId(simHit.cellID0, simHit.cellID1);
    var layer := layerOf(iCol, cellId);
    var idx := PyIndex(offset + layer, N_LAYERS_TOTAL);
    if idx.None? {
      return true;
    }
    var k := idx.value;
    ghost var s0, r0 := sim[..], rec[..];
    sim[k] := (sim[k] + 1) % UINT8_RANGE;
    CountRelations(colRels, simHit.uid, k, rec);
    assert sim[..] == s0[k := (s0[k] + 1) % UINT8_RANGE];
    assert rec[..] == r0[k := (r0[k] + RelCount(colRels, simHit.uid)) % UINT8_RANGE];
    return false;
  }

  /** The sim-hit loop over one collection. */
  method CountCollection(col: seq<SimHit>, colRels: seq<Relation>, id: int, iCol: nat, offset: nat, layerOf: (int, int) -> int,
                         sim: array<int>, rec: array<int>, ghost done: seq<Inc>) returns (raised: Option<PyError>)
    requires sim != rec && Counters(done) == Ok((sim[..], rec[..]))
    modifies sim, rec
    ensures raised.None? ==> Counters(done + IncsOf(col, colRels, id, iCol, offset, layerOf)) == Ok((sim[..], rec[..]))
    ensures raised.Some? ==> Counters(done + IncsOf(col, colRels, id, iCol, offset, layerOf)) == Raised(raised.value)
  {
    assert done + IncsOf(col[..0], colRels, id, iCol, offset, layerOf) == done;
    for iSimHit := 0 to |col|
      invariant Counters(done + IncsOf(col[..iSimHit], colRels, id, iCol, offset, layerOf)) == Ok((sim[..], rec[..]))
    {
      ghost var before := done + IncsOf(col[..iSimHit], colRels, id, iCol, offset, layerOf);
      assert col[..iSimHit + 1][..iSimHit] == col[..iSimHit];
      var simHit := col[iSimHit];
      if simHit.particle != id {
        assert done + IncsOf(col[..iSimHit + 1], colRels, id, iCol, offset, layerOf) == before;
        continue;
      }
      ghost var now := before + [IncOf(simHit, colRels, iCol, offset, layerOf)];
      assert done + IncsOf(col[..iSimHit + 1], colRels, id, iCol, offset, layerOf) == now;
      var overflow := CountHit(simHit, colRels, iCol, offset, layerOf, sim, rec, before);
      if overflow {
        IncsOfRaisedStays(done, col, iSimHit + 1, colRels, id, iCol, offset, layerOf);
        return Some(IndexError);
      }
    }
    assert col[..|col|] == col;
    raised := None;
  }

  /** The counting part of one particle's iteration: fresh `nhits_sim` and
      `nhits_rec`, filled collection by collection. */
  method CountLayers(id: int, cols: seq<seq<SimHit>>, rels: seq<seq<Relation>>, layerOf: (int, int) -> int)
    returns (raised: Option<PyError>, sim: array<int>, rec: array<int>)
    requires |cols| == |rels| <= |N_LAYERS|
    ensures raised.None? ==> Counters(Increments(cols, rels, id, layerOf)) == Ok((sim[..], rec[..]))
    ensures raised.Some? ==> Counters(Increments(cols, rels, id, layerOf)) == Raised(raised.value)
  {
    sim := new int[N_LAYERS_TOTAL](_ => 0);
    rec := new int[N_LAYERS_TOTAL](_ => 0);
    assert sim[..] == Zeros(N_LAYERS_TOTAL) && rec[..] == Zeros(N_LAYERS_TOTAL);
    for iCol := 0 to |cols|
      invariant Counters(Increments(cols[..iCol], rels[..iCol], id, layerOf)) == Ok((sim[..], rec[..]))
    {
      assert cols[..iCol + 1][..iCol] == cols[..iCol] && rels[..iCol + 1][..iCol] == rels[..iCol];
      var layerOffset := LayerOffset(N_LAYERS, iCol);
      raised := CountCollection(cols[iCol], rels[iCol], id, iCol, layerOffset, layerOf, sim, rec,
                                Increments(cols[..iCol], rels[..iCol], id, layerOf));
      if raised.Some? {
        IncrementsRaisedStays(cols, rels, id, layerOf, iCol + 1);
        return;
      }
    }
    assert cols[..|cols|] == cols && rels[..|rels|] == rels;
    raised := None;
  }

  /** One iteration of the particle loop of `processEvent`. */
  method ProcessParticle(ev: Event, id: int, cols: seq<seq<SimHit>>, rels: seq<seq<Relation>>, tracks: seq<Track>,
                         deltaR: (int, int) -> real, layerOf: (int, int) -> int)
    returns (raised: Option<PyError>, fills: seq<Fill>, counted: nat)
    requires id in ev.mcps && |cols| == |rels| <= |N_LAYERS|
    ensures raised.None? ==> ParticleStep(ev, id, cols, rels, tracks, deltaR, layerOf) == Ok((fills, counted))
    ensures raised.Some? ==> ParticleStep(ev, id, cols, rels, tracks, deltaR, layerOf) == Raised(raised.value)
  {
    fills := [];
    var mcp := ev.mcps[id];
    if mcp.genStatus != 1 || mcp.pdg !in MCP_PDGS || mcp.kin.pt < MCP_PT_MIN {
      return None, [], 0;
    }
    counted := 1;
    var sim, rec;
    raised, sim, rec := CountLayers(id, cols, rels, layerOf);
    if raised.Some? {
      return;
    }
    assert Counters(Increments(cols, rels, id, layerOf)) == Ok((sim[..], rec[..]));
    var nlayersSim := PositiveCount(sim[..]);
    if nlayersSim < N_HIT_LAYERS_MIN {
      return None, [], 1;
    }
    var thetaM := ThetaM(mcp.kin.theta * RAD_TO_DEG);
    fills := [Fill(McpPt, [mcp.kin.pt]), Fill(McpTheta, [mcp.kin.theta]), Fill(McpAbsTheta, [thetaM]),
              Fill(NTrk, [|tracks| as real])];
    var dRs := DRs(id, |tracks|, deltaR);
    var dRMin, trkId := NearestTrack(dRs);
    if trkId == -1 {
      assert NearestFillsAsWritten(mcp, tracks, dRs, thetaM) == [];
      assert fills + NearestFillsAsWritten(mcp, tracks, dRs, thetaM) == fills;
      return;
    }
    // The track re-read is `tracks[iTrk]`, where the search loop's variable
    // kept its last value.
    var iTrk := |tracks| - 1;
    fills := fills + TrackFills(mcp, tracks[iTrk], dRMin, thetaM);
    assert NearestFillsAsWritten(mcp, tracks, dRs, thetaM) == TrackFills(mcp, tracks[iTrk], dRMin, thetaM);
  }

  /** `processEvent`: the particle loop, returning the fills and `nmcp`. */
  method ProcessEvent(ev: Event, cols: seq<seq<SimHit>>, rels: seq<seq<Relation>>, tracks: seq<Track>,
                      deltaR: (int, int) -> real, layerOf: (int, int) -> int)
    returns (raised: Option<PyError>, fills: seq<Fill>, nmcp: nat)
    requires WellFormed(ev) && |cols| == |rels| <= |N_LAYERS|
    ensures raised.None? ==> EventStep(ev, ev.order, cols, rels, tracks, deltaR, layerOf) == Ok((fills, nmcp))
    ensures raised.Some? ==> EventStep(ev, ev.order, cols, rels, tracks, deltaR, layerOf) == Raised(raised.value)
  {
    fills := [];
    nmcp := 0;
    for i := 0 to |ev.order|
      invariant EventStep(ev, ev.order[..i], cols, rels, tracks, deltaR, layerOf) == Ok((fills, nmcp))
    {
      assert ev.order[..i + 1][..i] == ev.order[..i];
      var more, n;
      raised, more, n := ProcessParticle(ev, ev.order[i], cols, rels, tracks, deltaR, layerOf);
      if raised.Some? {
        EventRaisedStays(ev, ev.order[..i + 1], ev.order[i + 1..], cols, rels, tracks, deltaR, layerOf);
        assert ev.order[..i + 1] + ev.order[i + 1..] == ev.order;
        return;
      }
      fills := fills + more;
      nmcp := nmcp + n;
    }
    assert ev.order[..|ev.order|] == ev.order;
    raised := None;
  }
}
