/** `HitsTimingDriver.processEvent`: hit time relative to the flight time T0
    and hit energy summed inside nested time windows, for tracker,
    calorimeter and muon-system hits. */
module SimHitsTiming {
  import opened Lcio

  /** `TIME_CUTS`, in nanoseconds, loosest first. */
  const TIME_CUTS: seq<real> := [100.0, 10.0, 5.0, 2.0]
  /** Initial `hit_time` of the multi-contribution branch. */
  const SENTINEL_TIME: real := 1000000000.0
  const GEV_TO_MEV: real := 1000.0

  datatype ColType = Trk | Cal | Muo

  /** The histograms of one collection type; `HitETlt(c)` is `hit_e_tlt<c>`. */
  datatype Histo = HitTime | HitTimeMt0 | HitTimeMt0E | HitETlt(cut: real) | HitZyTlt(cut: real)

  /** One `Fill` call: the histogram and the values passed to it. */
  datatype Fill = Fill(col: ColType, histo: Histo, values: seq<real>)

  /** A SimTrackerHit: its time, deposited energy in GeV, the flight time T0
      of its position, and the Z and Y of that position. */
  datatype TrackerHit = TrackerHit(time: real, eDep: real, t0: real, z: real, y: real)

  /** A SimCalorimeterHit: total energy in GeV, T0, Z, Y and the contributions. */
  datatype CaloHit = CaloHit(energy: real, t0: real, z: real, y: real, contributions: seq<Contribution>)

  predicate StrictlyDescending(s: seq<real>)
  {
    forall i, j :: 0 <= i < j < |s| ==> s[i] > s[j]
  }

  lemma TimeCutsDescending()
    ensures StrictlyDescending(TIME_CUTS)
  {
  }

  /** The cuts `c` with `dt <= c`, in their order. */
  function CutsWithin(cuts: seq<real>, dt: real): (r: seq<real>)
    ensures forall c :: c in r <==> c in cuts && dt <= c
  {
    if cuts == [] then []
    else (if dt <= cuts[0] then [cuts[0]] else []) + CutsWithin(cuts[1..], dt)
  }

  lemma {:induction false} NoneWithin(cuts: seq<real>, dt: real)
    requires forall j :: 0 <= j < |cuts| ==> dt > cuts[j]
    ensures CutsWithin(cuts, dt) == []
  {
    if cuts != [] {
      NoneWithin(cuts[1..], dt);
    }
  }

  /** Why `break` on the first failed cut is right: on strictly descending
      cuts, the cuts a loop visits before it breaks at index `i` are exactly
      the cuts `c` with `dt <= c`. */
  lemma {:induction false} BreakLoopVisitsWithin(cuts: seq<real>, dt: real, i: nat)
    requires StrictlyDescending(cuts) && i <= |cuts|
    requires forall j :: 0 <= j < i ==> dt <= cuts[j]
    requires i < |cuts| ==> dt > cuts[i]
    ensures CutsWithin(cuts, dt) == cuts[..i]
    decreases |cuts|
  {
    if cuts == [] {
    } else if i == 0 {
      NoneWithin(cuts[1..], dt);
    } else {
      BreakLoopVisitsWithin(cuts[1..], dt, i - 1);
      assert cuts[..i] == [cuts[0]] + cuts[1..][..i - 1];
    }
  }

  /** The two fills a passed cut makes, for every cut of `cuts` in order. */
  function CutFills(col: ColType, cuts: seq<real>, e: real, z: real, y: real): seq<Fill>
  {
    if cuts == [] then []
    else CutFills(col, cuts[..|cuts| - 1], e, z, y)
         + [Fill(col, HitETlt(cuts[|cuts| - 1]), [e]), Fill(col, HitZyTlt(cuts[|cuts| - 1]), [z, y])]
  }

  /** A cut's energy fill is among `CutFills` exactly for the cuts listed. */
  lemma {:induction false} CutFillsHasCut(col: ColType, cuts: seq<real>, e: real, z: real, y: real, c: real, v: seq<real>)
    ensures Fill(col, HitETlt(c), v) in CutFills(col, cuts, e, z, y) <==> c in cuts && v == [e]
  {
    if cuts != [] {
      CutFillsHasCut(col, cuts[..|cuts| - 1], e, z, y, c, v);
      assert cuts == cuts[..|cuts| - 1] + [cuts[|cuts| - 1]];
    }
  }

  /** The cut loop with `break` of the tracker and single-contribution
      branches: fills both histograms of every cut that `dt` passes. */
  method FillPassedCuts(col: ColType, dt: real, e: real, z: real, y: real) returns (fills: seq<Fill>)
    ensures fills == CutFills(col, CutsWithin(TIME_CUTS, dt), e, z, y)
  {
    TimeCutsDescending();
    fills := [];
    var i := 0;
    while i < |TIME_CUTS|
      invariant 0 <= i <= |TIME_CUTS|
      invariant forall j :: 0 <= j < i ==> dt <= TIME_CUTS[j]
      invariant fills == CutFills(col, TIME_CUTS[..i], e, z, y)
    {
      var timeCut := TIME_CUTS[i];
      if dt > timeCut {
        break;
      }
      fills := fills + [Fill(col, HitETlt(timeCut), [e]), Fill(col, HitZyTlt(timeCut), [z, y])];
      assert TIME_CUTS[..i + 1][..i] == TIME_CUTS[..i];
      i := i + 1;
    }
    BreakLoopVisitsWithin(TIME_CUTS, dt, i);
  }

  /** Fills of one tracker hit. */
  function TrackerHitFills(hit: TrackerHit): seq<Fill>
  {
    var dt := hit.time - hit.t0;
    var e := hit.eDep * GEV_TO_MEV;
    [Fill(Trk, HitTime, [hit.time]), Fill(Trk, HitTimeMt0, [dt]), Fill(Trk, HitTimeMt0E, [dt, e])]
      + CutFills(Trk, CutsWithin(TIME_CUTS, dt), e, hit.z, hit.y)
  }

  method ProcessTrackerHit(hit: TrackerHit) returns (fills: seq<Fill>)
    ensures fills == TrackerHitFills(hit)
  {
    var hitTimeMt0 := hit.time - hit.t0;
    fills := [Fill(Trk, HitTime, [hit.time]), Fill(Trk, HitTimeMt0, [hitTimeMt0]),
              Fill(Trk, HitTimeMt0E, [hitTimeMt0, hit.eDep * GEV_TO_MEV])];
    var cutFills := FillPassedCuts(Trk, hitTimeMt0, hit.eDep * GEV_TO_MEV, hit.z, hit.y);
    fills := fills + cutFills;
  }

  /** A tracker hit fills the energy histogram of cut `c` exactly when
      `t - T0 <= c`, and fills it with the energy converted to MeV. */
  lemma TrackerCutFilled(hit: TrackerHit, c: real, v: seq<real>)
    requires c in TIME_CUTS
    ensures Fill(Trk, HitETlt(c), v) in TrackerHitFills(hit)
            <==> hit.time - hit.t0 <= c && v == [hit.eDep * GEV_TO_MEV]
  {
    var dt := hit.time - hit.t0;
    var e := hit.eDep * GEV_TO_MEV;
    CutFillsHasCut(Trk, CutsWithin(TIME_CUTS, dt), e, hit.z, hit.y, c, v);
  }

  /** `hit_e[cut]` after the contribution loop: the energy of the
      contributions with `t - T0 <= cut`. */
  function EnergyWithin(conts: seq<Contribution>, t0: real, cut: real): real
  {
    if conts == [] then 0.0
    else EnergyWithin(conts[..|conts| - 1], t0, cut)
         + (if conts[|conts| - 1].time - t0 <= cut then conts[|conts| - 1].energy else 0.0)
  }

  /** A cut that no contribution passes keeps its initial 0.0. */
  lemma {:induction false} NothingPassesZeroEnergy(conts: seq<Contribution>, t0: real, cut: real)
    requires forall i :: 0 <= i < |conts| ==> conts[i].time - t0 > cut
    ensures EnergyWithin(conts, t0, cut) == 0.0
  {
    if conts != [] {
      NothingPassesZeroEnergy(conts[..|conts| - 1], t0, cut);
    }
  }

  /** With non-negative energies a looser cut never collects less energy. */
  lemma {:induction false} EnergyWithinMonotone(conts: seq<Contribution>, t0: real, tight: real, loose: real)
    requires tight <= loose
    requires forall i :: 0 <= i < |conts| ==> conts[i].energy >= 0.0
    ensures EnergyWithin(conts, t0, tight) <= EnergyWithin(conts, t0, loose)
  {
    if conts != [] {
      EnergyWithinMonotone(conts[..|conts| - 1], t0, tight, loose);
    }
  }

  /** hit_e[100] >= hit_e[10] >= hit_e[5] >= hit_e[2] for non-negative energies. */
  lemma TimeCutEnergiesOrdered(conts: seq<Contribution>, t0: real)
    requires forall i :: 0 <= i < |conts| ==> conts[i].energy >= 0.0
    ensures EnergyWithin(conts, t0, 100.0) >= EnergyWithin(conts, t0, 10.0)
            >= EnergyWithin(conts, t0, 5.0) >= EnergyWithin(conts, t0, 2.0)
  {
    EnergyWithinMonotone(conts, t0, 10.0, 100.0);
    EnergyWithinMonotone(conts, t0, 5.0, 10.0);
    EnergyWithinMonotone(conts, t0, 2.0, 5.0);
  }

  /** `hit_time` after the contribution loop: starting from the sentinel, a
      contribution replaces it only when strictly closer to T0. */
  function ClosestTime(conts: seq<Contribution>, t0: real): real
  {
    if conts == [] then SENTINEL_TIME
    else
      var prev := ClosestTime(conts[..|conts| - 1], t0);
      if Abs(conts[|conts| - 1].time - t0) < Abs(prev - t0) then conts[|conts| - 1].time else prev
  }

  /** Which contribution `ClosestTime` picked, or -1 for the sentinel. */
  function ClosestIndex(conts: seq<Contribution>, t0: real): (k: int)
    ensures -1 <= k < |conts|
    ensures ClosestTime(conts, t0) == if k < 0 then SENTINEL_TIME else conts[k].time
  {
    if conts == [] then -1
    else
      var prev := ClosestIndex(conts[..|conts| - 1], t0);
      if Abs(conts[|conts| - 1].time - t0) < Abs(ClosestTime(conts[..|conts| - 1], t0) - t0)
      then |conts| - 1 else prev
  }

  /** The representative time is a closest one to T0: no contribution and
      not the sentinel is strictly closer; every contribution before the
      chosen one is strictly farther (the first of equals wins); and the
      sentinel stays only when no contribution is strictly closer than it. */
  lemma {:induction false} ClosestIsFirstMinimum(conts: seq<Contribution>, t0: real)
    ensures var t := ClosestTime(conts, t0);
            (forall j :: 0 <= j < |conts| ==> Abs(t - t0) <= Abs(conts[j].time - t0))
            && Abs(t - t0) <= Abs(SENTINEL_TIME - t0)
    ensures var k := ClosestIndex(conts, t0);
            k >= 0 ==> (forall j :: 0 <= j < k ==> Abs(conts[j].time - t0) > Abs(conts[k].time - t0))
                       && Abs(conts[k].time - t0) < Abs(SENTINEL_TIME - t0)
    ensures ClosestIndex(conts, t0) < 0 ==>
            forall j :: 0 <= j < |conts| ==> Abs(conts[j].time - t0) >= Abs(SENTINEL_TIME - t0)
  {
    ClosestTimeIsMinimal(conts, t0);
    ClosestIndexIsFirst(conts, t0);
  }

  lemma {:induction false} ClosestTimeIsMinimal(conts: seq<Contribution>, t0: real)
    ensures var t := ClosestTime(conts, t0);
            (forall j :: 0 <= j < |conts| ==> Abs(t - t0) <= Abs(conts[j].time - t0))
            && Abs(t - t0) <= Abs(SENTINEL_TIME - t0)
  {
    if conts != [] {
      var prefix := conts[..|conts| - 1];
      ClosestTimeIsMinimal(prefix, t0);
      assert forall j :: 0 <= j < |prefix| ==> prefix[j] == conts[j];
    }
  }

  lemma {:induction false} ClosestIndexIsFirst(conts: seq<Contribution>, t0: real)
    ensures var k := ClosestIndex(conts, t0);
            k >= 0 ==> (forall j :: 0 <= j < k ==> Abs(conts[j].time - t0) > Abs(conts[k].time - t0))
                       && Abs(conts[k].time - t0) < Abs(SENTINEL_TIME - t0)
    ensures ClosestIndex(conts, t0) < 0 ==>
            forall j :: 0 <= j < |conts| ==> Abs(conts[j].time - t0) >= Abs(SENTINEL_TIME - t0)
  {
    if conts != [] {
      var prefix := conts[..|conts| - 1];
      ClosestIndexIsFirst(prefix, t0);
      ClosestTimeIsMinimal(prefix, t0);
      assert forall j :: 0 <= j < |prefix| ==> prefix[j] == conts[j];
    }
  }

  /** `hit_e` before and after one contribution: the inner cut loop adds
      its energy to every cut it passes and breaks on the first it fails. */
  method AddToPassedCuts(hitE: map<real, real>, prefix: seq<Contribution>, sub: Contribution, t0: real)
    returns (hitE': map<real, real>)
    requires forall c :: c in hitE <==> c in TIME_CUTS
    requires forall j :: 0 <= j < |TIME_CUTS| ==> hitE[TIME_CUTS[j]] == EnergyWithin(prefix, t0, TIME_CUTS[j])
    ensures forall c :: c in hitE' <==> c in TIME_CUTS
    ensures forall j :: 0 <= j < |TIME_CUTS| ==> hitE'[TIME_CUTS[j]] == EnergyWithin(prefix + [sub], t0, TIME_CUTS[j])
  {
    TimeCutsDescending();
    var extended := prefix + [sub];
    assert extended[..|extended| - 1] == prefix;
    hitE' := hitE;
    var k := 0;
    while k < |TIME_CUTS|
      invariant 0 <= k <= |TIME_CUTS|
      invariant forall c :: c in hitE' <==> c in TIME_CUTS
      invariant forall j :: 0 <= j < k ==> hitE'[TIME_CUTS[j]] == EnergyWithin(extended, t0, TIME_CUTS[j])
      invariant forall j :: k <= j < |TIME_CUTS| ==> hitE'[TIME_CUTS[j]] == hitE[TIME_CUTS[j]]
    {
      var timeCut := TIME_CUTS[k];
      if sub.time - t0 > timeCut {
        break;
      }
      hitE' := hitE'[timeCut := hitE'[timeCut] + sub.energy];
      k := k + 1;
    }
  }

  /** The multi-contribution branch's loop: the time closest to T0 and, per
      cut, the summed energy. */
  method AggregateContributions(conts: seq<Contribution>, t0: real) returns (hitTime: real, hitE: map<real, real>)
    ensures hitTime == ClosestTime(conts, t0)
    ensures forall c :: c in hitE <==> c in TIME_CUTS
    ensures forall c :: c in TIME_CUTS ==> hitE[c] == EnergyWithin(conts, t0, c)
  {
    hitTime := SENTINEL_TIME;
    hitE := map c | c in TIME_CUTS :: 0.0;
    var i := 0;
    while i < |conts|
      invariant 0 <= i <= |conts|
      invariant hitTime == ClosestTime(conts[..i], t0)
      invariant forall c :: c in hitE <==> c in TIME_CUTS
      invariant forall j :: 0 <= j < |TIME_CUTS| ==> hitE[TIME_CUTS[j]] == EnergyWithin(conts[..i], t0, TIME_CUTS[j])
    {
      assert conts[..i + 1] == conts[..i] + [conts[i]];
      assert conts[..i + 1][..i] == conts[..i];
      var subhitTime := conts[i].time;
      if Abs(subhitTime - t0) < Abs(hitTime - t0) {
        hitTime := subhitTime;
      }
      hitE := AddToPassedCuts(hitE, conts[..i], conts[i], t0);
      i := i + 1;
    }
    assert conts[..i] == conts;
  }

  /** The multi-contribution branch fills a cut's histograms only when its
      summed energy is positive. */
  function PositiveEnergyFills(col: ColType, cuts: seq<real>, conts: seq<Contribution>, t0: real, z: real, y: real): seq<Fill>
  {
    if cuts == [] then []
    else
      var c := cuts[|cuts| - 1];
      var e := EnergyWithin(conts, t0, c);
      PositiveEnergyFills(col, cuts[..|cuts| - 1], conts, t0, z, y)
        + (if e > 0.0 then [Fill(col, HitETlt(c), [e * GEV_TO_MEV]), Fill(col, HitZyTlt(c), [z, y])] else [])
  }

  lemma {:induction false} PositiveEnergyFillsHasCut(col: ColType, cuts: seq<real>, conts: seq<Contribution>, t0: real,
                                                     z: real, y: real, c: real, v: seq<real>)
    ensures Fill(col, HitETlt(c), v) in PositiveEnergyFills(col, cuts, conts, t0, z, y)
            <==> c in cuts && EnergyWithin(conts, t0, c) > 0.0 && v == [EnergyWithin(conts, t0, c) * GEV_TO_MEV]
  {
    if cuts != [] {
      PositiveEnergyFillsHasCut(col, cuts[..|cuts| - 1], conts, t0, z, y, c, v);
      assert cuts == cuts[..|cuts| - 1] + [cuts[|cuts| - 1]];
    }
  }

  /** Fills of one calorimeter or muon hit. With more than one contribution
      the hit is aggregated; otherwise the time of contribution 0 and the
      hit's total energy are used, and a hit without contributions makes
      `getTimeCont(0)` fail. */
  function CaloHitFills(col: ColType, hit: CaloHit): Outcome<seq<Fill>>
  {
    var conts := hit.contributions;
    if |conts| > 1 then
      var t := ClosestTime(conts, hit.t0);
      Ok([Fill(col, HitTime, [t]), Fill(col, HitTimeMt0, [t - hit.t0]),
          Fill(col, HitTimeMt0E, [t - hit.t0, EnergyWithin(conts, hit.t0, 10.0) * GEV_TO_MEV])]
         + PositiveEnergyFills(col, TIME_CUTS, conts, hit.t0, hit.z, hit.y))
    else if |conts| == 0 then Raised(IndexError)
    else
      var dt := conts[0].time - hit.t0;
      var e := hit.energy * GEV_TO_MEV;
      Ok([Fill(col, HitTime, [conts[0].time]), Fill(col, HitTimeMt0, [dt]), Fill(col, HitTimeMt0E, [dt, e])]
         + CutFills(col, CutsWithin(TIME_CUTS, dt), e, hit.z, hit.y))
  }

  method ProcessCaloHit(col: ColType, hit: CaloHit) returns (r: Outcome<seq<Fill>>)
    ensures r == CaloHitFills(col, hit)
  {
    var nSubhits := |hit.contributions|;
    if nSubhits > 1 {
      var hitTime, hitE := AggregateContributions(hit.contributions, hit.t0);
      var fills := [Fill(col, HitTime, [hitTime]), Fill(col, HitTimeMt0, [hitTime - hit.t0]),
                    Fill(col, HitTimeMt0E, [hitTime - hit.t0, hitE[10.0] * GEV_TO_MEV])];
      var k := 0;
      while k < |TIME_CUTS|
        invariant 0 <= k <= |TIME_CUTS|
        invariant fills == [Fill(col, HitTime, [hitTime]), Fill(col, HitTimeMt0, [hitTime - hit.t0]),
                            Fill(col, HitTimeMt0E, [hitTime - hit.t0, hitE[10.0] * GEV_TO_MEV])]
                           + PositiveEnergyFills(col, TIME_CUTS[..k], hit.contributions, hit.t0, hit.z, hit.y)
      {
        var e := hitE[TIME_CUTS[k]];
        if e > 0.0 {
          fills := fills + [Fill(col, HitETlt(TIME_CUTS[k]), [e * GEV_TO_MEV]), Fill(col, HitZyTlt(TIME_CUTS[k]), [hit.z, hit.y])];
        }
        assert TIME_CUTS[..k + 1][..k] == TIME_CUTS[..k];
        k := k + 1;
      }
      assert TIME_CUTS[..k] == TIME_CUTS;
      r := Ok(fills);
    } else if nSubhits == 0 {
      r := Raised(IndexError);
    } else {
      var hitTime := hit.contributions[0].time;
      var hitTimeMt0 := hitTime - hit.t0;
      var hitEnergy := hit.energy;
      var fills := [Fill(col, HitTime, [hitTime]), Fill(col, HitTimeMt0, [hitTimeMt0]),
                    Fill(col, HitTimeMt0E, [hitTime - hit.t0, hitEnergy * GEV_TO_MEV])];
      var cutFills := FillPassedCuts(col, hitTimeMt0, hitEnergy * GEV_TO_MEV, hit.z, hit.y);
      r := Ok(fills + cutFills);
    }
  }

  /** Multi-contribution hits fill cut `c` exactly when `hit_e[c] > 0`, with
      that energy in MeV. */
  lemma MultiBranchCutFilled(col: ColType, hit: CaloHit, c: real, v: seq<real>)
    requires |hit.contributions| > 1
    ensures var e := EnergyWithin(hit.contributions, hit.t0, c);
            Fill(col, HitETlt(c), v) in CaloHitFills(col, hit).value
            <==> c in TIME_CUTS && e > 0.0 && v == [e * GEV_TO_MEV]
  {
    PositiveEnergyFillsHasCut(col, TIME_CUTS, hit.contributions, hit.t0, hit.z, hit.y, c, v);
  }

  /** Single-contribution hits fill every cut that the contribution's time
      passes, with the hit's total energy in MeV. */
  lemma SingleBranchCutFilled(col: ColType, hit: CaloHit, c: real, v: seq<real>)
    requires |hit.contributions| == 1 && c in TIME_CUTS
    ensures Fill(col, HitETlt(c), v) in CaloHitFills(col, hit).value
            <==> hit.contributions[0].time - hit.t0 <= c && v == [hit.energy * GEV_TO_MEV]
  {
    var dt := hit.contributions[0].time - hit.t0;
    CutFillsHasCut(col, CutsWithin(TIME_CUTS, dt), hit.energy * GEV_TO_MEV, hit.z, hit.y, c, v);
  }

  function TrackerCollectionFills(hits: seq<TrackerHit>): seq<Fill>
  {
    if hits == [] then [] else TrackerCollectionFills(hits[..|hits| - 1]) + TrackerHitFills(hits[|hits| - 1])
  }

  function CaloCollectionFills(col: ColType, hits: seq<CaloHit>): Outcome<seq<Fill>>
  {
    if hits == [] then Ok([])
    else Concat(CaloCollectionFills(col, hits[..|hits| - 1]), CaloHitFills(col, hits[|hits| - 1]))
  }

  function TrackerEventFills(cols: seq<seq<TrackerHit>>): seq<Fill>
  {
    if cols == [] then [] else TrackerEventFills(cols[..|cols| - 1]) + TrackerCollectionFills(cols[|cols| - 1])
  }

  function CaloEventFills(col: ColType, cols: seq<seq<CaloHit>>): Outcome<seq<Fill>>
  {
    if cols == [] then Ok([])
    else Concat(CaloEventFills(col, cols[..|cols| - 1]), CaloCollectionFills(col, cols[|cols| - 1]))
  }

  /** All fills of one event: the tracker collections, then the calorimeter
      ones, then the muon ones, each in collection order. */
  function EventFills(trk: seq<seq<TrackerHit>>, cal: seq<seq<CaloHit>>, muo: seq<seq<CaloHit>>): Outcome<seq<Fill>>
  {
    Concat(Concat(Ok(TrackerEventFills(trk)), CaloEventFills(Cal, cal)), CaloEventFills(Muo, muo))
  }

  method ProcessTrackerCollection(hits: seq<TrackerHit>) returns (fills: seq<Fill>)
    ensures fills == TrackerCollectionFills(hits)
  {
    fills := [];
    for iHit := 0 to |hits|
      invariant fills == TrackerCollectionFills(hits[..iHit])
    {
      assert hits[..iHit + 1][..iHit] == hits[..iHit];
      var hitFills := ProcessTrackerHit(hits[iHit]);
      fills := fills + hitFills;
    }
    assert hits[..|hits|] == hits;
  }

  method ProcessCaloCollection(col: ColType, hits: seq<CaloHit>) returns (r: Outcome<seq<Fill>>)
    ensures r == CaloCollectionFills(col, hits)
  {
    var fills := [];
    for iHit := 0 to |hits|
      invariant CaloCollectionFills(col, hits[..iHit]) == Ok(fills)
    {
      assert hits[..iHit + 1][..iHit] == hits[..iHit];
      var hitFills := ProcessCaloHit(col, hits[iHit]);
      if hitFills.Raised? {
        CaloCollectionFillsRaisedPrefix(col, hits, iHit + 1);
        return hitFills;
      }
      fills := fills + hitFills.value;
    }
    assert hits[..|hits|] == hits;
    r := Ok(fills);
  }

  /** Lemma used by the event loop: once a prefix of collections raised, the
      whole list does. */
  lemma {:induction false} CaloEventFillsRaisedPrefix(col: ColType, cols: seq<seq<CaloHit>>, i: nat)
    requires i <= |cols| && CaloEventFills(col, cols[..i]).Raised?
    ensures CaloEventFills(col, cols) == CaloEventFills(col, cols[..i])
    decreases |cols|
  {
    if i < |cols| {
      assert cols[..|cols| - 1][..i] == cols[..i];
      CaloEventFillsRaisedPrefix(col, cols[..|cols| - 1], i);
    } else {
      assert cols[..i] == cols;
    }
  }

  lemma {:induction false} CaloCollectionFillsRaisedPrefix(col: ColType, hits: seq<CaloHit>, i: nat)
    requires i <= |hits| && CaloCollectionFills(col, hits[..i]).Raised?
    ensures CaloCollectionFills(col, hits) == CaloCollectionFills(col, hits[..i])
    decreases |hits|
  {
    if i < |hits| {
      assert hits[..|hits| - 1][..i] == hits[..i];
      CaloCollectionFillsRaisedPrefix(col, hits[..|hits| - 1], i);
    } else {
      assert hits[..i] == hits;
    }
  }

  method ProcessCaloCollections(col: ColType, cols: seq<seq<CaloHit>>) returns (r: Outcome<seq<Fill>>)
    ensures r == CaloEventFills(col, cols)
  {
    var fills := [];
    for iCol := 0 to |cols|
      invariant CaloEventFills(col, cols[..iCol]) == Ok(fills)
    {
      assert cols[..iCol + 1][..iCol] == cols[..iCol];
      var colFills := ProcessCaloCollection(col, cols[iCol]);
      if colFills.Raised? {
        CaloEventFillsRaisedPrefix(col, cols, iCol + 1);
        return colFills;
      }
      fills := fills + colFills.value;
    }
    assert cols[..|cols|] == cols;
    r := Ok(fills);
  }

  /** `processEvent`: every collection of every type, in order. */
  method ProcessEvent(trk: seq<seq<TrackerHit>>, cal: seq<seq<CaloHit>>, muo: seq<seq<CaloHit>>)
    returns (r: Outcome<seq<Fill>>)
    ensures r == EventFills(trk, cal, muo)
  {
    var fills := [];
    for iCol := 0 to |trk|
      invariant fills == TrackerEventFills(trk[..iCol])
    {
      assert trk[..iCol + 1][..iCol] == trk[..iCol];
      var colFills := ProcessTrackerCollection(trk[iCol]);
      fills := fills + colFills;
    }
    assert trk[..|trk|] == trk;
    var calFills := ProcessCaloCollections(Cal, cal);
    var muoFills := ProcessCaloCollections(Muo, muo);
    r := Concat(Concat(Ok(fills), calFills), muoFills);
  }
}
