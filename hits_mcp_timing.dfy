/** `HitsMCPDriver.processEvent`: every tracker hit and every calorimeter
    contribution is traced back to its oldest ancestor particle; the
    ancestors' ids are collected in `hitMCParticles`, which then splits the
    generator-level photons and neutrons into those that left hits and those
    that did not. */
module HitsMcpTiming {
  import opened Lcio
  import opened Provenance
  import opened PdgTables

  /** `HIT_PDGS`: the generator-level species that are classified. */
  const HIT_PDGS: seq<int> := [22, 2112]
  const NEUTRON: int := 2112
  /** Contributions earlier than this after T0 (ns) go to the `tlow` histograms. */
  const TLOW_LIMIT: real := 10.0

  datatype TimeBand = TLow | THigh
  datatype GenKind = GenEnergy | GenZy | GenTime

  /** The histograms of the driver; `McpPdg(b)` is `h_mcp_pdg_<b>`,
      `Gen(k, hit, pdg)` is `h_mcp_<hit|nohit>_<pdg>_<k>`. */
  datatype Histo =
    | TrkTime | TrkTimeMt0 | TrkMcpPdg | TrkMcpOldestPdg | TrkMcpOldestTime
    | TrkTimeMt0VsMcpOldestTime | TrkTimePdg | TrkNTimeE
    | CalEnergy | CalTime | CalTimeExt | CalSubenergy | CalTimeMt0 | CalMcpPdg
    | CalMcpOldestPdg | CalMcpOldestTime | CalTimeMt0VsMcpOldestTime
    | McpPdg(band: TimeBand) | CalTimePdg | McpE(band: TimeBand) | CalNTimeE | CalTimeMaxdiff
    | Gen(kind: GenKind, hit: bool, pdg: int)

  datatype Fill = Fill(histo: Histo, values: seq<real>)

  /** What the hit loops have produced so far: the fills, and
      `hitMCParticles`. */
  datatype Acc = Acc(fills: seq<Fill>, hitMcps: set<int>)

  /** A SimTrackerHit: time, T0 of its position, and its MCParticle. An id
      that is not a particle of the event stands for a null reference, which
      pyLCIO hands over as `None`. */
  datatype TrackerHit = TrackerHit(time: real, t0: real, particle: int)

  /** A SimCalorimeterHit: energy, T0 of its position, and contributions. */
  datatype CaloHit = CaloHit(energy: real, t0: real, contributions: seq<Contribution>)

  function Join(a: Outcome<Acc>, b: Outcome<Acc>): (r: Outcome<Acc>)
    ensures r.Ok? <==> a.Ok? && b.Ok?
    ensures r.Ok? ==> r.value == Acc(a.value.fills + b.value.fills, a.value.hitMcps + b.value.hitMcps)
    ensures a.Raised? ==> r == a
    ensures a.Ok? && b.Raised? ==> r == b
  {
    match a
    case Raised(e) => Raised(e)
    case Ok(x) =>
      match b
      case Raised(e) => Raised(e)
      case Ok(y) => Ok(Acc(x.fills + y.fills, x.hitMcps + y.hitMcps))
  }

  /** `get_oldest_mcp_parent(mcp).id()`: `None` has no `id`, and a chain
      longer than the interpreter's recursion limit raises. The id found is
      a particle of the event that has no parents. */
  function Resolve(ev: Event, mcp: int): (r: Outcome<int>)
    requires WellFormed(ev) && mcp in ev.mcps
    ensures r.Ok? ==> r.value in ev.mcps && ParentsOf(ev.parents, r.value) == []
    ensures r.Raised? ==> r.error in {AttributeError, RecursionError}
  {
    match OldestMcpParent(ev.parents, mcp, 0, RECURSION_LIMIT)
    case Oldest(id, _) =>
      OldestIsKnown(ev, mcp, 0, RECURSION_LIMIT);
      Ok(id)
    case AllSelfParents => Raised(AttributeError)
    case Unbounded => Raised(RecursionError)
  }

  /** `p` is a particle of the event whose oldest ancestor is found. */
  predicate Resolves(ev: Event, p: int)
    requires WellFormed(ev)
  {
    p in ev.mcps && Resolve(ev, p).Ok?
  }

  /** `p` is a particle of the event whose oldest ancestor is `x`. */
  predicate ResolvesTo(ev: Event, p: int, x: int)
    requires WellFormed(ev)
  {
    p in ev.mcps && Resolve(ev, p) == Ok(x)
  }

  /** `'tlow' if hit_time_t0 < 10 else 'thigh'`. */
  function Band(dt: real): TimeBand
  {
    if dt < TLOW_LIMIT then TLow else THigh
  }

  /** The fills made with the oldest ancestor `om` of a tracker hit. */
  function TrackerOldestFills(dt: real, om: McParticle): seq<Fill>
  {
    var pdg := RemapPdg(om.pdg) as real;
    [Fill(TrkMcpOldestPdg, [om.pdg as real]), Fill(TrkMcpOldestTime, [om.time]),
     Fill(TrkTimeMt0VsMcpOldestTime, [dt, om.time]), Fill(TrkTimePdg, [dt, pdg])]
    + (if om.pdg == NEUTRON then [Fill(TrkNTimeE, [dt, om.kin.p])] else [])
  }

  /** One iteration of the tracker-hit loop. */
  function TrackerHitStep(ev: Event, hit: TrackerHit): Outcome<Acc>
    requires WellFormed(ev)
  {
    var dt := hit.time - hit.t0;
    if hit.particle !in ev.mcps then Raised(AttributeError) else
    var pre := [Fill(TrkTime, [hit.time]), Fill(TrkTimeMt0, [dt]),
                Fill(TrkMcpPdg, [ev.mcps[hit.particle].pdg as real])];
    match Resolve(ev, hit.particle)
    case Raised(e) => Raised(e)
    case Ok(o) => Ok(Acc(pre + TrackerOldestFills(dt, ev.mcps[o]), {o}))
  }

  /** The fills made with the oldest ancestor `om` of a contribution. */
  function ContributionOldestFills(dt: real, om: McParticle): seq<Fill>
  {
    var band := Band(dt);
    var pdg := RemapPdg(om.pdg) as real;
    [Fill(CalMcpOldestPdg, [om.pdg as real]), Fill(CalMcpOldestTime, [om.time]),
     Fill(CalTimeMt0VsMcpOldestTime, [dt, om.time]), Fill(McpPdg(band), [pdg]), Fill(CalTimePdg, [dt, pdg])]
    + (if om.pdg == NEUTRON then [Fill(McpE(band), [om.kin.p]), Fill(CalNTimeE, [dt, om.kin.p])] else [])
  }

  /** One iteration of the contribution loop of a calorimeter hit. */
  function ContributionStep(ev: Event, t0: real, c: Contribution): Outcome<Acc>
    requires WellFormed(ev)
  {
    var dt := c.time - t0;
    if c.particle !in ev.mcps then Raised(AttributeError) else
    var pre := [Fill(CalTime, [c.time]), Fill(CalTimeExt, [c.time]), Fill(CalSubenergy, [c.energy]),
                Fill(CalTimeMt0, [dt]), Fill(CalMcpPdg, [ev.mcps[c.particle].pdg as real])];
    match Resolve(ev, c.particle)
    case Raised(e) => Raised(e)
    case Ok(o) => Ok(Acc(pre + ContributionOldestFills(dt, ev.mcps[o]), {o}))
  }

  function ContributionsStep(ev: Event, t0: real, conts: seq<Contribution>): Outcome<Acc>
    requires WellFormed(ev)
  {
    if conts == [] then Ok(Acc([], {}))
    else Join(ContributionsStep(ev, t0, conts[..|conts| - 1]), ContributionStep(ev, t0, conts[|conts| - 1]))
  }

  /** `hit_times`: the time of every contribution, by index. */
  function Times(conts: seq<Contribution>): (ts: seq<real>)
    ensures |ts| == |conts| && forall i :: 0 <= i < |conts| ==> ts[i] == conts[i].time
  {
    seq(|conts|, i requires 0 <= i < |conts| => conts[i].time)
  }

  /** `hit_times.max()`: an element no other element exceeds. */
  function MaxOf(s: seq<real>): (m: real)
    requires |s| > 0
    ensures m in s && forall i :: 0 <= i < |s| ==> s[i] <= m
  {
    if |s| == 1 then s[0]
    else
      var rest := MaxOf(s[..|s| - 1]);
      assert forall i :: 0 <= i < |s| - 1 ==> s[..|s| - 1][i] == s[i];
      if s[|s| - 1] > rest then s[|s| - 1] else rest
  }

  /** `hit_times.min()`: an element that exceeds no other element. */
  function MinOf(s: seq<real>): (m: real)
    requires |s| > 0
    ensures m in s && forall i :: 0 <= i < |s| ==> m <= s[i]
  {
    if |s| == 1 then s[0]
    else
      var rest := MinOf(s[..|s| - 1]);
      assert forall i :: 0 <= i < |s| - 1 ==> s[..|s| - 1][i] == s[i];
      if s[|s| - 1] < rest then s[|s| - 1] else rest
  }

  /** The time spread of a hit's contributions is never negative. */
  lemma SpreadNonNegative(conts: seq<Contribution>)
    requires |conts| > 0
    ensures MaxOf(Times(conts)) - MinOf(Times(conts)) >= 0.0
  {
    var ts := Times(conts);
    assert MinOf(ts) <= ts[0] <= MaxOf(ts);
  }

  /** The spread fill, made only for hits with more than one contribution. */
  function SpreadFills(conts: seq<Contribution>): seq<Fill>
  {
    if |conts| > 1 then [Fill(CalTimeMaxdiff, [MaxOf(Times(conts)) - MinOf(Times(conts))])] else []
  }

  /** One iteration of the calorimeter-hit loop. */
  function CaloHitStep(ev: Event, hit: CaloHit): Outcome<Acc>
    requires WellFormed(ev)
  {
    Join(Join(Ok(Acc([Fill(CalEnergy, [hit.energy])], {})), ContributionsStep(ev, hit.t0, hit.contributions)),
         Ok(Acc(SpreadFills(hit.contributions), {})))
  }

  /** The tracker-hit loops, over the hits of all tracker collections in order. */
  function TrackerHitsStep(ev: Event, hits: seq<TrackerHit>): Outcome<Acc>
    requires WellFormed(ev)
  {
    if hits == [] then Ok(Acc([], {}))
    else Join(TrackerHitsStep(ev, hits[..|hits| - 1]), TrackerHitStep(ev, hits[|hits| - 1]))
  }

  /** The calorimeter-hit loops, over the hits of all calorimeter collections in order. */
  function CaloHitsStep(ev: Event, hits: seq<CaloHit>): Outcome<Acc>
    requires WellFormed(ev)
  {
    if hits == [] then Ok(Acc([], {}))
    else Join(CaloHitsStep(ev, hits[..|hits| - 1]), CaloHitStep(ev, hits[|hits| - 1]))
  }

  /** The three fills of a generator-level particle, or none when it is not a
      stable photon or neutron. */
  function GenParticleFills(m: McParticle, hit: bool): (r: seq<Fill>)
    ensures r != [] <==> m.genStatus == 1 && m.pdg in HIT_PDGS
    ensures forall f :: f in r ==> f.histo.Gen? && f.histo.hit == hit && f.histo.pdg == m.pdg
  {
    if m.genStatus != 1 then []
    else if m.pdg !in HIT_PDGS then []
    else [Fill(Gen(GenEnergy, hit, m.pdg), [m.kin.p]), Fill(Gen(GenZy, hit, m.pdg), [m.vertex.z, m.vertex.y]),
          Fill(Gen(GenTime, hit, m.pdg), [m.time])]
  }

  /** The generator-level loop over the particles `ids`. */
  function GenFills(ev: Event, ids: seq<int>, hitMcps: set<int>): seq<Fill>
    requires forall i :: 0 <= i < |ids| ==> ids[i] in ev.mcps
  {
    if ids == [] then []
    else GenFills(ev, ids[..|ids| - 1], hitMcps)
         + GenParticleFills(ev.mcps[ids[|ids| - 1]], ids[|ids| - 1] in hitMcps)
  }

  /** Everything the hit loops of one event produce. */
  function HitLoops(ev: Event, trk: seq<seq<TrackerHit>>, cal: seq<seq<CaloHit>>): Outcome<Acc>
    requires WellFormed(ev)
  {
    Join(TrackerHitsStep(ev, Flatten(trk)), CaloHitsStep(ev, Flatten(cal)))
  }

  /** All fills of one event. */
  function EventFills(ev: Event, trk: seq<seq<TrackerHit>>, cal: seq<seq<CaloHit>>): Outcome<seq<Fill>>
    requires WellFormed(ev)
  {
    match HitLoops(ev, trk, cal)
    case Raised(e) => Raised(e)
    case Ok(acc) => Ok(acc.fills + GenFills(ev, ev.order, acc.hitMcps))
  }

  // ---------------------------------------------------------------------
  // Properties

  /** A contribution goes to `h_mcp_pdg_tlow` exactly when it is earlier
      than 10 ns after T0, and to `h_mcp_pdg_thigh` otherwise, with the
      remapped pdg of its oldest ancestor. */
  lemma ContributionBand(ev: Event, t0: real, c: Contribution, b: TimeBand, v: seq<real>)
    requires WellFormed(ev) && c.particle in ev.mcps
    requires ContributionStep(ev, t0, c).Ok?
    ensures var om := ev.mcps[Resolve(ev, c.particle).value];
            Fill(McpPdg(b), v) in ContributionStep(ev, t0, c).value.fills
            <==> (b == TLow <==> c.time - t0 < 10.0) && v == [RemapPdg(om.pdg) as real]
  {
  }

  /** The neutron-energy histograms are filled only when the oldest ancestor
      is a neutron, and then always. */
  lemma ContributionNeutronOnly(ev: Event, t0: real, c: Contribution, b: TimeBand, v: seq<real>)
    requires WellFormed(ev) && c.particle in ev.mcps
    requires ContributionStep(ev, t0, c).Ok?
    ensures var om := ev.mcps[Resolve(ev, c.particle).value];
            Fill(McpE(b), v) in ContributionStep(ev, t0, c).value.fills
            <==> om.pdg == NEUTRON && b == Band(c.time - t0) && v == [om.kin.p]
    ensures var om := ev.mcps[Resolve(ev, c.particle).value];
            Fill(CalNTimeE, v) in ContributionStep(ev, t0, c).value.fills
            <==> om.pdg == NEUTRON && v == [c.time - t0, om.kin.p]
  {
  }

  lemma TrackerNeutronOnly(ev: Event, hit: TrackerHit, v: seq<real>)
    requires WellFormed(ev) && hit.particle in ev.mcps
    requires TrackerHitStep(ev, hit).Ok?
    ensures var om := ev.mcps[Resolve(ev, hit.particle).value];
            Fill(TrkNTimeE, v) in TrackerHitStep(ev, hit).value.fills
            <==> om.pdg == NEUTRON && v == [hit.time - hit.t0, om.kin.p]
  {
  }

  lemma {:induction false} NoSpreadInContributions(ev: Event, t0: real, conts: seq<Contribution>, v: seq<real>)
    requires WellFormed(ev)
    requires ContributionsStep(ev, t0, conts).Ok?
    ensures Fill(CalTimeMaxdiff, v) !in ContributionsStep(ev, t0, conts).value.fills
  {
    if conts != [] {
      var init := conts[..|conts| - 1];
      NoSpreadInContributions(ev, t0, init, v);
      ContributionHasNoSpread(ev, t0, conts[|conts| - 1], v);
      assert ContributionsStep(ev, t0, conts).value.fills
             == ContributionsStep(ev, t0, init).value.fills + ContributionStep(ev, t0, conts[|conts| - 1]).value.fills;
    }
  }

  lemma ContributionHasNoSpread(ev: Event, t0: real, c: Contribution, v: seq<real>)
    requires WellFormed(ev)
    requires ContributionStep(ev, t0, c).Ok?
    ensures Fill(CalTimeMaxdiff, v) !in ContributionStep(ev, t0, c).value.fills
  {
  }

  /** The spread max - min of a hit's contribution times is filled exactly
      when the hit has more than one contribution, and it is never negative. */
  lemma SpreadOnlyForSeveral(ev: Event, hit: CaloHit, v: seq<real>)
    requires WellFormed(ev)
    requires CaloHitStep(ev, hit).Ok?
    ensures Fill(CalTimeMaxdiff, v) in CaloHitStep(ev, hit).value.fills
            <==> |hit.contributions| > 1 && v == [MaxOf(Times(hit.contributions)) - MinOf(Times(hit.contributions))]
    ensures |hit.contributions| > 1 ==> MaxOf(Times(hit.contributions)) - MinOf(Times(hit.contributions)) >= 0.0
  {
    NoSpreadInContributions(ev, hit.t0, hit.contributions, v);
    if |hit.contributions| > 1 {
      SpreadNonNegative(hit.contributions);
    }
  }

  /** The contribution loop runs to the end exactly when every contribution's
      particle resolves, and then it adds exactly their oldest ancestors. */
  lemma {:induction false} ContributionsCollectAncestors(ev: Event, t0: real, conts: seq<Contribution>)
    requires WellFormed(ev)
    ensures ContributionsStep(ev, t0, conts).Ok? <==> forall c :: c in conts ==> Resolves(ev, c.particle)
    ensures ContributionsStep(ev, t0, conts).Ok? ==>
            forall x :: x in ContributionsStep(ev, t0, conts).value.hitMcps
                        <==> exists c :: c in conts && ResolvesTo(ev, c.particle, x)
  {
    if conts != [] {
      var init := conts[..|conts| - 1];
      ContributionsCollectAncestors(ev, t0, init);
      assert conts == init + [conts[|conts| - 1]];
    }
  }

  lemma {:induction false} TrackerCollectAncestors(ev: Event, hits: seq<TrackerHit>)
    requires WellFormed(ev)
    ensures TrackerHitsStep(ev, hits).Ok? <==> forall h :: h in hits ==> Resolves(ev, h.particle)
    ensures TrackerHitsStep(ev, hits).Ok? ==>
            forall x :: x in TrackerHitsStep(ev, hits).value.hitMcps
                        <==> exists h :: h in hits && ResolvesTo(ev, h.particle, x)
  {
    if hits != [] {
      var init := hits[..|hits| - 1];
      TrackerCollectAncestors(ev, init);
      assert hits == init + [hits[|hits| - 1]];
    }
  }

  lemma {:induction false} CaloCollectAncestors(ev: Event, hits: seq<CaloHit>)
    requires WellFormed(ev)
    ensures CaloHitsStep(ev, hits).Ok? <==>
            forall h, c :: h in hits && c in h.contributions ==> Resolves(ev, c.particle)
    ensures CaloHitsStep(ev, hits).Ok? ==>
            forall x :: x in CaloHitsStep(ev, hits).value.hitMcps
                        <==> exists h, c :: h in hits && c in h.contributions && ResolvesTo(ev, c.particle, x)
  {
    if hits != [] {
      var init := hits[..|hits| - 1];
      var last := hits[|hits| - 1];
      CaloCollectAncestors(ev, init);
      ContributionsCollectAncestors(ev, last.t0, last.contributions);
      assert hits == init + [last];
    }
  }

  /** `hitMCParticles` holds exactly the oldest-ancestor ids of the particles
      of all tracker hits and all calorimeter contributions, and the hit
      loops finish exactly when each of those particles resolves. */
  lemma HitMcpsAreOldestAncestors(ev: Event, trk: seq<seq<TrackerHit>>, cal: seq<seq<CaloHit>>)
    requires WellFormed(ev)
    ensures HitLoops(ev, trk, cal).Ok? <==>
            (forall h :: h in Flatten(trk) ==> Resolves(ev, h.particle))
            && (forall h, c :: h in Flatten(cal) && c in h.contributions ==> Resolves(ev, c.particle))
    ensures HitLoops(ev, trk, cal).Ok? ==>
            forall x :: x in HitLoops(ev, trk, cal).value.hitMcps <==>
              (exists h :: h in Flatten(trk) && ResolvesTo(ev, h.particle, x))
              || (exists h, c :: h in Flatten(cal) && c in h.contributions && ResolvesTo(ev, c.particle, x))
  {
    TrackerCollectAncestors(ev, Flatten(trk));
    CaloCollectAncestors(ev, Flatten(cal));
  }

  /** A fill of the generator-level loop comes from one listed particle; it
      is a stable photon or neutron, and the fill is labelled 'hit' exactly
      when the particle's id is in `hitMCParticles`. */
  lemma {:induction false} GenFillsClassify(ev: Event, ids: seq<int>, hitMcps: set<int>, f: Fill)
    requires forall i :: 0 <= i < |ids| ==> ids[i] in ev.mcps
    requires f in GenFills(ev, ids, hitMcps)
    ensures exists k :: 0 <= k < |ids| && f.histo.Gen? && f.histo.hit == (ids[k] in hitMcps)
                        && f.histo.pdg == ev.mcps[ids[k]].pdg
                        && ev.mcps[ids[k]].genStatus == 1 && ev.mcps[ids[k]].pdg in HIT_PDGS
  {
    var last := ids[|ids| - 1];
    if f in GenFills(ev, ids[..|ids| - 1], hitMcps) {
      GenFillsClassify(ev, ids[..|ids| - 1], hitMcps, f);
    } else {
      assert f in GenParticleFills(ev.mcps[last], last in hitMcps);
      assert ids[|ids| - 1] == last;
    }
  }

  /** Every stable photon or neutron of the list gets its three fills. */
  lemma {:induction false} GenFillsComplete(ev: Event, ids: seq<int>, hitMcps: set<int>, k: nat)
    requires forall i :: 0 <= i < |ids| ==> ids[i] in ev.mcps
    requires k < |ids| && ev.mcps[ids[k]].genStatus == 1 && ev.mcps[ids[k]].pdg in HIT_PDGS
    ensures var m := ev.mcps[ids[k]];
            Fill(Gen(GenEnergy, ids[k] in hitMcps, m.pdg), [m.kin.p]) in GenFills(ev, ids, hitMcps)
    decreases |ids|
  {
    if k < |ids| - 1 {
      GenFillsComplete(ev, ids[..|ids| - 1], hitMcps, k);
    }
  }

  // ---------------------------------------------------------------------
  // The driver

  method ProcessTrackerHit(ev: Event, hit: TrackerHit) returns (r: Outcome<Acc>)
    requires WellFormed(ev)
    ensures r == TrackerHitStep(ev, hit)
  {
    var hitTime := hit.time;
    if hit.particle !in ev.mcps {
      return Raised(AttributeError);
    }
    var fills := [Fill(TrkTime, [hitTime]), Fill(TrkTimeMt0, [hitTime - hit.t0]),
                  Fill(TrkMcpPdg, [ev.mcps[hit.particle].pdg as real])];
    ghost var pre := fills;
    var mcpO := Resolve(ev, hit.particle);
    if mcpO.Raised? {
      return Raised(mcpO.error);
    }
    var om := ev.mcps[mcpO.value];
    fills := fills + [Fill(TrkMcpOldestPdg, [om.pdg as real]), Fill(TrkMcpOldestTime, [om.time]),
                      Fill(TrkTimeMt0VsMcpOldestTime, [hitTime - hit.t0, om.time])];
    var pdg := RemapPdg(om.pdg);
    var hitTimeT0 := hitTime - hit.t0;
    fills := fills + [Fill(TrkTimePdg, [hitTimeT0, pdg as real])];
    if om.pdg == NEUTRON {
      fills := fills + [Fill(TrkNTimeE, [hitTimeT0, om.kin.p])];
    }
    assert fills == pre + TrackerOldestFills(hitTimeT0, om);
    r := Ok(Acc(fills, {mcpO.value}));
  }

  method ProcessContribution(ev: Event, t0: real, c: Contribution) returns (r: Outcome<Acc>)
    requires WellFormed(ev)
    ensures r == ContributionStep(ev, t0, c)
  {
    var hitTimeT0 := c.time - t0;
    if c.particle !in ev.mcps {
      return Raised(AttributeError);
    }
    var fills := [Fill(CalTime, [c.time]), Fill(CalTimeExt, [c.time]), Fill(CalSubenergy, [c.energy]),
                  Fill(CalTimeMt0, [hitTimeT0]), Fill(CalMcpPdg, [ev.mcps[c.particle].pdg as real])];
    ghost var pre := fills;
    var mcpO := Resolve(ev, c.particle);
    if mcpO.Raised? {
      return Raised(mcpO.error);
    }
    var om := ev.mcps[mcpO.value];
    fills := fills + [Fill(CalMcpOldestPdg, [om.pdg as real]), Fill(CalMcpOldestTime, [om.time]),
                      Fill(CalTimeMt0VsMcpOldestTime, [hitTimeT0, om.time])];
    var suffix := if hitTimeT0 < TLOW_LIMIT then TLow else THigh;
    var pdg := RemapPdg(om.pdg);
    fills := fills + [Fill(McpPdg(suffix), [pdg as real]), Fill(CalTimePdg, [hitTimeT0, pdg as real])];
    if om.pdg == NEUTRON {
      fills := fills + [Fill(McpE(suffix), [om.kin.p]), Fill(CalNTimeE, [hitTimeT0, om.kin.p])];
    }
    assert fills == pre + ContributionOldestFills(hitTimeT0, om);
    r := Ok(Acc(fills, {mcpO.value}));
  }

  lemma {:induction false} ContributionsRaisedStays(ev: Event, t0: real, p: seq<Contribution>, q: seq<Contribution>)
    requires WellFormed(ev)
    requires ContributionsStep(ev, t0, p).Raised?
    ensures ContributionsStep(ev, t0, p + q) == ContributionsStep(ev, t0, p)
    decreases |q|
  {
    if q == [] {
      assert p + q == p;
    } else {
      assert (p + q)[..|p + q| - 1] == p + q[..|q| - 1];
      ContributionsRaisedStays(ev, t0, p, q[..|q| - 1]);
    }
  }

  lemma ContributionsStepSnoc(ev: Event, t0: real, p: seq<Contribution>, c: Contribution)
    requires WellFormed(ev)
    ensures ContributionsStep(ev, t0, p + [c]) == Join(ContributionsStep(ev, t0, p), ContributionStep(ev, t0, c))
  {
    assert (p + [c])[..|p|] == p;
  }

  lemma CaloHitStepOk(ev: Event, hit: CaloHit, contFills: seq<Fill>, hitMcps: set<int>)
    requires WellFormed(ev)
    requires ContributionsStep(ev, hit.t0, hit.contributions) == Ok(Acc(contFills, hitMcps))
    ensures CaloHitStep(ev, hit)
            == Ok(Acc([Fill(CalEnergy, [hit.energy])] + contFills + SpreadFills(hit.contributions), hitMcps))
  {
    assert {} + hitMcps + {} == hitMcps;
  }

  /** The contribution loop of one calorimeter hit: `hit_times[iM]` is
      written in place with the time of contribution `iM`. */
  method ProcessContributions(ev: Event, t0: real, conts: seq<Contribution>, hitTimes: array<real>)
    returns (r: Outcome<Acc>)
    requires WellFormed(ev) && hitTimes.Length == |conts|
    modifies hitTimes
    ensures r == ContributionsStep(ev, t0, conts)
    ensures r.Ok? ==> hitTimes[..] == Times(conts)
  {
    var fills := [];
    var hitMcps := {};
    for iM := 0 to |conts|
      invariant forall k :: 0 <= k < iM ==> hitTimes[k] == conts[k].time
      invariant ContributionsStep(ev, t0, conts[..iM]) == Ok(Acc(fills, hitMcps))
    {
      assert conts[..iM + 1] == conts[..iM] + [conts[iM]];
      ContributionsStepSnoc(ev, t0, conts[..iM], conts[iM]);
      hitTimes[iM] := conts[iM].time;
      var step := ProcessContribution(ev, t0, conts[iM]);
      if step.Raised? {
        assert conts == conts[..iM + 1] + conts[iM + 1..];
        ContributionsRaisedStays(ev, t0, conts[..iM + 1], conts[iM + 1..]);
        return Raised(step.error);
      }
      fills := fills + step.value.fills;
      hitMcps := hitMcps + step.value.hitMcps;
    }
    assert conts[..|conts|] == conts;
    r := Ok(Acc(fills, hitMcps));
  }

  /** One calorimeter hit: its energy, the contribution loop, and the spread
      of `hit_times` when there is more than one contribution. */
  method ProcessCaloHit(ev: Event, hit: CaloHit) returns (r: Outcome<Acc>)
    requires WellFormed(ev)
    ensures r == CaloHitStep(ev, hit)
  {
    var nMcp := |hit.contributions|;
    var hitTimes := new real[nMcp](_ => 0.0);
    var fills := [Fill(CalEnergy, [hit.energy])];
    var conts := ProcessContributions(ev, hit.t0, hit.contributions, hitTimes);
    if conts.Raised? {
      assert CaloHitStep(ev, hit) == conts;
      return Raised(conts.error);
    }
    fills := fills + conts.value.fills;
    assert hitTimes[..] == Times(hit.contributions);
    if nMcp > 1 {
      fills := fills + [Fill(CalTimeMaxdiff, [MaxOf(hitTimes[..]) - MinOf(hitTimes[..])])];
    }
    CaloHitStepOk(ev, hit, conts.value.fills, conts.value.hitMcps);
    assert fills == [Fill(CalEnergy, [hit.energy])] + conts.value.fills + SpreadFills(hit.contributions);
    r := Ok(Acc(fills, conts.value.hitMcps));
  }

  lemma TrackerHitsStepSnoc(ev: Event, p: seq<TrackerHit>, h: TrackerHit)
    requires WellFormed(ev)
    ensures TrackerHitsStep(ev, p + [h]) == Join(TrackerHitsStep(ev, p), TrackerHitStep(ev, h))
  {
    assert (p + [h])[..|p|] == p;
  }

  /** The loop over `col`, after the hits `done`, takes one more hit. */
  lemma TrackerHitsStepNext(ev: Event, done: seq<TrackerHit>, col: seq<TrackerHit>, i: nat)
    requires WellFormed(ev) && i < |col|
    ensures TrackerHitsStep(ev, done + col[..i + 1]) == Join(TrackerHitsStep(ev, done + col[..i]), TrackerHitStep(ev, col[i]))
  {
    assert done + col[..i + 1] == (done + col[..i]) + [col[i]];
    TrackerHitsStepSnoc(ev, done + col[..i], col[i]);
  }

  /** A raise at hit `i` of `col` is the outcome of the whole collection. */
  lemma TrackerHitRaisedStays(ev: Event, done: seq<TrackerHit>, col: seq<TrackerHit>, i: nat)
    requires WellFormed(ev) && i < |col| && TrackerHitsStep(ev, done + col[..i + 1]).Raised?
    ensures TrackerHitsStep(ev, done + col) == TrackerHitsStep(ev, done + col[..i + 1])
  {
    SplitAfter(done, col, i);
    TrackerRaisedStays(ev, done + col[..i + 1], col[i + 1..]);
  }

  lemma SplitAfter<T>(done: seq<T>, col: seq<T>, i: nat)
    requires i < |col|
    ensures done + col == (done + col[..i + 1]) + col[i + 1..]
  {
    assert col == col[..i + 1] + col[i + 1..];
  }

  lemma {:induction false} TrackerRaisedStays(ev: Event, p: seq<TrackerHit>, q: seq<TrackerHit>)
    requires WellFormed(ev)
    requires TrackerHitsStep(ev, p).Raised?
    ensures TrackerHitsStep(ev, p + q) == TrackerHitsStep(ev, p)
    decreases |q|
  {
    if q == [] {
      assert p + q == p;
    } else {
      assert (p + q)[..|p + q| - 1] == p + q[..|q| - 1];
      TrackerRaisedStays(ev, p, q[..|q| - 1]);
    }
  }

  lemma CaloHitsStepSnoc(ev: Event, p: seq<CaloHit>, h: CaloHit)
    requires WellFormed(ev)
    ensures CaloHitsStep(ev, p + [h]) == Join(CaloHitsStep(ev, p), CaloHitStep(ev, h))
  {
    assert (p + [h])[..|p|] == p;
  }

  /** The loop over `col`, after the hits `done`, takes one more hit. */
  lemma CaloHitsStepNext(ev: Event, done: seq<CaloHit>, col: seq<CaloHit>, i: nat)
    requires WellFormed(ev) && i < |col|
    ensures CaloHitsStep(ev, done + col[..i + 1]) == Join(CaloHitsStep(ev, done + col[..i]), CaloHitStep(ev, col[i]))
  {
    assert done + col[..i + 1] == (done + col[..i]) + [col[i]];
    CaloHitsStepSnoc(ev, done + col[..i], col[i]);
  }

  /** A raise at hit `i` of `col` is the outcome of the whole collection. */
  lemma CaloHitRaisedStays(ev: Event, done: seq<CaloHit>, col: seq<CaloHit>, i: nat)
    requires WellFormed(ev) && i < |col| && CaloHitsStep(ev, done + col[..i + 1]).Raised?
    ensures CaloHitsStep(ev, done + col) == CaloHitsStep(ev, done + col[..i + 1])
  {
    SplitAfter(done, col, i);
    CaloRaisedStays(ev, done + col[..i + 1], col[i + 1..]);
  }

  lemma {:induction false} CaloRaisedStays(ev: Event, p: seq<CaloHit>, q: seq<CaloHit>)
    requires WellFormed(ev)
    requires CaloHitsStep(ev, p).Raised?
    ensures CaloHitsStep(ev, p + q) == CaloHitsStep(ev, p)
    decreases |q|
  {
    if q == [] {
      assert p + q == p;
    } else {
      assert (p + q)[..|p + q| - 1] == p + q[..|q| - 1];
      CaloRaisedStays(ev, p, q[..|q| - 1]);
    }
  }

  /** The hit loop of one `SimTrackerHit` collection `col`, after the hits `done`
      of the earlier collections. */
  method ProcessTrackerCollection(ev: Event, ghost done: seq<TrackerHit>, col: seq<TrackerHit>, acc: Acc) returns (r: Outcome<Acc>)
    requires WellFormed(ev)
    requires TrackerHitsStep(ev, done) == Ok(acc)
    ensures r == TrackerHitsStep(ev, done + col)
  {
    var fills := acc.fills;
    var hitMcps := acc.hitMcps;
    assert done + col[..0] == done;
    for iHit := 0 to |col|
      invariant TrackerHitsStep(ev, done + col[..iHit]) == Ok(Acc(fills, hitMcps))
    {
      TrackerHitsStepNext(ev, done, col, iHit);
      var step := ProcessTrackerHit(ev, col[iHit]);
      if step.Raised? {
        TrackerHitRaisedStays(ev, done, col, iHit);
        return Raised(step.error);
      }
      fills := fills + step.value.fills;
      hitMcps := hitMcps + step.value.hitMcps;
    }
    assert col[..|col|] == col;
    r := Ok(Acc(fills, hitMcps));
  }

  /** The `'SimTrackerHit'` pass: every collection, every hit. */
  method ProcessTrackerCollections(ev: Event, trk: seq<seq<TrackerHit>>) returns (r: Outcome<Acc>)
    requires WellFormed(ev)
    ensures r == TrackerHitsStep(ev, Flatten(trk))
  {
    var acc := Acc([], {});
    for iCol := 0 to |trk|
      invariant TrackerHitsStep(ev, Flatten(trk[..iCol])) == Ok(acc)
    {
      assert trk[..iCol + 1][..iCol] == trk[..iCol];
      assert trk == trk[..iCol + 1] + trk[iCol + 1..];
      FlattenAppend(trk[..iCol + 1], trk[iCol + 1..]);
      var colAcc := ProcessTrackerCollection(ev, Flatten(trk[..iCol]), trk[iCol], acc);
      if colAcc.Raised? {
        TrackerRaisedStays(ev, Flatten(trk[..iCol + 1]), Flatten(trk[iCol + 1..]));
        return colAcc;
      }
      acc := colAcc.value;
    }
    assert trk[..|trk|] == trk;
    r := Ok(acc);
  }

  /** The hit loop of one `SimCalorimeterHit` collection `col`, after the hits `done`
      of the earlier collections. */
  method ProcessCaloCollection(ev: Event, ghost done: seq<CaloHit>, col: seq<CaloHit>, acc: Acc) returns (r: Outcome<Acc>)
    requires WellFormed(ev)
    requires CaloHitsStep(ev, done) == Ok(acc)
    ensures r == CaloHitsStep(ev, done + col)
  {
    var fills := acc.fills;
    var hitMcps := acc.hitMcps;
    assert done + col[..0] == done;
    for iHit := 0 to |col|
      invariant CaloHitsStep(ev, done + col[..iHit]) == Ok(Acc(fills, hitMcps))
    {
      CaloHitsStepNext(ev, done, col, iHit);
      var step := ProcessCaloHit(ev, col[iHit]);
      if step.Raised? {
        CaloHitRaisedStays(ev, done, col, iHit);
        return Raised(step.error);
      }
      fills := fills + step.value.fills;
      hitMcps := hitMcps + step.value.hitMcps;
    }
    assert col[..|col|] == col;
    r := Ok(Acc(fills, hitMcps));
  }

  /** The `'SimCalorimeterHit'` pass: every collection, every hit. */
  method ProcessCaloCollections(ev: Event, cal: seq<seq<CaloHit>>) returns (r: Outcome<Acc>)
    requires WellFormed(ev)
    ensures r == CaloHitsStep(ev, Flatten(cal))
  {
    var acc := Acc([], {});
    for iCol := 0 to |cal|
      invariant CaloHitsStep(ev, Flatten(cal[..iCol])) == Ok(acc)
    {
      assert cal[..iCol + 1][..iCol] == cal[..iCol];
      assert cal == cal[..iCol + 1] + cal[iCol + 1..];
      FlattenAppend(cal[..iCol + 1], cal[iCol + 1..]);
      var colAcc := ProcessCaloCollection(ev, Flatten(cal[..iCol]), cal[iCol], acc);
      if colAcc.Raised? {
        CaloRaisedStays(ev, Flatten(cal[..iCol + 1]), Flatten(cal[iCol + 1..]));
        return colAcc;
      }
      acc := colAcc.value;
    }
    assert cal[..|cal|] == cal;
    r := Ok(acc);
  }

  /** `processEvent`: the tracker pass, the calorimeter pass, then the
      generator-level loop over all particles of the event. */
  method ProcessEvent(ev: Event, trk: seq<seq<TrackerHit>>, cal: seq<seq<CaloHit>>) returns (r: Outcome<seq<Fill>>)
    requires WellFormed(ev)
    ensures r == EventFills(ev, trk, cal)
  {
    var trkAcc := ProcessTrackerCollections(ev, trk);
    if trkAcc.Raised? {
      return Raised(trkAcc.error);
    }
    var calAcc := ProcessCaloCollections(ev, cal);
    if calAcc.Raised? {
      return Raised(calAcc.error);
    }
    var fills := trkAcc.value.fills + calAcc.value.fills;
    var hitMCParticles := trkAcc.value.hitMcps + calAcc.value.hitMcps;
    var genFills := [];
    for i := 0 to |ev.order|
      invariant genFills == GenFills(ev, ev.order[..i], hitMCParticles)
    {
      assert ev.order[..i + 1][..i] == ev.order[..i];
      var m := ev.mcps[ev.order[i]];
      if m.genStatus != 1 {
        continue;
      }
      if m.pdg !in HIT_PDGS {
        continue;
      }
      var hit := ev.order[i] in hitMCParticles;
      genFills := genFills + [Fill(Gen(GenEnergy, hit, m.pdg), [m.kin.p]),
                              Fill(Gen(GenZy, hit, m.pdg), [m.vertex.z, m.vertex.y]),
                              Fill(Gen(GenTime, hit, m.pdg), [m.time])];
    }
    assert ev.order[..|ev.order|] == ev.order;
    r := Ok(fills + genFills);
  }
}
