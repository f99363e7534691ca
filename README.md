# MuC-analysis-tools pyLCIO drivers, modelled in Dafny

The repository analyses simulated Muon Collider events with pyLCIO. An event
loop hands every event to a set of *drivers*. Each driver walks the event's
collections: tracker and calorimeter hits, their MC contributions, MC
particles, hit-to-reco relations and tracks. A driver either fills ROOT
histograms, fills a TTree, or accumulates counters. This project models the
event-processing logic of the nine driver files that carry real logic, and
proves what each of them computes.

- **Shared records (`Lcio`).** This module holds:
  - MC particles with their parent lists;
  - hits and contributions;
  - the 64-bit CellID assembled from its two 32-bit words;
  - the numpy/list index rule, where a negative index wraps and an index out of range raises `IndexError`;
  - an `Outcome` type for Python exceptions.
- **Oldest-parent resolver (`Provenance`).** This is `get_oldest_mcp_parent` in all its copies, including the one that also counts the depth. It follows the first parent that is not the particle itself. It returns `None` when every parent is the particle itself. It raises `RecursionError` on chains deeper than the interpreter's recursion limit.
- **PDG tables (`PdgTables`).** These are `pdg_to_type` and the `PDG_IDS` remap.
- **One module per driver.** Each holds the driver's `processEvent`:
  - `SimHitsTiming`: time-cut energy sums and the time closest to T0.
  - `HitsMcpTiming`: `hitMCParticles` ancestry and the `tlow`/`thigh` split.
  - `CalHitsMcp`: TTree rows for contributions inside the time window.
  - `TrkHitLoopers`: the 300-slot per-electron hit buffer and the LCIO events written.
  - `TrkEfficiency`: layer counters, cuts and the nearest track.
  - `TrkHitDensity`: per-layer cellID counts and histogram bins.
  - `TrkHitProps`: per-layer energy sums.
  - `HitProps`: per-contribution calorimeter fills.

Histogram fills are modelled as the sequence of `Fill` calls a method
returns: which histogram is filled, and with which values. A state-changing
driver is a Dafny `class`. Its fields are the driver's buffers. Its methods
are proved against a specification function of the old state. Loops that
stop on a Python exception are folds that carry the error. The inputs that
come from C++ libraries are parameters:
- the `BitField64` decoding of a CellID field, one function per collection;
- T0 (`|pos| / c`), `DeltaR`, and the kinematic quantities of a particle.

A negative layer index wraps as in numpy instead of raising (`Lcio.PyIndex`).

## Model

| member | source | states |
|---|---|---|
| Lcio.CellId | pylcio/drivers/trk_hit_density.py:59 | the assembled id keeps the low 32 bits of `cellID0` and carries `cellID1` above them |
| Lcio.CellIdSplit | pylcio/drivers/cal_hits_mcp.py:87 | every id is the assembly of its own low and high words |
| Lcio.CellIdInjective | pylcio/drivers/hit_props.py:130 | two word pairs give the same id only if their low 32 bits and high words agree |
| Lcio.CellIdRange | pylcio/drivers/trk_efficiency.py:134 | a signed 32-bit high word gives an id inside the signed 64-bit range |
| Lcio.PyIndex | pylcio/drivers/trk_hit_props.py:67 | an index is accepted exactly in `-n..n-1`; a negative one selects the entry `n` further on, and a non-negative one selects itself |
| Lcio.Abs | pylcio/drivers/trk_efficiency.py:193 | `abs` is non-negative and equals the value or its negation |
| Lcio.LayerOffsetStep | pylcio/drivers/trk_hit_density.py:41-46 | the offset of collection `i+1` is the offset of `i` plus `N_LAYERS[i]`, as the running `layer_id_offset` adds |
| Lcio.LayerOffsetMonotone | pylcio/drivers/trk_efficiency.py:126 | `sum(N_LAYERS[:iCol])` never decreases with `iCol` |
| Lcio.GlobalLayerInjective | pylcio/drivers/trk_efficiency.py:126-137 | offset plus layer maps every (collection, layer) pair to a distinct index below the total layer count |
| Provenance.FirstNonSelfIndex | pylcio/drivers/utils.py:6-8 | the loop skips exactly the leading parents that are the particle itself |
| Provenance.OldestMcpParent | pylcio/drivers/cal_hits_mcp.py:14-23 | a result has no parents, its depth is at least the starting `nIters`, and it is reached by following that many first-non-self links |
| Provenance.NoParentsIsOwnOldest | pylcio/drivers/utils.py:3-5 | a particle without parents is returned itself, at the current depth |
| Provenance.AllSelfParentsIsNone | pylcio/drivers/utils.py:6-9 | when every parent is the particle itself the loop falls through and the call returns `None` |
| Provenance.OldestIsIdempotent | pylcio/drivers/utils.py:1-9 | resolving a result again returns it unchanged, at depth 0 |
| Provenance.DepthZeroIffNoParents | pylcio/drivers/cal_hits_mcp.py:17-18 | the depth is 0 exactly when the particle has no parents |
| Provenance.ChainResolves | pylcio/drivers/cal_hits_mcp.py:19-23 | a chain of `k` first-non-self links ending at a particle without parents resolves to it at depth `nIters + k` |
| Provenance.MoreFuelSameResult | pylcio/drivers/utils.py:9 | a call that finished within the recursion limit gives the same answer under any larger limit |
| Provenance.UnboundedMeansLongChain | pylcio/drivers/utils.py:9 | `RecursionError` means the chain of first-non-self links really is longer than the limit |
| Provenance.TwoCycleNeverResolves | pylcio/drivers/utils.py:6-9 | two particles that are each other's first non-self parent always end in `RecursionError` |
| Provenance.OnlyFirstNonSelfParentMatters | pylcio/drivers/utils.py:6-9 | parent maps that agree on emptiness and on first non-self parents give the same result |
| Provenance.LaterParentsIgnored | pylcio/drivers/utils.py:6-9 | parents after the first non-self one can be changed without changing the next link |
| Provenance.OldestIsKnown | pylcio/drivers/hits_mcp_timing.py:9-17 | in a well-formed event the oldest parent is a particle of the event |
| PdgTables.PdgToType | pylcio/drivers/utils.py:11-93 | the type is at most 40; a non-zero type names the one code it was assigned to, and 0 means the code is none of the 40 listed |
| PdgTables.EveryTypeIsUsed | pylcio/drivers/utils.py:13-92 | each of the types 1..40 is returned for its listed code |
| PdgTables.PdgToTypeInjective | pylcio/drivers/utils.py:13-92 | no two listed codes share a type |
| PdgTables.AntiparticleGetsOtherType | pylcio/drivers/utils.py:13-36 | a listed particle and its listed antiparticle get different types |
| PdgTables.RemapPdg | pylcio/drivers/hits_mcp_timing.py:146-147 | a listed code is remapped into `-5..5` without 0; any other code is kept |
| PdgTables.PdgIdsShape | pylcio/drivers/hits_mcp_timing.py:28-38 | the table is injective, lands in `-5..5`, and maps a particle and its antiparticle to opposite values |
| PdgTables.RemapCollision | pylcio/drivers/hits_mcp_timing.py:189-192 | after the remap, the unlisted code 5 and the neutron 2112 both read 5 |
| SimHitsTiming.TimeCutsDescending | pylcio/drivers/sim_hits_timing.py:28 | `TIME_CUTS` is strictly descending |
| SimHitsTiming.CutsWithin | pylcio/drivers/sim_hits_timing.py:76-78 | the cuts kept are exactly those with `dt <= cut` |
| SimHitsTiming.BreakLoopVisitsWithin | pylcio/drivers/sim_hits_timing.py:99-102 | on descending cuts, breaking at the first failed cut visits exactly the cuts that `dt` passes |
| SimHitsTiming.NoneWithin | pylcio/drivers/sim_hits_timing.py:121-123 | when `dt` exceeds every cut no cut is visited |
| SimHitsTiming.CutFillsHasCut | pylcio/drivers/sim_hits_timing.py:79-82 | the energy histogram of cut `c` is filled exactly when `c` is visited, with the given energy |
| SimHitsTiming.FillPassedCuts | pylcio/drivers/sim_hits_timing.py:76-82 | the `break` loop fills the histograms of exactly the cuts `dt` passes, in order |
| SimHitsTiming.ProcessTrackerHit | pylcio/drivers/sim_hits_timing.py:66-82 | the tracker-hit loop body produces the tracker fills of the hit |
| SimHitsTiming.TrackerCutFilled | pylcio/drivers/sim_hits_timing.py:72-80 | a tracker hit fills cut `c` exactly when `t - T0 <= c`, with EDep in MeV |
| SimHitsTiming.NothingPassesZeroEnergy | pylcio/drivers/sim_hits_timing.py:94 | a cut that no contribution passes keeps its initial 0.0 |
| SimHitsTiming.EnergyWithinMonotone | pylcio/drivers/sim_hits_timing.py:99-102 | with non-negative energies a looser cut never collects less |
| SimHitsTiming.TimeCutEnergiesOrdered | pylcio/drivers/sim_hits_timing.py:94-102 | `hit_e[100] >= hit_e[10] >= hit_e[5] >= hit_e[2]` |
| SimHitsTiming.ClosestIndex | pylcio/drivers/sim_hits_timing.py:93-98 | the time kept is the sentinel or the time of one contribution |
| SimHitsTiming.ClosestIsFirstMinimum | pylcio/drivers/sim_hits_timing.py:97-98 | the time kept is a closest one to T0, the first of them, and the 1e9 sentinel stays only if nothing is strictly closer |
| SimHitsTiming.AddToPassedCuts | pylcio/drivers/sim_hits_timing.py:99-102 | one contribution adds its energy to the cuts its time passes, keeping the dict's keys |
| SimHitsTiming.AggregateContributions | pylcio/drivers/sim_hits_timing.py:93-102 | the contribution loop yields the closest time and, per cut, the energy inside it |
| SimHitsTiming.PositiveEnergyFillsHasCut | pylcio/drivers/sim_hits_timing.py:106-112 | a cut's histograms are filled exactly when its summed energy is positive |
| SimHitsTiming.ProcessCaloHit | pylcio/drivers/sim_hits_timing.py:86-127 | the calorimeter-hit loop body produces the hit's fills, or, for a hit without contributions, the error of `getTimeCont(0)`, modelled as `IndexError` |
| SimHitsTiming.MultiBranchCutFilled | pylcio/drivers/sim_hits_timing.py:92-112 | a multi-contribution hit fills cut `c` exactly when `hit_e[c] > 0`, with that energy in MeV |
| SimHitsTiming.SingleBranchCutFilled | pylcio/drivers/sim_hits_timing.py:114-127 | a single-contribution hit fills every cut its contribution's time passes, with the hit's energy |
| SimHitsTiming.ProcessTrackerCollection | pylcio/drivers/sim_hits_timing.py:66-82 | the tracker hit loop gives the fills of every hit in order |
| SimHitsTiming.ProcessCaloCollection | pylcio/drivers/sim_hits_timing.py:86-127 | the calorimeter hit loop gives the fills of every hit, or stops at the first raise |
| SimHitsTiming.ProcessEvent | pylcio/drivers/sim_hits_timing.py:54-127 | `processEvent` gives the fills of every tracker, calorimeter and muon collection in order |
| HitsMcpTiming.Resolve | pylcio/drivers/hits_mcp_timing.py:140-141 | a resolved id is a particle of the event without parents; a failure is the `AttributeError` of `None.id()` or a `RecursionError` |
| HitsMcpTiming.MaxOf | pylcio/drivers/hits_mcp_timing.py:200 | `hit_times.max()` is an element no smaller than any other |
| HitsMcpTiming.MinOf | pylcio/drivers/hits_mcp_timing.py:200 | `hit_times.min()` is an element no larger than any other |
| HitsMcpTiming.SpreadNonNegative | pylcio/drivers/hits_mcp_timing.py:200 | the time spread of a hit is never negative |
| HitsMcpTiming.GenParticleFills | pylcio/drivers/hits_mcp_timing.py:203-218 | a generator particle is filled exactly when its status is 1 and it is a photon or a neutron, under its own hit flag and pdg |
| HitsMcpTiming.ContributionBand | pylcio/drivers/hits_mcp_timing.py:187-192 | a contribution goes to `tlow` exactly when it is earlier than 10 ns after T0, with the remapped pdg of its oldest ancestor |
| HitsMcpTiming.ContributionNeutronOnly | pylcio/drivers/hits_mcp_timing.py:194-198 | the energy fills are made exactly when the oldest ancestor is a neutron |
| HitsMcpTiming.TrackerNeutronOnly | pylcio/drivers/hits_mcp_timing.py:150-152 | the tracker neutron fill is made exactly when the oldest ancestor is a neutron |
| HitsMcpTiming.NoSpreadInContributions | pylcio/drivers/hits_mcp_timing.py:165-198 | the contribution loop itself never fills the spread histogram |
| HitsMcpTiming.SpreadOnlyForSeveral | pylcio/drivers/hits_mcp_timing.py:199-200 | the spread is filled exactly for hits with more than one contribution, with max minus min |
| HitsMcpTiming.ContributionsCollectAncestors | pylcio/drivers/hits_mcp_timing.py:181-182 | the loop succeeds exactly when every contribution resolves, and then collects exactly their oldest ancestors |
| HitsMcpTiming.TrackerCollectAncestors | pylcio/drivers/hits_mcp_timing.py:140-141 | the same for tracker hits |
| HitsMcpTiming.CaloCollectAncestors | pylcio/drivers/hits_mcp_timing.py:157-182 | the same for every contribution of every calorimeter hit |
| HitsMcpTiming.HitMcpsAreOldestAncestors | pylcio/drivers/hits_mcp_timing.py:117-200 | `hitMCParticles` is exactly the set of oldest ancestors of all tracker hits and calorimeter contributions |
| HitsMcpTiming.GenFillsClassify | pylcio/drivers/hits_mcp_timing.py:203-218 | every generator fill belongs to a status-1 photon or neutron and is marked `hit` exactly when the particle is in `hitMCParticles` |
| HitsMcpTiming.GenFillsComplete | pylcio/drivers/hits_mcp_timing.py:203-213 | every status-1 photon and neutron gets its energy fill |
| HitsMcpTiming.ProcessContributions | pylcio/drivers/hits_mcp_timing.py:162-171 | the contribution loop's result is the specification's, and `hit_times[iM]` holds each contribution's time |
| HitsMcpTiming.ProcessEvent | pylcio/drivers/hits_mcp_timing.py:111-218 | `processEvent` gives the fills of the hit loops followed by the generator loop, or the first raise |
| CalHitsMcp.WindowIsInclusive | pylcio/drivers/cal_hits_mcp.py:105-108 | a contribution is kept exactly when `-1.0 <= t - T0 <= 0.3` |
| CalHitsMcp.RejectedChangesOnlyTime | pylcio/drivers/cal_hits_mcp.py:103-108 | a rejected contribution still overwrites `time`, and changes nothing else |
| CalHitsMcp.AcceptedAddsOneRow | pylcio/drivers/cal_hits_mcp.py:109-131 | an accepted contribution appends exactly one row: its time, energy, particle, oldest ancestor and depth, and the hit's own fields |
| CalHitsMcp.AllSelfParentsFailsUnpacking | pylcio/drivers/cal_hits_mcp.py:112 | when the resolver returns `None`, unpacking it raises `TypeError` |
| CalHitsMcp.LoopAddsAcceptedRows | pylcio/drivers/cal_hits_mcp.py:102-131 | the contribution loop appends one row per contribution inside the window and keeps the earlier rows |
| CalHitsMcp.HitRowsCarryHitFields | pylcio/drivers/cal_hits_mcp.py:85-131 | every row of a hit carries its collection, decoded side and layer, T0 and position, and a time inside the window |
| CalHitsMcp.CalHitsMcpDriver.constructor | pylcio/drivers/cal_hits_mcp.py:53-60 | the branch buffers start zeroed and the tree empty |
| CalHitsMcp.CalHitsMcpDriver.ProcessContribution | pylcio/drivers/cal_hits_mcp.py:103-131 | one contribution updates the buffers and the tree as the specification says |
| CalHitsMcp.CalHitsMcpDriver.ProcessHit | pylcio/drivers/cal_hits_mcp.py:85-131 | one hit updates the buffers and the tree as the specification says |
| CalHitsMcp.CalHitsMcpDriver.ProcessEvent | pylcio/drivers/cal_hits_mcp.py:62-131 | `processEvent` updates the buffers and the tree as the specification says, or stops at the first raise |
| TrkHitLoopers.SlotsOf | pylcio/drivers/trk_hit_loopers.py:127-136 | each matched hit fills one slot, in order, with its detector index |
| TrkHitLoopers.MatchingIsFilter | pylcio/drivers/trk_hit_loopers.py:118-123 | the hits kept are exactly those of the particle |
| TrkHitLoopers.MatchingAppend | pylcio/drivers/trk_hit_loopers.py:118-125 | filtering distributes over concatenation |
| TrkHitLoopers.LcioHitsPerCollection | pylcio/drivers/trk_hit_loopers.py:109-125 | `lcio_hits[i]` holds the particle's hits of collection `i` |
| TrkHitLoopers.SlotsAreFlattenedHits | pylcio/drivers/trk_hit_loopers.py:111-137 | slot `k` is the `k`-th stored hit, tagged with the collection it came from |
| TrkHitLoopers.SlotsPrefix | pylcio/drivers/trk_hit_loopers.py:111-137 | earlier collections never fill more slots than all of them |
| TrkHitLoopers.NonElectronUntouched | pylcio/drivers/trk_hit_loopers.py:104-105 | a particle that is not an electron changes nothing |
| TrkHitLoopers.OverflowRaises | pylcio/drivers/trk_hit_loopers.py:127-129 | an electron raises `IndexError` exactly when it has more than `NHITS_MAX` (300) hits |
| TrkHitLoopers.ElectronEffect | pylcio/drivers/trk_hit_loopers.py:107-180 | an electron with hits writes one tree row and one LCIO event numbered by the counter, which then grows by one; one without hits leaves them alone; the unused slots stay zero |
| TrkHitLoopers.EventCounts | pylcio/drivers/trk_hit_loopers.py:102-180 | `nParticles` counts the electrons with hits, and the tree, the written events and the counter grow by that much |
| TrkHitLoopers.EventKeepsNumbering | pylcio/drivers/trk_hit_loopers.py:167-180 | written events stay numbered 0, 1, 2, ... |
| TrkHitLoopers.TrkHitLoopersDriver.constructor | pylcio/drivers/trk_hit_loopers.py:35-52 | zeroed 300-slot buffers, no rows, no events, counter 0 |
| TrkHitLoopers.TrkHitLoopersDriver.ClearData | pylcio/drivers/trk_hit_loopers.py:55-58 | every buffer is zeroed, and nothing else changes |
| TrkHitLoopers.TrkHitLoopersDriver.FillCollection | pylcio/drivers/trk_hit_loopers.py:118-137 | the particle's hits of one collection are written to the next slots, or the write past slot 300 raises |
| TrkHitLoopers.TrkHitLoopersDriver.ProcessParticle | pylcio/drivers/trk_hit_loopers.py:102-180 | one particle changes the driver's state as the specification says |
| TrkHitLoopers.TrkHitLoopersDriver.ProcessEvent | pylcio/drivers/trk_hit_loopers.py:89-180 | `processEvent` changes the driver's state as the specification says, or stops at the first raise |
| TrkEfficiency.LayerTotal | pylcio/drivers/trk_efficiency.py:20-36 | `N_LAYERS_TOTAL` is the sum of `N_LAYERS`, and the two vertex detectors make the first `N_LAYERS_VTX` = 16 layers |
| TrkEfficiency.Counters | pylcio/drivers/trk_efficiency.py:120-121 | the counters are 33 entries each, and the only error is `IndexError` |
| TrkEfficiency.CountersCount | pylcio/drivers/trk_efficiency.py:137-146 | counting raises exactly when a hit's global layer is no valid index; otherwise each uint8 counter holds its hits and relations modulo 256 |
| TrkEfficiency.IncsOfAreOwnHits | pylcio/drivers/trk_efficiency.py:128-131 | only the particle's own hits are counted, each once |
| TrkEfficiency.RelCountIsMatchingRelations | pylcio/drivers/trk_efficiency.py:141-146 | a hit's relation count is the number of relations pointing to it |
| TrkEfficiency.PositiveCountIsLayerCount | pylcio/drivers/trk_efficiency.py:147 | `len(nhits[nhits>0])` is the number of layers with hits |
| TrkEfficiency.PositiveCountOfPrefix | pylcio/drivers/trk_efficiency.py:149-150 | the vertex slice never has more layers with hits than the whole |
| TrkEfficiency.AbsThetaSymmetric | pylcio/drivers/trk_efficiency.py:78-80 | `abstheta` is symmetric about 90 degrees and zero only there |
| TrkEfficiency.ThetaMIsAngleToBeam | pylcio/drivers/trk_efficiency.py:161 | `theta_m` is the smaller angle to the beam axis, in `0..90` |
| TrkEfficiency.Nearest | pylcio/drivers/trk_efficiency.py:169-177 | the result is 999 with id -1, or the dR of the track it names |
| TrkEfficiency.NearestIsFirstMinimum | pylcio/drivers/trk_efficiency.py:169-179 | no track is found exactly when every dR is at least 999; otherwise the track found has the smallest dR and is the first such |
| TrkEfficiency.NearestTrack | pylcio/drivers/trk_efficiency.py:169-177 | the search loop returns the nearest track |
| TrkEfficiency.NearestFillsDescribeNearest | pylcio/drivers/trk_efficiency.py:179-201 | corrected line 185: the track fills use the nearest track, and are made exactly when its dR and relative pt difference pass the cuts |
| TrkEfficiency.AsWrittenRecordsWrongTrack | pylcio/drivers/trk_efficiency.py:185 | an input on which the code as written fills the last track's pt instead of the nearest one's |
| TrkEfficiency.DRs | pylcio/drivers/trk_efficiency.py:171-174 | one dR per track, in track order |
| TrkEfficiency.ParticleSelection | pylcio/drivers/trk_efficiency.py:100-159 | a particle is counted exactly when it passes the status, pdg and pt cuts, and filled exactly when it also has hits in at least 4 layers |
| TrkEfficiency.NmcpCountsPreselected | pylcio/drivers/trk_efficiency.py:99-116 | `nmcp` counts the preselected particles |
| TrkEfficiency.CountRelations | pylcio/drivers/trk_efficiency.py:141-146 | the relation loop adds the hit's relation count to one uint8 counter and changes no other |
| TrkEfficiency.CountLayers | pylcio/drivers/trk_efficiency.py:120-146 | the counting loops leave the counters the specification gives, or the first raise |
| TrkEfficiency.ProcessParticle | pylcio/drivers/trk_efficiency.py:101-201 | one particle's result is the specification's; after a track is found, the track fills re-read the last track searched (`iTrk`), as line 185 is written |
| TrkEfficiency.ProcessEvent | pylcio/drivers/trk_efficiency.py:99-201 | `processEvent` gives the fills and `nmcp` of the specification, with line 185 as written, or the first raise |
| TrkEfficiency.AsWrittenAgreesWhenNearestIsLast | pylcio/drivers/trk_efficiency.py:169-185 | line 185 as written fills the same values as the corrected code when no track is found, when the nearest track is the last one searched, and whenever there is at most one track |
| TrkHitDensity.Values | pylcio/drivers/trk_hit_density.py:68 | `list(d.values())` lists the counts in key insertion order |
| TrkHitDensity.OccurrencesPositive | pylcio/drivers/trk_hit_density.py:62-65 | a cell has a count exactly when it occurs |
| TrkHitDensity.BumpTallies | pylcio/drivers/trk_hit_density.py:62-65 | one dict update keeps the dict equal to the count of every cell seen |
| TrkHitDensity.TalliesArePositive | pylcio/drivers/trk_hit_density.py:62-65 | every count is at least 1 and there are no more keys than hits |
| TrkHitDensity.Count | pylcio/drivers/trk_hit_density.py:52-65 | the result has one dict per layer, and the only error is `IndexError` |
| TrkHitDensity.CountRaisesOnBadLayer | pylcio/drivers/trk_hit_density.py:61-62 | counting raises exactly when some hit's layer is no valid index |
| TrkHitDensity.CountTalliesLayers | pylcio/drivers/trk_hit_density.py:57-65 | each layer's dict counts exactly the cellIDs of that layer's hits |
| TrkHitDensity.Min | pylcio/drivers/trk_hit_density.py:72 | `np.min` is an element no larger than any other |
| TrkHitDensity.Max | pylcio/drivers/trk_hit_density.py:73 | `np.max` is an element no smaller than any other |
| TrkHitDensity.LayerBinsDescribeTally | pylcio/drivers/trk_hit_density.py:72-76 | a layer without hits raises `ValueError`; otherwise sum is the layer's hit count and `1 <= min <= max <= sum`, mean at most max |
| TrkHitDensity.MeanAtMostMax | pylcio/drivers/trk_hit_density.py:74 | a mean never exceeds the maximum |
| TrkHitDensity.BinsAreDistinct | pylcio/drivers/trk_hit_density.py:41-72 | bin `1 + offset + layer` is distinct for each (collection, layer) and lies in `1..16` |
| TrkHitDensity.CountCollection | pylcio/drivers/trk_hit_density.py:52-65 | the hit loop leaves the dicts of the specification, or the raise |
| TrkHitDensity.FillCollection | pylcio/drivers/trk_hit_density.py:67-76 | conversion and bin loops set the bins of the specification, or the raise |
| TrkHitDensity.ProcessCollection | pylcio/drivers/trk_hit_density.py:52-76 | the body of the collection loop, counting and then setting bins, gives the bin settings of the specification, or the first raise |
| TrkHitDensity.ProcessEvent | pylcio/drivers/trk_hit_density.py:38-76 | `processEvent` sets the bins of every collection with the running offset, or stops at the first raise |
| TrkHitProps.AddHit | pylcio/drivers/trk_hit_props.py:67 | on success all 8 sums remain |
| TrkHitProps.AddHitTouchesOneEntry | pylcio/drivers/trk_hit_props.py:63-67 | a hit adds its EDep to the entry of its layer and to no other; a layer outside `-8..7` raises |
| TrkHitProps.AddHitsSums | pylcio/drivers/trk_hit_props.py:60-67 | without an error each entry grows by the energy of its layer's hits, and the total by the energy of all hits |
| TrkHitProps.AddHitsStopsAtBadLayer | pylcio/drivers/trk_hit_props.py:60-67 | an error is `IndexError` at the first hit with a bad layer, and the sums hold exactly the hits before it |
| TrkHitProps.TrkHitPropsDriver.constructor | pylcio/drivers/trk_hit_props.py:44 | eight sums, all zero |
| TrkHitProps.TrkHitPropsDriver.ProcessCollection | pylcio/drivers/trk_hit_props.py:60-68 | the hit loop changes the sums as the specification says, or stops at the raise |
| TrkHitProps.TrkHitPropsDriver.ProcessEvent | pylcio/drivers/trk_hit_props.py:46-68 | `processEvent` changes the sums as the specification says, or stops at the raise |
| HitProps.ContributionFills | pylcio/drivers/hit_props.py:141-155 | five fills per contribution; time minus T0 and energy in keV are filled, so both can be read back |
| HitProps.ContributionsFillsInOrder | pylcio/drivers/hit_props.py:138-155 | each contribution gives exactly its five fills, in contribution order |
| HitProps.ContributionsFillInHit | pylcio/drivers/hit_props.py:130-155 | a hit's fills are those of its contributions, with the decoded layer plus one and the hit's T0 |
| HitProps.HitsFillsAreHitFills | pylcio/drivers/hit_props.py:128-155 | the fills of a run of hits are exactly the fills of its hits |
| HitProps.HitCap | pylcio/drivers/hit_props.py:128 | hits past the first 10000 of a collection fill nothing, and every hit up to that is read |
| HitProps.HitsFillsCount | pylcio/drivers/hit_props.py:128-155 | five fills per contribution of every hit read |
| HitProps.EventFillsByCollection | pylcio/drivers/hit_props.py:92-155 | a fill of the event is a fill of the hit loop of the collection it names |
| HitProps.ProcessHit | pylcio/drivers/hit_props.py:129-155 | the contribution loop makes the hit's fills |
| HitProps.ProcessCollection | pylcio/drivers/hit_props.py:128-155 | the hit loop makes the collection's fills |
| HitProps.ProcessEvent | pylcio/drivers/hit_props.py:81-155 | `processEvent` makes the fills of every calorimeter collection in order |

## Findings

| source | as written | input that shows it | evidently intended | confidence | as-written member | corrected member |
|---|---|---|---|---|---|---|
| pylcio/drivers/trk_efficiency.py:185 | the track filled is `trks.getElementAt(iTrk)`, the last track of the search loop | a muon with pt 10 and two tracks of pt 10 and 20 at dR 0.001 and 0.5: the nearest is track 0, but track 1's pt 20 is filled | `trks.getElementAt(trk_id)`, the nearest track | not executed | TrkEfficiency.AsWrittenRecordsWrongTrack | TrkEfficiency.NearestFillsDescribeNearest |

The as-written behaviour is `TrkEfficiency.NearestFillsAsWritten`. The
particle and event loops (`TrkEfficiency.ParticleStep`, `ProcessParticle`,
`ProcessEvent`) use it, as the driver does. The corrected behaviour is
`TrkEfficiency.NearestFills`. `TrkEfficiency.AsWrittenAgreesWhenNearestIsLast`
states when the two agree.

## Left out

- ROOT histograms, profiles, TTrees and TFile output. A `Fill` is recorded as a value in a returned sequence; binning, storage and `Write` are not modelled.
- LCIO input and output. This covers `getCollection`, run headers, the `LCWriter` of `trk_hit_loopers.py:85-86,99-101,163-178`, and `copy()`. The events a looper run writes are recorded as values.
- `UTIL.BitField64` decoding. Each field is a parameter function of the collection index and the assembled CellID, because each collection builds its own decoder from its own encoding string. Only the CellID assembly is modelled.
- Geometry and kinematics, because they are floating-point library code. T0, `DeltaR`, `Perp`, theta, p, pt, beta and gamma are given reals on the records, and `trk_vec` with its magnetic-field formula is not modelled.
- Floating point is modelled as exact reals. This covers float32 buffers, and the int32 truncation of the TTree branches in `cal_hits_mcp.py` and `trk_hit_loopers.py`. The uint8 counters of `trk_efficiency.py:120-121` are the exception: their wrap-around is modelled.
- `TrkHitProps.TrkHitPropsDriver.constructor` stands for `__init__` followed by `startOfData`; the histogram booking of `startOfData` is left out.
- The code after `continue` at `trk_hit_props.py:69-77` is unreachable, so no histogram of that driver is ever filled. `endOfData` only prints `eTot`. Neither is modelled.
- The `SimTrackerHit` branch of `hit_props.py:102-125` never runs, because only `'SimCalorimeterHit'` is iterated (line 92). The side is decoded at line 132 but never used. Neither is modelled.
- SimHitsTiming.CaloHitFills and ProcessCaloHit assume that `hit.getTimeCont(0)` raises for a hit without contributions (`sim_hits_timing.py:114-115`). That accessor is LCIO C++ code reached through cppyy, and it is not part of this model. `IndexError` stands in for whatever error the library surfaces.
- The debugger stop `br()` at `hit_props.py:137`, and every `print`, are left out, because they are interactive I/O.
- `hit_props.py` is read as Python 2 code: it uses `long`, an unbounded integer like Dafny's `int`. `hits_mcp_timing.py:220` calls `.format` on the result of `print(...)`. That is harmless under Python 2's print statement, and it is left out as a print.
- Null references are not modelled as Python objects. A hit whose particle is not in the event stands for the `None` pyLCIO returns, and calling a method on it raises `AttributeError`.
- The recursion limit is the constant `RECURSION_LIMIT = 1000`, used as fuel. The exact depth at which CPython raises depends on the stack already in use.
- `TrkHitDensity`: `np.median` at `trk_hit_density.py:75` is not modelled, because it needs a sort; min, max, mean and sum are. The uint32 dtype of the count arrays is left out.
- `TrkEfficiency`: several values are computed but never used afterwards, so they are not modelled. These are:
  - the `simhits` and `rechits` lists and `hitcols`;
  - `nlayers_rec` and `nlayers_vtx`;
  - the theta print at lines 181-182;
  - the `nmcp != 1` print.
- `pylcio/run.py`, `notebooks/pycode/utils.py`, `trk_props.py`, `pfo_props.py` and `vtx_hit_props.py` are not part of this model. They only glue, plot, or fill histograms.
