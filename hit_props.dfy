/** `HitPropsDriver`: for every MC contribution of a calorimeter hit, fills
    the time, energy and layer histograms of the hit's collection. */
module HitProps {
  import opened Lcio

  /** The calorimeter collections, in the order `processEvent` reads them. */
  const CAL_COLLECTIONS: seq<string> :=
    ["ECalBarrelCollection", "ECalEndcapCollection", "HCalBarrelCollection", "HCalEndcapCollection", "HCalRingCollection"]

  /** At most this many hits of a collection are read. */
  const N_HITS_MAX: nat := 10000

  /** GeV to keV. */
  const GEV_TO_KEV: real := 1000000.0

  /** A SimCalorimeterHit: its CellID words, its T0 (`|pos| / c`, given) and
      its MC contributions. */
  datatype CaloHit = CaloHit(cellID0: int, cellID1: int, t0: real, contributions: seq<Contribution>)

  /** The histograms of a collection that the contribution loop fills. */
  datatype Histo = LayerVsTime | LayerVsTimeZoom | EVsTime | HitTime | HitE

  /** One `Fill` call on histogram `histo` of collection `col`. */
  datatype Fill = Fill(col: nat, histo: Histo, values: seq<real>)

  /** The layer a hit is filled with: the decoded `layer` field plus one. */
  function HitLayer(iCol: nat, hit: CaloHit, layerOf: (int, int) -> int): int
  {
    layerOf(iCol, CellId(hit.cellID0, hit.cellID1)) + 1
  }

  /** The five fills of one contribution of a hit in layer `layer` with time
      offset `t0`: the contribution's time less T0 and its energy in keV are
      what is filled, so both can be read back from the fills. */
  function ContributionFills(iCol: nat, layer: int, t0: real, c: Contribution): (r: seq<Fill>)
    ensures |r| == 5 && forall f :: f in r ==> f.col == iCol
    ensures r[3].histo == HitTime && |r[3].values| == 1 && r[3].values[0] + t0 == c.time
    ensures r[4].histo == HitE && |r[4].values| == 1 && r[4].values[0] / GEV_TO_KEV == c.energy
    ensures r[0].histo == LayerVsTime && |r[0].values| == 2 && r[0].values[1] == layer as real
    ensures r[2].histo == EVsTime && r[2].values == [r[3].values[0], r[4].values[0]]
  {
    var dt := c.time - t0;
    var e := c.energy * GEV_TO_KEV;
    [ Fill(iCol, LayerVsTime, [dt, layer as real]),
      Fill(iCol, LayerVsTimeZoom, [dt, layer as real]),
      Fill(iCol, EVsTime, [dt, e]),
      Fill(iCol, HitTime, [dt]),
      Fill(iCol, HitE, [e]) ]
  }

  /** The contribution loop of one hit. */
  function ContributionsFills(iCol: nat, layer: int, t0: real, cs: seq<Contribution>): seq<Fill>
  {
    if cs == [] then []
    else ContributionsFills(iCol, layer, t0, cs[..|cs| - 1]) + ContributionFills(iCol, layer, t0, cs[|cs| - 1])
  }

  function HitFills(iCol: nat, hit: CaloHit, layerOf: (int, int) -> int): seq<Fill>
  {
    ContributionsFills(iCol, HitLayer(iCol, hit, layerOf), hit.t0, hit.contributions)
  }

  function HitsFills(iCol: nat, hits: seq<CaloHit>, layerOf: (int, int) -> int): seq<Fill>
  {
    if hits == [] then []
    else HitsFills(iCol, hits[..|hits| - 1], layerOf) + HitFills(iCol, hits[|hits| - 1], layerOf)
  }

  /** The hits of a collection that are read: the first `N_HITS_MAX`. */
  function ReadHits(hits: seq<CaloHit>): seq<CaloHit>
  {
    if |hits| <= N_HITS_MAX then hits else hits[..N_HITS_MAX]
  }

  /** The hit loop of collection `iCol`. */
  function CollectionFills(iCol: nat, hits: seq<CaloHit>, layerOf: (int, int) -> int): seq<Fill>
  {
    HitsFills(iCol, ReadHits(hits), layerOf)
  }

  /** The collection loop of `processEvent`. */
  function EventFills(cols: seq<seq<CaloHit>>, layerOf: (int, int) -> int): seq<Fill>
  {
    if cols == [] then []
    else EventFills(cols[..|cols| - 1], layerOf) + CollectionFills(|cols| - 1, cols[|cols| - 1], layerOf)
  }

  function NContributions(hits: seq<CaloHit>): nat
  {
    if hits == [] then 0 else NContributions(hits[..|hits| - 1]) + |hits[|hits| - 1].contributions|
  }

  // ---------------------------------------------------------------------
  // Properties

  /** Each contribution gives exactly its five fills, in contribution order. */
  lemma {:induction false} ContributionsFillsInOrder(iCol: nat, layer: int, t0: real, cs: seq<Contribution>)
    ensures var r := ContributionsFills(iCol, layer, t0, cs);
            && |r| == 5 * |cs|
            && forall j :: 0 <= j < |cs| ==> r[5 * j..5 * j + 5] == ContributionFills(iCol, layer, t0, cs[j])
  {
    if cs != [] {
      var init := cs[..|cs| - 1];
      ContributionsFillsInOrder(iCol, layer, t0, init);
      var r := ContributionsFills(iCol, layer, t0, cs);
      var p := ContributionsFills(iCol, layer, t0, init);
      forall j | 0 <= j < |cs|
        ensures r[5 * j..5 * j + 5] == ContributionFills(iCol, layer, t0, cs[j])
      {
        if j < |init| {
          assert r[5 * j..5 * j + 5] == p[5 * j..5 * j + 5];
          assert init[j] == cs[j];
        }
      }
    }
  }

  /** Hits beyond the first `N_HITS_MAX` of a collection fill nothing; up to
      that many, every hit is read. */
  lemma HitCap(iCol: nat, hits: seq<CaloHit>, more: seq<CaloHit>, layerOf: (int, int) -> int)
    ensures |hits| <= N_HITS_MAX ==> CollectionFills(iCol, hits, layerOf) == HitsFills(iCol, hits, layerOf)
    ensures |hits| >= N_HITS_MAX ==>
              CollectionFills(iCol, hits + more, layerOf) == HitsFills(iCol, hits[..N_HITS_MAX], layerOf)
  {
    if |hits| >= N_HITS_MAX {
      assert ReadHits(hits + more) == hits[..N_HITS_MAX];
    }
  }

  /** Five fills per contribution of every hit read. */
  lemma {:induction false} HitsFillsCount(iCol: nat, hits: seq<CaloHit>, layerOf: (int, int) -> int)
    ensures |HitsFills(iCol, hits, layerOf)| == 5 * NContributions(hits)
  {
    if hits != [] {
      HitsFillsCount(iCol, hits[..|hits| - 1], layerOf);
      var h := hits[|hits| - 1];
      ContributionsFillsInOrder(iCol, HitLayer(iCol, h, layerOf), h.t0, h.contributions);
    }
  }

  /** The fills of a run of hits are exactly the fills of its hits. */
  lemma {:induction false} HitsFillsAreHitFills(iCol: nat, hits: seq<CaloHit>, layerOf: (int, int) -> int, f: Fill)
    ensures f in HitsFills(iCol, hits, layerOf) <==> exists i :: 0 <= i < |hits| && f in HitFills(iCol, hits[i], layerOf)
  {
    if hits != [] {
      var init := hits[..|hits| - 1];
      HitsFillsAreHitFills(iCol, init, layerOf, f);
      if f in HitsFills(iCol, init, layerOf) {
        var i :| 0 <= i < |init| && f in HitFills(iCol, init[i], layerOf);
        assert hits[i] == init[i];
      }
      if exists i :: 0 <= i < |hits| && f in HitFills(iCol, hits[i], layerOf) {
        var i :| 0 <= i < |hits| && f in HitFills(iCol, hits[i], layerOf);
        if i < |init| {
          assert hits[i] == init[i];
        }
      }
    }
  }

  /** The fills of a hit are those of its contributions, each with the hit's
      decoded layer plus one and the hit's T0. */
  lemma ContributionsFillInHit(iCol: nat, h: CaloHit, layerOf: (int, int) -> int, f: Fill)
    ensures f in HitFills(iCol, h, layerOf) <==>
              exists j :: 0 <= j < |h.contributions|
                && f in ContributionFills(iCol, layerOf(iCol, CellId(h.cellID0, h.cellID1)) + 1, h.t0, h.contributions[j])
  {
    ContributionsFillIn(iCol, HitLayer(iCol, h, layerOf), h.t0, h.contributions, f);
  }

  lemma ContributionsFillIn(iCol: nat, layer: int, t0: real, cs: seq<Contribution>, f: Fill)
    ensures f in ContributionsFills(iCol, layer, t0, cs) <==>
              exists j :: 0 <= j < |cs| && f in ContributionFills(iCol, layer, t0, cs[j])
  {
    if f in ContributionsFills(iCol, layer, t0, cs) {
      FillFromSomeContribution(iCol, layer, t0, cs, f);
    }
    if exists j :: 0 <= j < |cs| && f in ContributionFills(iCol, layer, t0, cs[j]) {
      var j :| 0 <= j < |cs| && f in ContributionFills(iCol, layer, t0, cs[j]);
      ContributionFillIsKept(iCol, layer, t0, cs, j, f);
    }
  }

  lemma {:induction false} FillFromSomeContribution(iCol: nat, layer: int, t0: real, cs: seq<Contribution>, f: Fill)
    requires f in ContributionsFills(iCol, layer, t0, cs)
    ensures exists j :: 0 <= j < |cs| && f in ContributionFills(iCol, layer, t0, cs[j])
  {
    var init := cs[..|cs| - 1];
    if f in ContributionsFills(iCol, layer, t0, init) {
      FillFromSomeContribution(iCol, layer, t0, init, f);
      var j :| 0 <= j < |init| && f in ContributionFills(iCol, layer, t0, init[j]);
      assert cs[j] == init[j];
    } else {
      assert f in ContributionFills(iCol, layer, t0, cs[|cs| - 1]);
    }
  }

  lemma {:induction false} ContributionFillIsKept(iCol: nat, layer: int, t0: real, cs: seq<Contribution>, j: nat, f: Fill)
    requires j < |cs| && f in ContributionFills(iCol, layer, t0, cs[j])
    ensures f in ContributionsFills(iCol, layer, t0, cs)
  {
    var init := cs[..|cs| - 1];
    if j < |init| {
      assert cs[j] == init[j];
      ContributionFillIsKept(iCol, layer, t0, init, j, f);
    }
  }

  /** Every fill of an event belongs to one of the calorimeter collections
      read, and is a fill of that collection's hit loop. */
  lemma {:induction false} EventFillsByCollection(cols: seq<seq<CaloHit>>, layerOf: (int, int) -> int, f: Fill)
    ensures f in EventFills(cols, layerOf) <==> f.col < |cols| && f in CollectionFills(f.col, cols[f.col], layerOf)
  {
    if cols != [] {
      var init := cols[..|cols| - 1];
      EventFillsByCollection(init, layerOf, f);
      if f.col < |init| {
        assert cols[f.col] == init[f.col];
        CollectionFillsColumn(|cols| - 1, cols[|cols| - 1], layerOf, f);
      } else {
        EventFillsColumns(init, layerOf, f);
        CollectionFillsColumn(|cols| - 1, cols[|cols| - 1], layerOf, f);
      }
    }
  }

  lemma CollectionFillsColumn(iCol: nat, hits: seq<CaloHit>, layerOf: (int, int) -> int, f: Fill)
    ensures f in CollectionFills(iCol, hits, layerOf) ==> f.col == iCol
  {
    if f in CollectionFills(iCol, hits, layerOf) {
      HitsFillsAreHitFills(iCol, ReadHits(hits), layerOf, f);
      var i :| 0 <= i < |ReadHits(hits)| && f in HitFills(iCol, ReadHits(hits)[i], layerOf);
      ContributionsFillInHit(iCol, ReadHits(hits)[i], layerOf, f);
    }
  }

  lemma {:induction false} EventFillsColumns(cols: seq<seq<CaloHit>>, layerOf: (int, int) -> int, f: Fill)
    ensures f in EventFills(cols, layerOf) ==> f.col < |cols|
  {
    if cols != [] {
      var p, q := EventFills(cols[..|cols| - 1], layerOf), CollectionFills(|cols| - 1, cols[|cols| - 1], layerOf);
      assert EventFills(cols, layerOf) == p + q;
      assert f in p + q <==> f in p || f in q;
      EventFillsColumns(cols[..|cols| - 1], layerOf, f);
      CollectionFillsColumn(|cols| - 1, cols[|cols| - 1], layerOf, f);
    }
  }

  // ---------------------------------------------------------------------
  // The driver

  /** The contribution loop of one hit. */
  method ProcessHit(iCol: nat, hit: CaloHit, layerOf: (int, int) -> int) returns (fills: seq<Fill>)
    ensures fills == HitFills(iCol, hit, layerOf)
  {
    var cellId := CellId(hit.cellID0, hit.cellID1);
    var layer := layerOf(iCol, cellId) + 1;
    var nMcp := |hit.contributions|;
    var t0 := hit.t0;
    fills := [];
    for iM := 0 to nMcp
      invariant fills == ContributionsFills(iCol, layer, t0, hit.contributions[..iM])
    {
      assert hit.contributions[..iM + 1][..iM] == hit.contributions[..iM];
      var c := hit.contributions[iM];
      var hitTime := c.time;
      var hitE := c.energy * GEV_TO_KEV;
      fills := fills + [ Fill(iCol, LayerVsTime, [hitTime - t0, layer as real]),
                         Fill(iCol, LayerVsTimeZoom, [hitTime - t0, layer as real]),
                         Fill(iCol, EVsTime, [hitTime - t0, hitE]),
                         Fill(iCol, HitTime, [hitTime - t0]),
                         Fill(iCol, HitE, [hitE]) ];
    }
    assert hit.contributions[..nMcp] == hit.contributions;
  }

  /** The hit loop of one collection, over at most `N_HITS_MAX` hits. */
  method ProcessCollection(iCol: nat, hits: seq<CaloHit>, layerOf: (int, int) -> int) returns (fills: seq<Fill>)
    ensures fills == CollectionFills(iCol, hits, layerOf)
  {
    var n := if |hits| < N_HITS_MAX then |hits| else N_HITS_MAX;
    fills := [];
    for iHit := 0 to n
      invariant fills == HitsFills(iCol, hits[..iHit], layerOf)
    {
      assert hits[..iHit + 1][..iHit] == hits[..iHit];
      var more := ProcessHit(iCol, hits[iHit], layerOf);
      fills := fills + more;
    }
    assert hits[..n] == ReadHits(hits);
  }

  /** `processEvent`: `cols[i]` holds the hits of `CAL_COLLECTIONS[i]`. */
  method ProcessEvent(cols: seq<seq<CaloHit>>, layerOf: (int, int) -> int) returns (fills: seq<Fill>)
    ensures fills == EventFills(cols, layerOf)
  {
    fills := [];
    for iCol := 0 to |cols|
      invariant fills == EventFills(cols[..iCol], layerOf)
    {
      assert cols[..iCol + 1][..iCol] == cols[..iCol];
      var more := ProcessCollection(iCol, cols[iCol], layerOf);
      fills := fills + more;
    }
    assert cols[..|cols|] == cols;
  }
}
