/** `TrkHitPropsDriver`: sums the energy deposited by simulated tracker hits
    per detector layer, over all events. */
module TrkHitProps {
  import opened Lcio

  /** Number of entries of `eTot`. */
  const N_ETOT: nat := 8

  /** The collections `processEvent` reads: only the vertex barrel. */
  const SIMHIT_COLLECTIONS: seq<string> := ["VertexBarrelCollection"]

  /** A SimTrackerHit, through its CellID words and its deposited energy. */
  datatype SimHit = SimHit(cellID0: int, cellID1: int, eDep: real)

  /** The energy sums after a run of hits, and the error that stopped it. */
  datatype Run = Run(eTot: seq<real>, error: Option<PyError>)

  function SumReals(xs: seq<real>): real
  {
    if xs == [] then 0.0 else SumReals(xs[..|xs| - 1]) + xs[|xs| - 1]
  }

  /** The list index the hit's decoded layer selects in `eTot`, if any. */
  function LayerIndex(iCol: int, hit: SimHit, layerOf: (int, int) -> int): Option<nat>
  {
    PyIndex(layerOf(iCol, CellId(hit.cellID0, hit.cellID1)), N_ETOT)
  }

  /** `eTot[layer] += hit.getEDep()`. */
  function AddHit(e: seq<real>, iCol: int, hit: SimHit, layerOf: (int, int) -> int): (r: Outcome<seq<real>>)
    requires |e| == N_ETOT
    ensures r.Ok? ==> |r.value| == N_ETOT
  {
    match LayerIndex(iCol, hit, layerOf)
    case None => Raised(IndexError)
    case Some(k) => Ok(e[k := e[k] + hit.eDep])
  }

  /** The hit loop of collection `iCol`; a hit whose layer is no valid index
      stops the loop with the earlier hits already added. */
  function AddHits(e: seq<real>, iCol: int, hits: seq<SimHit>, layerOf: (int, int) -> int): (r: Run)
    requires |e| == N_ETOT
    ensures |r.eTot| == N_ETOT
  {
    if hits == [] then Run(e, None)
    else
      var prev := AddHits(e, iCol, hits[..|hits| - 1], layerOf);
      if prev.error.Some? then prev
      else
        match AddHit(prev.eTot, iCol, hits[|hits| - 1], layerOf)
        case Raised(err) => Run(prev.eTot, Some(err))
        case Ok(e') => Run(e', None)
  }

  /** The collection loop of `processEvent`. */
  function AddCollections(e: seq<real>, cols: seq<seq<SimHit>>, layerOf: (int, int) -> int): (r: Run)
    requires |e| == N_ETOT
    ensures |r.eTot| == N_ETOT
  {
    if cols == [] then Run(e, None)
    else
      var prev := AddCollections(e, cols[..|cols| - 1], layerOf);
      if prev.error.Some? then prev else AddHits(prev.eTot, |cols| - 1, cols[|cols| - 1], layerOf)
  }

  /** The energy of the hits whose layer selects entry `k`. */
  function LayerEnergy(iCol: int, hits: seq<SimHit>, layerOf: (int, int) -> int, k: nat): real
  {
    if hits == [] then 0.0
    else LayerEnergy(iCol, hits[..|hits| - 1], layerOf, k)
         + (if LayerIndex(iCol, hits[|hits| - 1], layerOf) == Some(k) then hits[|hits| - 1].eDep else 0.0)
  }

  function EnergySum(hits: seq<SimHit>): real
  {
    if hits == [] then 0.0 else EnergySum(hits[..|hits| - 1]) + hits[|hits| - 1].eDep
  }

  // ---------------------------------------------------------------------
  // Properties

  /** A hit adds its energy to the entry of its layer and changes no other
      entry; a layer outside `-8..7` raises. */
  lemma AddHitTouchesOneEntry(e: seq<real>, iCol: int, hit: SimHit, layerOf: (int, int) -> int)
    requires |e| == N_ETOT
    ensures var layer := layerOf(iCol, CellId(hit.cellID0, hit.cellID1));
            AddHit(e, iCol, hit, layerOf).Raised? <==> !(-8 <= layer < 8)
    ensures AddHit(e, iCol, hit, layerOf).Ok? ==>
              var k := LayerIndex(iCol, hit, layerOf).value;
              var e' := AddHit(e, iCol, hit, layerOf).value;
              && e'[k] == e[k] + hit.eDep
              && forall j :: 0 <= j < N_ETOT && j != k ==> e'[j] == e[j]
  {
  }

  lemma {:induction false} SumAfterAdd(e: seq<real>, k: nat, x: real)
    requires k < |e|
    ensures SumReals(e[k := e[k] + x]) == SumReals(e) + x
  {
    var n := |e| - 1;
    var e' := e[k := e[k] + x];
    assert e'[..n] == (if k < n then e[..n][k := e[k] + x] else e[..n]);
    if k < n {
      SumAfterAdd(e[..n], k, x);
    }
  }

  /** Without an error, every entry has grown by the energy of the hits of its
      layer, and the total by the energy of all the hits. */
  lemma {:induction false} AddHitsSums(e: seq<real>, iCol: int, hits: seq<SimHit>, layerOf: (int, int) -> int)
    requires |e| == N_ETOT && AddHits(e, iCol, hits, layerOf).error.None?
    ensures var e' := AddHits(e, iCol, hits, layerOf).eTot;
            && (forall k :: 0 <= k < N_ETOT ==> e'[k] == e[k] + LayerEnergy(iCol, hits, layerOf, k))
            && SumReals(e') == SumReals(e) + EnergySum(hits)
  {
    if hits != [] {
      var init := hits[..|hits| - 1];
      var prev := AddHits(e, iCol, init, layerOf);
      AddHitsSums(e, iCol, init, layerOf);
      var k := LayerIndex(iCol, hits[|hits| - 1], layerOf).value;
      SumAfterAdd(prev.eTot, k, hits[|hits| - 1].eDep);
    }
  }

  /** On an error, the sums hold exactly the hits before the first hit whose
      layer is not a valid index. */
  lemma {:induction false} AddHitsStopsAtBadLayer(e: seq<real>, iCol: int, hits: seq<SimHit>, layerOf: (int, int) -> int)
    requires |e| == N_ETOT && AddHits(e, iCol, hits, layerOf).error.Some?
    ensures AddHits(e, iCol, hits, layerOf).error == Some(IndexError)
    ensures exists i :: 0 <= i < |hits| && LayerIndex(iCol, hits[i], layerOf).None?
              && AddHits(e, iCol, hits[..i], layerOf) == Run(AddHits(e, iCol, hits, layerOf).eTot, None)
  {
    var init := hits[..|hits| - 1];
    var prev := AddHits(e, iCol, init, layerOf);
    if prev.error.Some? {
      AddHitsStopsAtBadLayer(e, iCol, init, layerOf);
      var i :| 0 <= i < |init| && LayerIndex(iCol, init[i], layerOf).None?
                && AddHits(e, iCol, init[..i], layerOf) == Run(prev.eTot, None);
      assert hits[i] == init[i] && hits[..i] == init[..i];
    } else {
      assert hits[..|hits| - 1] == init;
    }
  }

  // ---------------------------------------------------------------------
  // The driver

  class TrkHitPropsDriver {
    /** Energy sums per layer, kept over all events. */
    const eTot: array<real>

    /** `__init__` followed by `startOfData`: eight zeroed sums. */
    constructor()
      ensures eTot.Length == N_ETOT && forall k :: 0 <= k < N_ETOT ==> eTot[k] == 0.0
    {
      eTot := new real[N_ETOT](_ => 0.0);
    }

    /** The hit loop of one collection. */
    method ProcessCollection(iCol: int, hits: seq<SimHit>, layerOf: (int, int) -> int) returns (raised: Option<PyError>)
      requires eTot.Length == N_ETOT
      modifies eTot
      ensures AddHits(old(eTot[..]), iCol, hits, layerOf) == Run(eTot[..], raised)
    {
      for iHit := 0 to |hits|
        invariant AddHits(old(eTot[..]), iCol, hits[..iHit], layerOf) == Run(eTot[..], None)
      {
        assert hits[..iHit + 1][..iHit] == hits[..iHit];
        var hit := hits[iHit];
        var cellId := CellId(hit.cellID0, hit.cellID1);
        var layer := layerOf(iCol, cellId);
        var idx := PyIndex(layer, N_ETOT);
        if idx.None? {
          AddHitsErrorStays(old(eTot[..]), iCol, hits, iHit + 1, layerOf);
          return Some(IndexError);
        }
        eTot[idx.value] := eTot[idx.value] + hit.eDep;
      }
      assert hits[..|hits|] == hits;
      raised := None;
    }

    /** `processEvent`: the hit loops of the collections named in
        `SIMHIT_COLLECTIONS`, `cols[i]` holding the hits of the `i`-th. */
    method ProcessEvent(cols: seq<seq<SimHit>>, layerOf: (int, int) -> int) returns (raised: Option<PyError>)
      requires eTot.Length == N_ETOT
      modifies eTot
      ensures AddCollections(old(eTot[..]), cols, layerOf) == Run(eTot[..], raised)
    {
      for iT := 0 to |cols|
        invariant AddCollections(old(eTot[..]), cols[..iT], layerOf) == Run(eTot[..], None)
      {
        assert cols[..iT + 1][..iT] == cols[..iT];
        raised := ProcessCollection(iT, cols[iT], layerOf);
        if raised.Some? {
          CollectionsErrorStays(old(eTot[..]), cols, iT + 1, layerOf);
          return;
        }
      }
      assert cols[..|cols|] == cols;
      raised := None;
    }
  }

  lemma {:induction false} AddHitsErrorStays(e: seq<real>, iCol: int, hits: seq<SimHit>, i: nat, layerOf: (int, int) -> int)
    requires |e| == N_ETOT && i <= |hits| && AddHits(e, iCol, hits[..i], layerOf).error.Some?
    ensures AddHits(e, iCol, hits, layerOf) == AddHits(e, iCol, hits[..i], layerOf)
    decreases |hits|
  {
    if i == |hits| {
      assert hits[..i] == hits;
    } else {
      assert hits[..|hits| - 1][..i] == hits[..i];
      AddHitsErrorStays(e, iCol, hits[..|hits| - 1], i, layerOf);
    }
  }

  lemma {:induction false} CollectionsErrorStays(e: seq<real>, cols: seq<seq<SimHit>>, i: nat, layerOf: (int, int) -> int)
    requires |e| == N_ETOT && i <= |cols| && AddCollections(e, cols[..i], layerOf).error.Some?
    ensures AddCollections(e, cols, layerOf) == AddCollections(e, cols[..i], layerOf)
    decreases |cols|
  {
    if i == |cols| {
      assert cols[..i] == cols;
    } else {
      assert cols[..|cols| - 1][..i] == cols[..i];
      CollectionsErrorStays(e, cols[..|cols| - 1], i, layerOf);
    }
  }
}
