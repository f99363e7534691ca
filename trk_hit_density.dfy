/** `HitDensityDriver`: per detector layer, count how often each sensor
    (CellID) is hit in an event and record the minimum, maximum, mean and
    sum of those counts in the bin of the layer's global number. */
module TrkHitDensity {
  import opened Lcio

  const N_LAYERS: seq<nat> := [8, 8]

  /** A tracker hit, through its two CellID words. */
  datatype TrackerHit = TrackerHit(cellID0: int, cellID1: int)

  /** A Python dict from CellID to count: `keys` in insertion order. */
  datatype Tally = Tally(keys: seq<int>, count: map<int, nat>)
  const EMPTY_TALLY: Tally := Tally([], map[])

  datatype Histo = NHitsMin | NHitsMax | NHitsMean | NHitsSum
  /** `SetBinContent(bin, value)` on one of the histograms. */
  datatype BinSet = BinSet(histo: Histo, bin: int, value: real)

  /** Record one hit of sensor `c`: a new key starts at 1, a known key
      grows by 1. */
  function Bump(d: Tally, c: int): Tally
  {
    if c !in d.count then Tally(d.keys + [c], d.count[c := 1])
    else Tally(d.keys, d.count[c := d.count[c] + 1])
  }

  /** The number of times `c` occurs in `cs`. */
  function Occurrences(cs: seq<int>, c: int): nat
  {
    if cs == [] then 0 else Occurrences(cs[..|cs| - 1], c) + (if cs[|cs| - 1] == c then 1 else 0)
  }

  predicate DistinctKeys(keys: seq<int>)
  {
    forall i, j :: 0 <= i < j < |keys| ==> keys[i] != keys[j]
  }

  /** `list(d.values())`. */
  function Values(keys: seq<int>, count: map<int, nat>): (r: seq<nat>)
    requires forall i :: 0 <= i < |keys| ==> keys[i] in count
    ensures |r| == |keys|
    ensures forall i :: 0 <= i < |keys| ==> r[i] == count[keys[i]]
  {
    if keys == [] then [] else Values(keys[..|keys| - 1], count) + [count[keys[|keys| - 1]]]
  }

  function SumNats(ns: seq<nat>): nat
  {
    if ns == [] then 0 else SumNats(ns[..|ns| - 1]) + ns[|ns| - 1]
  }

  /** `d` is the dict built from the sensor ids `cells`: its keys are the
      distinct ids, each counted as often as it occurs, and the counts add
      up to the number of hits. */
  ghost predicate Tallies(d: Tally, cells: seq<int>)
  {
    && DistinctKeys(d.keys)
    && (forall c :: c in d.keys <==> c in d.count)
    && (forall c :: c in d.count <==> c in cells)
    && (forall c :: c in d.count ==> d.count[c] == Occurrences(cells, c))
    && SumNats(Values(d.keys, d.count)) == |cells|
  }

  lemma {:induction false} OccurrencesPositive(cs: seq<int>, c: int)
    ensures c in cs <==> Occurrences(cs, c) >= 1
  {
    if cs != [] {
      OccurrencesPositive(cs[..|cs| - 1], c);
      assert cs == cs[..|cs| - 1] + [cs[|cs| - 1]];
    }
  }

  lemma ValuesFrame(keys: seq<int>, count: map<int, nat>, c: int, v: nat)
    requires forall i :: 0 <= i < |keys| ==> keys[i] in count
    requires c !in keys
    ensures Values(keys, count[c := v]) == Values(keys, count)
  {
  }

  lemma {:induction false} ValuesIncrement(keys: seq<int>, count: map<int, nat>, c: int)
    requires forall i :: 0 <= i < |keys| ==> keys[i] in count
    requires DistinctKeys(keys) && c in keys
    ensures SumNats(Values(keys, count[c := count[c] + 1])) == SumNats(Values(keys, count)) + 1
  {
    var init := keys[..|keys| - 1];
    var last := keys[|keys| - 1];
    var m := count[c := count[c] + 1];
    assert Values(keys, m) == Values(init, m) + [m[last]];
    assert Values(keys, count) == Values(init, count) + [count[last]];
    SumNatsSnoc(Values(init, m), m[last]);
    SumNatsSnoc(Values(init, count), count[last]);
    if last == c {
      assert c !in init;
      ValuesFrame(init, count, c, count[c] + 1);
    } else {
      assert c in init by {
        var i :| 0 <= i < |keys| && keys[i] == c;
        assert i < |init| && init[i] == c;
      }
      ValuesIncrement(init, count, c);
    }
  }

  lemma SumNatsSnoc(ns: seq<nat>, n: nat)
    ensures SumNats(ns + [n]) == SumNats(ns) + n
  {
    assert (ns + [n])[..|ns|] == ns;
  }

  lemma OccurrencesSnoc(cells: seq<int>, c: int)
    ensures forall k :: Occurrences(cells + [c], k) == Occurrences(cells, k) + (if k == c then 1 else 0)
  {
    assert (cells + [c])[..|cells|] == cells;
  }

  /** One hit of sensor `c` keeps the dict describing the ids seen so far. */
  lemma BumpTallies(d: Tally, cells: seq<int>, c: int)
    requires Tallies(d, cells)
    ensures Tallies(Bump(d, c), cells + [c])
  {
    if c !in d.count {
      BumpNewKey(d, cells, c);
    } else {
      BumpKnownKey(d, cells, c);
    }
  }

  lemma BumpKnownKey(d: Tally, cells: seq<int>, c: int)
    requires Tallies(d, cells) && c in d.count
    ensures Tallies(Bump(d, c), cells + [c])
  {
    var count' := d.count[c := d.count[c] + 1];
    assert Bump(d, c) == Tally(d.keys, count');
    KnownKeySum(d.keys, d.count, cells, c);
    KnownKeyCounts(d.keys, d.count, cells, c);
  }

  lemma KnownKeySum(keys: seq<int>, count: map<int, nat>, cells: seq<int>, c: int)
    requires forall i :: 0 <= i < |keys| ==> keys[i] in count
    requires DistinctKeys(keys) && c in keys
    requires SumNats(Values(keys, count)) == |cells|
    ensures SumNats(Values(keys, count[c := count[c] + 1])) == |cells + [c]|
  {
    ValuesIncrement(keys, count, c);
  }

  lemma KnownKeyCounts(keys: seq<int>, count: map<int, nat>, cells: seq<int>, c: int)
    requires c in count
    requires forall k :: k in keys <==> k in count
    requires forall k :: k in count <==> k in cells
    requires forall k :: k in count ==> count[k] == Occurrences(cells, k)
    ensures forall k :: k in keys <==> k in count[c := count[c] + 1]
    ensures forall k :: k in count[c := count[c] + 1] <==> k in cells + [c]
    ensures forall k :: k in count[c := count[c] + 1] ==> count[c := count[c] + 1][k] == Occurrences(cells + [c], k)
  {
    OccurrencesSnoc(cells, c);
    forall k
      ensures k in cells + [c] <==> k in cells || k == c
    {
    }
  }

  lemma BumpNewKey(d: Tally, cells: seq<int>, c: int)
    requires Tallies(d, cells) && c !in d.count
    ensures Tallies(Bump(d, c), cells + [c])
  {
    assert Bump(d, c) == Tally(d.keys + [c], d.count[c := 1]);
    BumpNewKeyDistinct(d, c);
    OccurrencesPositive(cells, c);
    BumpNewKeySum(d, cells, c);
    NewKeyCounts(d.keys, d.count, cells, c);
  }

  lemma NewKeyCounts(keys: seq<int>, count: map<int, nat>, cells: seq<int>, c: int)
    requires c !in count && Occurrences(cells, c) == 0
    requires forall k :: k in keys <==> k in count
    requires forall k :: k in count <==> k in cells
    requires forall k :: k in count ==> count[k] == Occurrences(cells, k)
    ensures forall k :: k in keys + [c] <==> k in count[c := 1]
    ensures forall k :: k in count[c := 1] <==> k in cells + [c]
    ensures forall k :: k in count[c := 1] ==> count[c := 1][k] == Occurrences(cells + [c], k)
  {
    OccurrencesSnoc(cells, c);
    forall k
      ensures k in cells + [c] <==> k in cells || k == c
      ensures k in keys + [c] <==> k in keys || k == c
    {
    }
  }

  lemma BumpNewKeyDistinct(d: Tally, c: int)
    requires DistinctKeys(d.keys) && c !in d.keys
    ensures DistinctKeys(d.keys + [c])
  {
    forall i, j | 0 <= i < j < |d.keys| + 1
      ensures (d.keys + [c])[i] != (d.keys + [c])[j]
    {
      if j == |d.keys| {
        assert d.keys[i] in d.keys;
      }
    }
  }

  lemma BumpNewKeySum(d: Tally, cells: seq<int>, c: int)
    requires (forall i :: 0 <= i < |d.keys| ==> d.keys[i] in d.count) && c !in d.keys
    requires SumNats(Values(d.keys, d.count)) == |cells|
    ensures SumNats(Values(d.keys + [c], d.count[c := 1])) == |cells + [c]|
  {
    ValuesFrame(d.keys, d.count, c, 1);
    assert Values(d.keys + [c], d.count[c := 1]) == Values(d.keys, d.count[c := 1]) + [1];
  }

  lemma TallyHasCell(d: Tally, cells: seq<int>, c: int)
    requires Tallies(d, cells) && c in cells
    ensures c in d.count && c in d.keys
  {
  }

  /** Every stored count is at least one. */
  lemma TalliesArePositive(d: Tally, cells: seq<int>)
    requires Tallies(d, cells)
    ensures forall c :: c in d.count ==> d.count[c] >= 1
    ensures |d.keys| <= |cells|
  {
    forall c | c in d.count
      ensures d.count[c] >= 1
    {
      OccurrencesPositive(cells, c);
    }
    KeysAtMostHits(d.keys, d.count);
  }

  lemma {:induction false} KeysAtMostHits(keys: seq<int>, count: map<int, nat>)
    requires forall i :: 0 <= i < |keys| ==> keys[i] in count && count[keys[i]] >= 1
    ensures |keys| <= SumNats(Values(keys, count))
  {
    if keys != [] {
      KeysAtMostHits(keys[..|keys| - 1], count);
      assert Values(keys, count) == Values(keys[..|keys| - 1], count) + [count[keys[|keys| - 1]]];
    }
  }

  /** The sensor ids of the hits decoded to list position `l` of a list of
      `nLayers` dicts. */
  function CellsInLayer(hits: seq<TrackerHit>, nLayers: nat, iCol: int, layerOf: (int, int) -> int, l: nat): seq<int>
  {
    if hits == [] then []
    else
      var h := hits[|hits| - 1];
      CellsInLayer(hits[..|hits| - 1], nLayers, iCol, layerOf, l)
      + (if PyIndex(layerOf(iCol, CellId(h.cellID0, h.cellID1)), nLayers) == Some(l) then [CellId(h.cellID0, h.cellID1)] else [])
  }

  /** `hit_counts` after the hit loop of one collection. */
  function Count(hits: seq<TrackerHit>, nLayers: nat, iCol: int, layerOf: (int, int) -> int): (r: Outcome<seq<Tally>>)
    ensures r.Ok? ==> |r.value| == nLayers
    ensures r.Raised? ==> r.error == IndexError
  {
    if hits == [] then Ok(seq(nLayers, _ => EMPTY_TALLY))
    else
      match Count(hits[..|hits| - 1], nLayers, iCol, layerOf)
      case Raised(e) => Raised(e)
      case Ok(counts) =>
        var h := hits[|hits| - 1];
        var cellId := CellId(h.cellID0, h.cellID1);
        match PyIndex(layerOf(iCol, cellId), nLayers)
        case None => Raised(IndexError)
        case Some(l) => Ok(counts[l := Bump(counts[l], cellId)])
  }

  /** Counting raises exactly when some hit's layer is not a valid list index. */
  lemma {:induction false} CountRaisesOnBadLayer(hits: seq<TrackerHit>, nLayers: nat, iCol: int, layerOf: (int, int) -> int)
    ensures Count(hits, nLayers, iCol, layerOf).Raised? <==>
              exists i :: 0 <= i < |hits| && PyIndex(layerOf(iCol, CellId(hits[i].cellID0, hits[i].cellID1)), nLayers).None?
  {
    if hits != [] {
      var init := hits[..|hits| - 1];
      CountRaisesOnBadLayer(init, nLayers, iCol, layerOf);
      assert forall i :: 0 <= i < |init| ==> hits[i] == init[i];
    }
  }

  /** Each layer's dict tallies exactly the hits decoded to that layer. */
  lemma {:induction false} CountTalliesLayers(hits: seq<TrackerHit>, nLayers: nat, iCol: int, layerOf: (int, int) -> int)
    ensures Count(hits, nLayers, iCol, layerOf).Ok? ==>
              forall l :: 0 <= l < nLayers ==> Tallies(Count(hits, nLayers, iCol, layerOf).value[l], CellsInLayer(hits, nLayers, iCol, layerOf, l))
  {
    var r := Count(hits, nLayers, iCol, layerOf);
    if hits == [] {
      assert Values([], map[]) == [];
      assert Tallies(EMPTY_TALLY, []);
      forall l | 0 <= l < nLayers
        ensures Tallies(r.value[l], CellsInLayer(hits, nLayers, iCol, layerOf, l))
      {
      }
    } else if r.Ok? {
      var init := hits[..|hits| - 1];
      var h := hits[|hits| - 1];
      CountTalliesLayers(init, nLayers, iCol, layerOf);
      var before := Count(init, nLayers, iCol, layerOf).value;
      var cellId := CellId(h.cellID0, h.cellID1);
      var l0 := PyIndex(layerOf(iCol, cellId), nLayers).value;
      assert r.value == before[l0 := Bump(before[l0], cellId)];
      forall l | 0 <= l < nLayers
        ensures Tallies(r.value[l], CellsInLayer(hits, nLayers, iCol, layerOf, l))
      {
        if l == l0 {
          assert CellsInLayer(hits, nLayers, iCol, layerOf, l) == CellsInLayer(init, nLayers, iCol, layerOf, l) + [cellId];
          BumpTallies(before[l], CellsInLayer(init, nLayers, iCol, layerOf, l), cellId);
        } else {
          assert CellsInLayer(hits, nLayers, iCol, layerOf, l) == CellsInLayer(init, nLayers, iCol, layerOf, l);
        }
      }
    }
  }

  lemma CountKeysCounted(hits: seq<TrackerHit>, nLayers: nat, iCol: int, layerOf: (int, int) -> int)
    ensures Count(hits, nLayers, iCol, layerOf).Ok? ==> KeysCounted(Count(hits, nLayers, iCol, layerOf).value)
  {
    CountTalliesLayers(hits, nLayers, iCol, layerOf);
    if Count(hits, nLayers, iCol, layerOf).Ok? {
      var counts := Count(hits, nLayers, iCol, layerOf).value;
      forall i, j | 0 <= i < |counts| && 0 <= j < |counts[i].keys|
        ensures counts[i].keys[j] in counts[i].count
      {
        assert counts[i].keys[j] in counts[i].keys;
      }
    }
  }

  /** `np.min`, `np.max`: the extreme element of a non-empty array. */
  function Min(ns: seq<nat>): (r: nat)
    requires ns != []
    ensures r in ns && forall i :: 0 <= i < |ns| ==> r <= ns[i]
  {
    if |ns| == 1 then ns[0]
    else
      var m := Min(ns[..|ns| - 1]);
      assert forall i :: 0 <= i < |ns| - 1 ==> ns[..|ns| - 1][i] == ns[i];
      if ns[|ns| - 1] < m then ns[|ns| - 1] else m
  }

  function Max(ns: seq<nat>): (r: nat)
    requires ns != []
    ensures r in ns && forall i :: 0 <= i < |ns| ==> ns[i] <= r
  {
    if |ns| == 1 then ns[0]
    else
      var m := Max(ns[..|ns| - 1]);
      assert forall i :: 0 <= i < |ns| - 1 ==> ns[..|ns| - 1][i] == ns[i];
      if ns[|ns| - 1] > m then ns[|ns| - 1] else m
  }

  /** The histogram settings for one layer's counts in bin `bin`; numpy's
      minimum of an empty array raises ValueError. */
  function LayerBins(values: seq<nat>, bin: int): (r: Outcome<seq<BinSet>>)
  {
    if values == [] then Raised(ValueError)
    else
      Ok([BinSet(NHitsMin, bin, Min(values) as real), BinSet(NHitsMax, bin, Max(values) as real),
          BinSet(NHitsMean, bin, SumNats(values) as real / |values| as real),
          BinSet(NHitsSum, bin, SumNats(values) as real)])
  }

  /** The settings for the first `|values|` layers of a collection. */
  function CollectionBins(values: seq<seq<nat>>, offset: nat): Outcome<seq<BinSet>>
  {
    if values == [] then Ok([])
    else Concat(CollectionBins(values[..|values| - 1], offset), LayerBins(values[|values| - 1], 1 + offset + |values| - 1))
  }

  /** `hit_counts` converted to arrays of counts. */
  function AllValues(counts: seq<Tally>): seq<seq<nat>>
    requires KeysCounted(counts)
  {
    if counts == [] then []
    else AllValues(counts[..|counts| - 1]) + [Values(counts[|counts| - 1].keys, counts[|counts| - 1].count)]
  }

  predicate KeysCounted(counts: seq<Tally>)
  {
    forall i, j :: 0 <= i < |counts| && 0 <= j < |counts[i].keys| ==> counts[i].keys[j] in counts[i].count
  }

  /** One collection: count, convert, set the bins. */
  function CollectionEffect(hits: seq<TrackerHit>, nLayers: nat, iCol: int, offset: nat, layerOf: (int, int) -> int): Outcome<seq<BinSet>>
  {
    match Count(hits, nLayers, iCol, layerOf)
    case Raised(e) => Raised(e)
    case Ok(counts) =>
      CountKeysCounted(hits, nLayers, iCol, layerOf);
      CollectionBins(AllValues(counts), offset)
  }

  function EventEffect(cols: seq<seq<TrackerHit>>, layerOf: (int, int) -> int): Outcome<seq<BinSet>>
    requires |cols| <= |N_LAYERS|
  {
    if cols == [] then Ok([])
    else Concat(EventEffect(cols[..|cols| - 1], layerOf),
                CollectionEffect(cols[|cols| - 1], N_LAYERS[|cols| - 1], |cols| - 1, LayerOffset(N_LAYERS, |cols| - 1), layerOf))
  }

  // ---------------------------------------------------------------------
  // Properties of the settings

  /** For a layer with hits the four settings go to its bin: the sum is the
      number of hits, the minimum and maximum lie between 1 and that number,
      and the maximum is at least the mean; an empty layer raises. */
  lemma LayerBinsDescribeTally(d: Tally, cells: seq<int>, bin: int)
    requires Tallies(d, cells)
    ensures LayerBins(Values(d.keys, d.count), bin).Raised? <==> cells == []
    ensures cells != [] ==>
              var r := LayerBins(Values(d.keys, d.count), bin).value;
              && |r| == 4 && (forall i :: 0 <= i < 4 ==> r[i].bin == bin)
              && r[3].value == |cells| as real
              && 1.0 <= r[0].value <= r[1].value <= |cells| as real
              && r[2].value <= r[1].value
  {
    TalliesArePositive(d, cells);
    var vs := Values(d.keys, d.count);
    if cells != [] {
      TallyHasCell(d, cells, cells[0]);
    }
    BinsOfCounts(vs, bin);
  }

  lemma BinsOfCounts(vs: seq<nat>, bin: int)
    requires forall i :: 0 <= i < |vs| ==> vs[i] >= 1
    ensures LayerBins(vs, bin).Raised? <==> vs == []
    ensures vs != [] ==>
              var r := LayerBins(vs, bin).value;
              && |r| == 4 && (forall i :: 0 <= i < 4 ==> r[i].bin == bin)
              && r[3].value == SumNats(vs) as real
              && 1.0 <= r[0].value <= r[1].value <= SumNats(vs) as real
              && r[2].value <= r[1].value
  {
    if vs != [] {
      var m := Max(vs);
      SumAtMost(vs, m);
      MeanAtMostMax(SumNats(vs), |vs|, m);
      SumAtLeast(vs, m);
    }
  }

  lemma {:induction false} SumAtMost(ns: seq<nat>, m: nat)
    requires forall i :: 0 <= i < |ns| ==> ns[i] <= m
    ensures SumNats(ns) <= |ns| * m
  {
    if ns != [] {
      SumAtMost(ns[..|ns| - 1], m);
    }
  }

  lemma {:induction false} SumAtLeast(ns: seq<nat>, x: nat)
    requires x in ns
    ensures x <= SumNats(ns)
  {
    if ns[|ns| - 1] != x {
      SumAtLeast(ns[..|ns| - 1], x);
    }
  }

  lemma MeanAtMostMax(s: nat, n: nat, m: nat)
    requires n > 0 && s <= n * m
    ensures s as real / n as real <= m as real
  {
    assert (s as real) <= (n as real) * (m as real);
  }

  /** Layer `l` of collection `iCol` goes to bin `1 + offset + l`: bins
      start at 1, stay within the histogram's `sum(N_LAYERS)` bins, and no
      two layers share a bin. */
  lemma BinsAreDistinct(c1: nat, l1: nat, c2: nat, l2: nat)
    requires c1 < |N_LAYERS| && l1 < N_LAYERS[c1] && c2 < |N_LAYERS| && l2 < N_LAYERS[c2]
    ensures 1 <= 1 + LayerOffset(N_LAYERS, c1) + l1 <= LayerOffset(N_LAYERS, |N_LAYERS|)
    ensures 1 + LayerOffset(N_LAYERS, c1) + l1 == 1 + LayerOffset(N_LAYERS, c2) + l2 ==> c1 == c2 && l1 == l2
  {
    GlobalLayerInjective(N_LAYERS, c1, l1, c2, l2);
  }

  lemma {:induction false} CollectionBinsRaisedStays(p: seq<seq<nat>>, q: seq<seq<nat>>, offset: nat)
    requires CollectionBins(p, offset).Raised?
    ensures CollectionBins(p + q, offset) == CollectionBins(p, offset)
    decreases |q|
  {
    if q == [] {
      assert p + q == p;
    } else {
      assert (p + q)[..|p + q| - 1] == p + q[..|q| - 1];
      CollectionBinsRaisedStays(p, q[..|q| - 1], offset);
    }
  }

  /** The collection loop takes one more collection. */
  lemma EventEffectNext(cols: seq<seq<TrackerHit>>, i: nat, layerOf: (int, int) -> int)
    requires i < |cols| <= |N_LAYERS|
    ensures EventEffect(cols[..i + 1], layerOf)
            == Concat(EventEffect(cols[..i], layerOf), CollectionEffect(cols[i], N_LAYERS[i], i, LayerOffset(N_LAYERS, i), layerOf))
  {
    assert cols[..i + 1][..i] == cols[..i];
  }

  lemma {:induction false} EventRaisedStays(cols: seq<seq<TrackerHit>>, i: nat, layerOf: (int, int) -> int)
    requires i <= |cols| <= |N_LAYERS| && EventEffect(cols[..i], layerOf).Raised?
    ensures EventEffect(cols, layerOf) == EventEffect(cols[..i], layerOf)
    decreases |cols|
  {
    if i == |cols| {
      assert cols[..i] == cols;
    } else {
      assert cols[..|cols| - 1][..i] == cols[..i];
      EventRaisedStays(cols[..|cols| - 1], i, layerOf);
    }
  }

  // ---------------------------------------------------------------------
  // Methods

  /** The hit loop of one collection: the list of per-layer dicts, each
      updated in place. */
  method CountCollection(hits: seq<TrackerHit>, nLayers: nat, iCol: int, layerOf: (int, int) -> int)
    returns (raised: Option<PyError>, hitCounts: seq<Tally>)
    ensures raised.None? ==> Count(hits, nLayers, iCol, layerOf) == Ok(hitCounts)
    ensures raised.Some? ==> Count(hits, nLayers, iCol, layerOf) == Raised(raised.value)
  {
    hitCounts := seq(nLayers, _ => EMPTY_TALLY);
    for iH := 0 to |hits|
      invariant Count(hits[..iH], nLayers, iCol, layerOf) == Ok(hitCounts)
    {
      assert hits[..iH + 1][..iH] == hits[..iH];
      var hit := hits[iH];
      var cellId := CellId(hit.cellID0, hit.cellID1);
      var layer := layerOf(iCol, cellId);
      var idx := PyIndex(layer, nLayers);
      if idx.None? {
        CountRaisedStays(hits, iH + 1, nLayers, iCol, layerOf);
        return Some(IndexError), hitCounts;
      }
      var l := idx.value;
      if cellId !in hitCounts[l].count {
        hitCounts := hitCounts[l := Tally(hitCounts[l].keys + [cellId], hitCounts[l].count[cellId := 1])];
      } else {
        hitCounts := hitCounts[l := Tally(hitCounts[l].keys, hitCounts[l].count[cellId := hitCounts[l].count[cellId] + 1])];
      }
    }
    assert hits[..|hits|] == hits;
    raised := None;
  }

  lemma {:induction false} CountRaisedStays(hits: seq<TrackerHit>, i: nat, nLayers: nat, iCol: int, layerOf: (int, int) -> int)
    requires i <= |hits| && Count(hits[..i], nLayers, iCol, layerOf).Raised?
    ensures Count(hits, nLayers, iCol, layerOf) == Count(hits[..i], nLayers, iCol, layerOf)
    decreases |hits|
  {
    if i == |hits| {
      assert hits[..i] == hits;
    } else {
      assert hits[..|hits| - 1][..i] == hits[..i];
      CountRaisedStays(hits[..|hits| - 1], i, nLayers, iCol, layerOf);
    }
  }

  /** The conversion loop and the bin loop of one collection. */
  method FillCollection(hitCounts: seq<Tally>, offset: nat) returns (raised: Option<PyError>, bins: seq<BinSet>)
    requires KeysCounted(hitCounts)
    ensures raised.None? ==> CollectionBins(AllValues(hitCounts), offset) == Ok(bins)
    ensures raised.Some? ==> CollectionBins(AllValues(hitCounts), offset) == Raised(raised.value)
  {
    var arrays: seq<seq<nat>> := [];
    for i := 0 to |hitCounts|
      invariant arrays == AllValues(hitCounts[..i])
    {
      assert hitCounts[..i + 1][..i] == hitCounts[..i];
      arrays := arrays + [Values(hitCounts[i].keys, hitCounts[i].count)];
    }
    assert hitCounts[..|hitCounts|] == hitCounts;
    bins := [];
    for layer := 0 to |arrays|
      invariant CollectionBins(arrays[..layer], offset) == Ok(bins)
    {
      assert arrays[..layer + 1][..layer] == arrays[..layer];
      var values := arrays[layer];
      if values == [] {
        CollectionBinsRaisedStays(arrays[..layer + 1], arrays[layer + 1..], offset);
        assert arrays[..layer + 1] + arrays[layer + 1..] == arrays;
        return Some(ValueError), bins;
      }
      var bin := 1 + offset + layer;
      bins := bins + [BinSet(NHitsMin, bin, Min(values) as real), BinSet(NHitsMax, bin, Max(values) as real),
                      BinSet(NHitsMean, bin, SumNats(values) as real / |values| as real),
                      BinSet(NHitsSum, bin, SumNats(values) as real)];
    }
    assert arrays[..|arrays|] == arrays;
    raised := None;
  }

  /** The body of the collection loop: count, then convert and set the bins. */
  method ProcessCollection(hits: seq<TrackerHit>, nLayers: nat, iCol: int, offset: nat, layerOf: (int, int) -> int)
    returns (raised: Option<PyError>, bins: seq<BinSet>)
    ensures raised.None? ==> CollectionEffect(hits, nLayers, iCol, offset, layerOf) == Ok(bins)
    ensures raised.Some? ==> CollectionEffect(hits, nLayers, iCol, offset, layerOf) == Raised(raised.value)
  {
    var hitCounts;
    raised, hitCounts := CountCollection(hits, nLayers, iCol, layerOf);
    if raised.Some? {
      return raised, [];
    }
    CountKeysCounted(hits, nLayers, iCol, layerOf);
    raised, bins := FillCollection(hitCounts, offset);
  }

  /** `processEvent`: the collections in order, with the running layer offset. */
  method ProcessEvent(cols: seq<seq<TrackerHit>>, layerOf: (int, int) -> int) returns (raised: Option<PyError>, bins: seq<BinSet>)
    requires |cols| <= |N_LAYERS|
    ensures raised.None? ==> EventEffect(cols, layerOf) == Ok(bins)
    ensures raised.Some? ==> EventEffect(cols, layerOf) == Raised(raised.value)
  {
    var layerIdOffset: nat := 0;
    bins := [];
    for iCol := 0 to |cols|
      invariant EventEffect(cols[..iCol], layerOf) == Ok(bins)
      invariant iCol == 0 ==> layerIdOffset == 0
      invariant iCol > 0 ==> layerIdOffset == LayerOffset(N_LAYERS, iCol - 1)
    {
      EventEffectNext(cols, iCol, layerOf);
      if iCol > 0 {
        layerIdOffset := layerIdOffset + N_LAYERS[iCol - 1];
      }
      assert layerIdOffset == LayerOffset(N_LAYERS, iCol) by {
        if iCol > 0 {
          LayerOffsetStep(N_LAYERS, iCol - 1);
        }
      }
      var r, more := ProcessCollection(cols[iCol], N_LAYERS[iCol], iCol, layerIdOffset, layerOf);
      if r.Some? {
        EventRaisedStays(cols, iCol + 1, layerOf);
        return r, bins;
      }
      bins := bins + more;
    }
    assert cols[..|cols|] == cols;
    raised := None;
  }
}
