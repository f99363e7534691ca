/** Shared records of the LCIO event model that the drivers read, the Python
    failure modes they can hit, Python/numpy index semantics and the 64-bit
    CellID assembly every driver repeats. */
module Lcio {

  datatype Option<+T> = None | Some(value: T)

  /** The exceptions a driver can raise while processing one event; any of
      them aborts the run. */
  datatype PyError =
    | IndexError      // list or numpy index out of range
    | ValueError      // numpy reduction (min/max) over an empty array
    | TypeError       // unpacking the `None` a resolver returned
    | AttributeError  // calling `.id()` or `.getPDG()` on `None`
    | RecursionError  // resolver recursion deeper than the interpreter allows

  datatype Outcome<+T> = Ok(value: T) | Raised(error: PyError)

  /** The outcome of two steps run one after the other: the first exception
      ends the run, otherwise the outputs are concatenated. */
  function Concat<T>(a: Outcome<seq<T>>, b: Outcome<seq<T>>): (r: Outcome<seq<T>>)
    ensures r.Ok? <==> a.Ok? && b.Ok?
    ensures r.Ok? ==> r.value == a.value + b.value
    ensures a.Raised? ==> r == a
    ensures a.Ok? && b.Raised? ==> r == b
  {
    match a
    case Raised(e) => Raised(e)
    case Ok(x) =>
      match b
      case Raised(e) => Raised(e)
      case Ok(y) => Ok(x + y)
  }

  /** The elements of a list of lists, list after list: the order in which a
      driver's nested `for col ...: for hit in col` loops visit them. */
  function Flatten<T>(xss: seq<seq<T>>): seq<T>
  {
    if xss == [] then [] else Flatten(xss[..|xss| - 1]) + xss[|xss| - 1]
  }

  lemma {:induction false} FlattenAppend<T>(a: seq<seq<T>>, b: seq<seq<T>>)
    ensures Flatten(a + b) == Flatten(a) + Flatten(b)
    decreases |b|
  {
    if b != [] {
      assert (a + b)[..|a + b| - 1] == a + b[..|b| - 1];
      FlattenAppend(a, b[..|b| - 1]);
    } else {
      assert a + b == a;
    }
  }

  /** `Flatten(xss)` split around position `j` of list `i`. */
  lemma FlattenSplitAt<T>(xss: seq<seq<T>>, i: nat, j: nat)
    requires i < |xss| && j <= |xss[i]|
    ensures Flatten(xss) == Flatten(xss[..i]) + xss[i][..j] + (xss[i][j..] + Flatten(xss[i + 1..]))
  {
    assert xss == xss[..i] + ([xss[i]] + xss[i + 1..]);
    FlattenAppend(xss[..i], [xss[i]] + xss[i + 1..]);
    FlattenAppend([xss[i]], xss[i + 1..]);
    assert Flatten([xss[i]]) == Flatten([xss[i]][..0]) + xss[i];
    assert xss[i] == xss[i][..j] + xss[i][j..];
  }

  function Abs(x: real): (r: real)
    ensures r >= 0.0 && (r == x || r == -x)
  {
    if x < 0.0 then -x else x
  }

  datatype Vec3 = Vec3(x: real, y: real, z: real)

  /** Kinematic quantities derived from the particle's Lorentz vector; they are
      computed by ROOT outside this model and enter it as given values. */
  datatype Kinematics = Kinematics(theta: real, phi: real, p: real, pt: real, pz: real,
                                   beta: real, gamma: real)

  /** An MCParticle. `vtxR` is the transverse radius of the vertex, computed
      outside the model (a square root). */
  datatype McParticle = McParticle(pdg: int, genStatus: int, time: real, vertex: Vec3,
                                   vtxR: real, kin: Kinematics)

  /** One energy deposit inside a calorimeter hit: `particle` is the id of the
      MCParticle that caused it. */
  datatype Contribution = Contribution(time: real, energy: real, particle: int)

  /** Parent ids of each particle id, in `getParents()` order. */
  type ParentMap = map<int, seq<int>>

  /** The particle content of one event: `order` is the order of
      `getMcParticles()`, `mcps` gives every particle's record by id. */
  datatype Event = Event(order: seq<int>, mcps: map<int, McParticle>, parents: ParentMap)

  /** Every id the event hands out refers to a particle of the event. */
  predicate WellFormed(ev: Event)
  {
    && (forall i :: 0 <= i < |ev.order| ==> ev.order[i] in ev.mcps)
    && (forall x, k :: x in ev.parents && 0 <= k < |ev.parents[x]| ==> ev.parents[x][k] in ev.mcps)
  }

  /** `xs[i]` for a Python list or numpy array of length `n`: negative indices
      count from the end, anything else outside the range raises IndexError. */
  function PyIndex(i: int, n: nat): (r: Option<nat>)
    ensures r.Some? <==> -(n as int) <= i < n
    ensures r.Some? ==> r.value < n && (r.value as int - i) % n == 0
    ensures r.Some? && 0 <= i ==> r.value == i
  {
    if 0 <= i < n then Some(i) else if -(n as int) <= i < 0 then Some(n + i) else None
  }

  const TWO32: int := 0x1_0000_0000

  /** `(cellID0 & 0xffffffff) | (cellID1 << 32)` on Python's unbounded
      integers: the mask keeps the low 32 bits (a non-negative remainder), the
      shift multiplies by 2^32, and the OR of two values with disjoint bits is
      their sum. */
  function CellId(cellID0: int, cellID1: int): (id: int)
    ensures id % TWO32 == cellID0 % TWO32
    ensures id / TWO32 == cellID1
  {
    cellID0 % TWO32 + cellID1 * TWO32
  }

  /** Every 64-bit id (indeed every integer) is assembled from exactly one pair
      (low word, high word): the assembly is a bijection. */
  lemma CellIdSplit(id: int)
    ensures CellId(id % TWO32, id / TWO32) == id
  {
  }

  lemma CellIdInjective(a0: int, a1: int, b0: int, b1: int)
    requires CellId(a0, a1) == CellId(b0, b1)
    ensures a0 % TWO32 == b0 % TWO32 && a1 == b1
  {
  }

  /** Both words of an LCIO CellID are 32-bit signed integers; the assembled
      value then fits in a signed 64-bit integer. */
  lemma CellIdRange(cellID0: int, cellID1: int)
    requires -0x8000_0000 <= cellID1 < 0x8000_0000
    ensures -0x8000_0000_0000_0000 <= CellId(cellID0, cellID1) < 0x8000_0000_0000_0000
  {
  }
  function SumNat(ns: seq<nat>): nat
  {
    if ns == [] then 0 else SumNat(ns[..|ns| - 1]) + ns[|ns| - 1]
  }

  /** `sum(nLayers[:iCol])`: the first global layer number of collection `iCol`
      when the collections' layers are numbered one after another. */
  function LayerOffset(nLayers: seq<nat>, iCol: nat): nat
    requires iCol <= |nLayers|
  {
    SumNat(nLayers[..iCol])
  }

  lemma LayerOffsetStep(nLayers: seq<nat>, iCol: nat)
    requires iCol < |nLayers|
    ensures LayerOffset(nLayers, iCol + 1) == LayerOffset(nLayers, iCol) + nLayers[iCol]
  {
    assert nLayers[..iCol + 1][..iCol] == nLayers[..iCol];
  }

  lemma {:induction false} LayerOffsetMonotone(nLayers: seq<nat>, i: nat, j: nat)
    requires i <= j <= |nLayers|
    ensures LayerOffset(nLayers, i) <= LayerOffset(nLayers, j)
    decreases j - i
  {
    if i < j {
      LayerOffsetStep(nLayers, i);
      LayerOffsetMonotone(nLayers, i + 1, j);
    }
  }

  /** Global layer numbers: layer `l` of collection `c` (with `l` below that
      collection's layer count) gets a number below the total, and no two
      (collection, layer) pairs share one. */
  lemma GlobalLayerInjective(nLayers: seq<nat>, c1: nat, l1: nat, c2: nat, l2: nat)
    requires c1 < |nLayers| && l1 < nLayers[c1] && c2 < |nLayers| && l2 < nLayers[c2]
    ensures LayerOffset(nLayers, c1) + l1 < LayerOffset(nLayers, |nLayers|)
    ensures LayerOffset(nLayers, c1) + l1 == LayerOffset(nLayers, c2) + l2 ==> c1 == c2 && l1 == l2
  {
    LayerOffsetStep(nLayers, c1);
    LayerOffsetStep(nLayers, c2);
    LayerOffsetMonotone(nLayers, c1 + 1, |nLayers|);
    if c1 < c2 {
      LayerOffsetMonotone(nLayers, c1 + 1, c2);
    } else if c2 < c1 {
      LayerOffsetMonotone(nLayers, c2 + 1, c1);
    }
  }
}
