/** The collision layer rules handed to Jolt: which object layers may
    collide, how object layers map onto broad-phase layers, and which object
    layers may collide with a broad-phase layer. Jolt's assertions are
    compiled out, so an out-of-range layer falls through to `false`. */
module PhysicsLayers {

  /** `JPH::ObjectLayer`, a 16-bit unsigned value. */
  newtype ObjectLayer = x: int | 0 <= x < 0x1_0000

  /** `JPH::BroadPhaseLayer`, a wrapped 8-bit unsigned value. */
  datatype BroadPhaseLayer = BroadPhaseLayer(value: int)

  /** `Layers`. */
  const NonMoving: ObjectLayer := 0
  const Moving: ObjectLayer := 1
  const NumLayers: ObjectLayer := 2

  /** `BroadPhaseLayers`. */
  const BroadPhaseNonMoving: BroadPhaseLayer := BroadPhaseLayer(0)
  const BroadPhaseMoving: BroadPhaseLayer := BroadPhaseLayer(1)
  const NumBroadPhaseLayers: nat := 2

  /** `ObjectLayerPairFilterImpl::ShouldCollide`. */
  function ObjectPairShouldCollide(a: ObjectLayer, b: ObjectLayer): bool
  {
    if a == NonMoving then b == Moving
    else if a == Moving then true
    else false
  }

  /** `ObjectVsBroadPhaseLayerFilterImpl::ShouldCollide`. */
  function ObjectVsBroadPhaseShouldCollide(a: ObjectLayer, b: BroadPhaseLayer): bool
  {
    if a == NonMoving then b == BroadPhaseMoving
    else if a == Moving then true
    else false
  }

  /** The layer `PhysicsService::CreateBox` gives a body. */
  function BoxLayer(isDynamic: bool): (layer: ObjectLayer)
    ensures layer < NumLayers
    ensures layer == Moving <==> isDynamic
  {
    if isDynamic then Moving else NonMoving
  }

  /** Non-moving objects collide only with moving ones; moving objects
      collide with every layer, valid or not. */
  lemma PairFilterRule(a: ObjectLayer, b: ObjectLayer)
    ensures a == NonMoving ==> (ObjectPairShouldCollide(a, b) <==> b == Moving)
    ensures a == Moving ==> ObjectPairShouldCollide(a, b)
  {
  }

  /** Over the two valid layers the pair filter is symmetric, and two
      non-moving objects never collide. */
  lemma PairFilterSymmetric(a: ObjectLayer, b: ObjectLayer)
    requires a < NumLayers && b < NumLayers
    ensures ObjectPairShouldCollide(a, b) == ObjectPairShouldCollide(b, a)
    ensures ObjectPairShouldCollide(a, b) <==> (a == Moving || b == Moving)
  {
  }

  /** Two boxes created static are both non-moving and never collide. */
  lemma StaticBoxesNeverCollide()
    ensures !ObjectPairShouldCollide(BoxLayer(false), BoxLayer(false))
  {
  }

  /** An out-of-range first layer makes both filters refuse. */
  lemma InvalidLayerNeverCollides(a: ObjectLayer, b: ObjectLayer, bp: BroadPhaseLayer)
    requires a >= NumLayers
    ensures !ObjectPairShouldCollide(a, b) && !ObjectVsBroadPhaseShouldCollide(a, bp)
  {
  }

  /** `BPLayerInterfaceImpl`: the table from object layer to broad-phase
      layer, filled in its constructor. */
  class BroadPhaseLayerInterface {
    const objectToBroadPhase: array<BroadPhaseLayer>

    /** The table sends each object layer to the broad-phase layer with the same index. */
    ghost predicate Valid()
      reads this, objectToBroadPhase
    {
      objectToBroadPhase.Length == NumLayers as int
      && forall i | 0 <= i < objectToBroadPhase.Length :: objectToBroadPhase[i] == BroadPhaseLayer(i)
    }

    constructor ()
      ensures Valid() && fresh(objectToBroadPhase)
      ensures objectToBroadPhase[NonMoving] == BroadPhaseNonMoving && objectToBroadPhase[Moving] == BroadPhaseMoving
    {
      var table := new BroadPhaseLayer[NumLayers](_ => BroadPhaseNonMoving);
      table[NonMoving] := BroadPhaseNonMoving;
      table[Moving] := BroadPhaseMoving;
      objectToBroadPhase := table;
    }

    /** `GetNumBroadPhaseLayers`: one broad-phase layer per object layer. */
    function GetNumBroadPhaseLayers(): (n: nat)
      ensures n == NumLayers as nat
    {
      NumBroadPhaseLayers
    }

    /** `GetBroadPhaseLayer`: defined only below the layer count, which Jolt asserts. */
    function GetBroadPhaseLayer(layer: ObjectLayer): (bp: BroadPhaseLayer)
      requires Valid() && layer < NumLayers
      reads this, objectToBroadPhase
      ensures bp == BroadPhaseLayer(layer as int)
      ensures bp.value < GetNumBroadPhaseLayers()
    {
      objectToBroadPhase[layer]
    }

    /** Filtering against the broad-phase layer of `b` decides the same as
        filtering against `b` itself. */
    lemma BroadPhaseFilterAgrees(a: ObjectLayer, b: ObjectLayer)
      requires Valid() && b < NumLayers
      ensures ObjectVsBroadPhaseShouldCollide(a, GetBroadPhaseLayer(b)) == ObjectPairShouldCollide(a, b)
    {
    }
  }
}
