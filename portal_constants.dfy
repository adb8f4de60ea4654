/** `PortalConstants`: the layer mask every portal physics query uses, built
    once on first access from all 32 layers with eight engine layers taken
    out, and the two layers portals and trackers live on.

    A Unity `LayerMask` is a 32-bit integer, one bit per layer; here it is
    given by its 32 bits, with `ToInt32` for the integer. The numeric values
    of the engine's `MarrowLayers` are not part of this model; they are a
    `LayerTable` whose entries are layer numbers below 32. */
module PortalConstants {

  /** The engine layer numbers the portal code names. */
  datatype LayerTable = LayerTable(
    football: nat, player: nat,
    entityTracker: nat, entityTrigger: nat,
    beingTracker: nat, beingTrigger: nat,
    observerTracker: nat, observerTrigger: nat,
    socket: nat, plug: nat)
  {
    predicate Valid() {
      && football < 32 && player < 32
      && entityTracker < 32 && entityTrigger < 32
      && beingTracker < 32 && beingTrigger < 32
      && observerTracker < 32 && observerTrigger < 32
      && socket < 32 && plug < 32
    }

    /** The eight layers the hit mask leaves out. */
    function Excluded(): set<nat> {
      {football, player, entityTracker, entityTrigger,
       beingTracker, beingTrigger, observerTracker, observerTrigger}
    }
  }

  /** A Unity `LayerMask`, a 32-bit integer, given by its 32 bits:
      `bits[i]` is bit `i`, the bit of layer `i`. */
  type LayerMask = bits: seq<bool> | |bits| == 32 witness seq(32, _ => false)

  /** Whether layer `layer` is set in `mask`, i.e. `(mask & (1 << layer)) != 0`. */
  predicate HasLayer(mask: LayerMask, layer: nat)
    requires layer < 32
  {
    mask[layer]
  }

  /** `mask & ~(1 << layer)`: takes one layer out and keeps every other. */
  function ClearLayer(mask: LayerMask, layer: nat): (r: LayerMask)
    requires layer < 32
    ensures forall b :: 0 <= b < 32 ==> (HasLayer(r, b) <==> HasLayer(mask, b) && b != layer)
  {
    mask[layer := false]
  }

  /** `~0`: every layer. */
  const AllLayers: LayerMask := seq(32, _ => true)

  function Pow2(n: nat): (r: nat)
    ensures r >= 1
  {
    if n == 0 then 1 else 2 * Pow2(n - 1)
  }

  /** The unsigned value of the low `n` bits. */
  function Unsigned(bits: seq<bool>, n: nat): (r: nat)
    requires n <= |bits|
    ensures r < Pow2(n)
  {
    if n == 0 then 0 else Unsigned(bits, n - 1) + (if bits[n - 1] then Pow2(n - 1) else 0)
  }

  /** The C# `int` a mask stands for (two's complement). */
  function ToInt32(mask: LayerMask): (r: int)
    ensures -(Pow2(31) as int) <= r < Pow2(31)
    ensures r < 0 <==> mask[31]
  {
    var u := Unsigned(mask, 32);
    assert Pow2(32) == 2 * Pow2(31);
    assert mask[31] <==> u >= Pow2(31) by { assert Unsigned(mask, 31) < Pow2(31); }
    if mask[31] then u - Pow2(32) else u
  }

  lemma {:induction false} AllOnesUnsigned(bits: seq<bool>, n: nat)
    requires n <= |bits|
    requires forall i :: 0 <= i < n ==> bits[i]
    ensures Unsigned(bits, n) == Pow2(n) - 1
  {
    if n > 0 {
      AllOnesUnsigned(bits, n - 1);
    }
  }

  /** `~0` is the integer -1: every bit set. */
  lemma AllLayersIsMinusOne()
    ensures ToInt32(AllLayers) == -1
    ensures forall b :: 0 <= b < 32 ==> HasLayer(AllLayers, b)
  {
    AllOnesUnsigned(AllLayers, 32);
  }

  /** The mask the getter promises: exactly the layers outside `Excluded()`. */
  ghost predicate IsHitMask(mask: LayerMask, layers: LayerTable)
    requires layers.Valid()
  {
    forall b :: 0 <= b < 32 ==> (HasLayer(mask, b) <==> b !in layers.Excluded())
  }

  /** There is only one hit mask for a given layer table. */
  lemma HitMaskIsUnique(m1: LayerMask, m2: LayerMask, layers: LayerTable)
    requires layers.Valid()
    requires IsHitMask(m1, layers) && IsHitMask(m2, layers)
    ensures m1 == m2
  {
    forall b | 0 <= b < 32
      ensures m1[b] == m2[b]
    {
      assert HasLayer(m1, b) <==> b !in layers.Excluded();
      assert HasLayer(m2, b) <==> b !in layers.Excluded();
    }
  }

  /** `PortalLayer`: portals sit on the Socket layer, a layer a mask can
      name. */
  function PortalLayer(layers: LayerTable): (r: nat)
    requires layers.Valid()
    ensures r == layers.socket && r < 32
  {
    layers.socket
  }

  /** `TrackerLayer`: trackers sit on the Plug layer, a layer a mask can
      name. */
  function TrackerLayer(layers: LayerTable): (r: nat)
    requires layers.Valid()
    ensures r == layers.plug && r < 32
  {
    layers.plug
  }

  /** `1 << layer`: the mask of that one layer. */
  function LayerBit(layer: nat): (r: LayerMask)
    requires layer < 32
    ensures forall b :: 0 <= b < 32 ==> (HasLayer(r, b) <==> b == layer)
  {
    seq(32, i => i == layer)
  }

  lemma {:induction false} OneBitUnsigned(bits: seq<bool>, layer: nat, n: nat)
    requires n <= |bits| && layer < |bits|
    requires forall i :: 0 <= i < |bits| ==> (bits[i] <==> i == layer)
    ensures Unsigned(bits, n) == if layer < n then Pow2(layer) else 0
  {
    if n > 0 {
      OneBitUnsigned(bits, layer, n - 1);
    }
  }

  /** Below the sign bit, the mask of one layer is the integer
      `2^layer`; the mask of layer 31 is the most negative `int`. */
  lemma LayerBitIsPowerOfTwo(layer: nat)
    requires layer < 32
    ensures layer < 31 ==> ToInt32(LayerBit(layer)) == Pow2(layer) as int
    ensures layer == 31 ==> ToInt32(LayerBit(layer)) == -(Pow2(31) as int)
  {
    OneBitUnsigned(LayerBit(layer), layer, 32);
    assert Pow2(32) == 2 * Pow2(31);
  }

  /** The query mask `1 << PortalLayer` of the projectile patches: the
      portal layer alone. */
  function PortalLayerMask(layers: LayerTable): (r: LayerMask)
    requires layers.Valid()
    ensures forall b :: 0 <= b < 32 ==> (HasLayer(r, b) <==> b == PortalLayer(layers))
  {
    LayerBit(PortalLayer(layers))
  }

  /** The static `_hitMask` / `_hasHitMask` pair behind the `HitMask`
      property. */
  class HitMaskCache {
    const layers: LayerTable
    var hitMask: LayerMask
    var hasHitMask: bool

    ghost predicate Valid()
      reads this
    {
      layers.Valid() && (hasHitMask ==> IsHitMask(hitMask, layers))
    }

    /** The static initial state `_hitMask = default`, `_hasHitMask = false`. */
    constructor (layers: LayerTable)
      requires layers.Valid()
      ensures Valid() && this.layers == layers
      ensures !hasHitMask && hitMask == seq(32, _ => false)
    {
      this.layers := layers;
      hitMask := seq(32, _ => false);
      hasHitMask := false;
    }

    /** The `HitMask` getter: the first access computes the mask and marks
        it cached; every later access returns the cached value. */
    method HitMask() returns (mask: LayerMask)
      requires Valid()
      modifies this
      ensures Valid() && hasHitMask && mask == hitMask
      ensures IsHitMask(mask, layers)
      ensures old(hasHitMask) ==> mask == old(hitMask)
    {
      if !hasHitMask {
        hitMask := AllLayers;

        hitMask := ClearLayer(hitMask, layers.football);
        hitMask := ClearLayer(hitMask, layers.player);

        hitMask := ClearLayer(hitMask, layers.entityTracker);
        hitMask := ClearLayer(hitMask, layers.entityTrigger);

        hitMask := ClearLayer(hitMask, layers.beingTracker);
        hitMask := ClearLayer(hitMask, layers.beingTrigger);

        hitMask := ClearLayer(hitMask, layers.observerTracker);
        hitMask := ClearLayer(hitMask, layers.observerTrigger);

        hasHitMask := true;
      }

      mask := hitMask;
    }
  }

  /** Whatever access produced them, two values of the getter are equal. */
  method HitMaskIsStable(cache: HitMaskCache) returns (first: LayerMask, second: LayerMask)
    requires cache.Valid()
    modifies cache
    ensures first == second
  {
    first := cache.HitMask();
    second := cache.HitMask();
  }
}
