/**
 * lib/common/include/venom/common/VenomSettings.h and lib/common/src/VenomSettings.cc: the
 * engine's compile-time light and shadow-map budgets, the static checks made on them, the
 * GPU size of all shadow maps, and the light-space matrix slots the Vulkan renderer
 * derives from them in lib/vulkan/src/VulkanApplication.cc. Each derived budget is a
 * function of the settings it is computed from, so its checks are proved for every
 * configuration and then for the engine's own. Right shifts are divisions by powers of two;
 * `int` is taken to be 32 bits wide.
 */
module VenomSettings {
  /** 2 to the power `k`. */
  function Pow2(k: nat): (r: nat)
    ensures r >= 1
  {
    if k == 0 then 1 else 2 * Pow2(k - 1)
  }

  lemma {:induction false} Pow2Monotone(m: nat, n: nat)
    requires m <= n
    ensures Pow2(m) <= Pow2(n)
  {
    if m < n {
      Pow2Monotone(m, n - 1);
    }
  }

  const MAX_FRAMES_IN_FLIGHT := 3
  const MAX_LIGHTS := 128
  const MAX_DIRECTIONAL_LIGHTS := 4
  const CSM_TOTAL_CASCADES := 3
  const CSM_DIMENSION := 2048
  const BITS_PER_INT := 32

  /** The light budget: how many lights of each kind the renderer holds. */
  datatype LightBudget = LightBudget(directional: int, spot: int, point: int)

  /**
   * `VENOM_MAX_SPOT_LIGHTS` is a quarter of all lights and `VENOM_MAX_POINT_LIGHTS` the
   * rest once the directional ones are taken.
   */
  function Budget(maxLights: nat, maxDirectional: nat): (b: LightBudget)
    ensures b.directional + b.spot + b.point == maxLights
    ensures maxDirectional + maxLights / 4 <= maxLights ==> b.point >= 0
  {
    var spot := maxLights / 4;
    LightBudget(maxDirectional, spot, maxLights - maxDirectional - spot)
  }

  /** The engine's budget: 4 directional, 32 spot and 92 point lights. */
  lemma EngineBudget()
    ensures Budget(MAX_LIGHTS, MAX_DIRECTIONAL_LIGHTS) == LightBudget(4, 32, 92)
  {
  }

  /** The shadow-casting lights of each kind: all directional ones and a quarter of the others. */
  function ShadowBudget(b: LightBudget): (s: LightBudget)
    requires b.spot >= 0 && b.point >= 0
    ensures s.directional == b.directional
    ensures 0 <= s.spot <= b.spot && 0 <= s.point <= b.point
  {
    LightBudget(b.directional, b.spot / 4, b.point / 4)
  }

  /** `VENOM_NUM_FORWARD_PLUS_INTS`: the number of ints that hold one bit per light, rounded up. */
  function ForwardPlusInts(maxLights: nat, bitsPerInt: nat): (n: nat)
    requires bitsPerInt > 0
  {
    (maxLights + bitsPerInt - 1) / bitsPerInt
  }

  /** The forward+ bit mask always has room for every light, and no int to spare. */
  lemma ForwardPlusIntsFit(maxLights: nat, bitsPerInt: nat)
    requires bitsPerInt > 0
    ensures ForwardPlusInts(maxLights, bitsPerInt) * bitsPerInt >= maxLights
    ensures ForwardPlusInts(maxLights, bitsPerInt) * bitsPerInt < maxLights + bitsPerInt
  {
    var n := ForwardPlusInts(maxLights, bitsPerInt);
    var total := maxLights + bitsPerInt - 1;
    assert total == n * bitsPerInt + total % bitsPerInt;
  }

  /** The cascade dimensions of each light kind, from `VENOM_CSM_DIMENSION`. */
  function DirectionalDimension(csmDimension: nat): nat { csmDimension * 4 }
  function PointDimension(csmDimension: nat): nat { csmDimension / 2 }
  function SpotDimension(csmDimension: nat): nat { csmDimension }

  /** The size of cascade `c` of a point light's shadow map: each cascade halves the one before. */
  function CascadeDimension(dimension: nat, c: nat): int {
    dimension / Pow2(c)
  }

  /** Multiplying by a non-negative factor keeps the order. */
  lemma MulMonotone(x: int, y: int, d: nat)
    ensures x <= y ==> x * d <= y * d
  {
  }

  /** A quotient is at least `q` when the dividend holds `q` whole divisors. */
  lemma DivAtLeast(a: nat, d: nat, q: nat)
    requires d > 0 && a >= q * d
    ensures a / d >= q
  {
    var k := a / d;
    assert a == k * d + a % d;
    assert (k + 1) * d == k * d + d;
    MulMonotone(k + 1, q, d);
  }

  /**
   * The static check on the last point-light cascade covers every cascade: when the
   * smallest is at least 64, so are all the others.
   */
  lemma LastCascadeIsSmallest(dimension: nat, cascades: nat, c: nat)
    requires 1 <= cascades && c < cascades
    requires CascadeDimension(dimension, cascades - 1) >= 64
    ensures CascadeDimension(dimension, c) >= 64
  {
    Pow2Monotone(c, cascades - 1);
    var small := Pow2(c);
    var large := Pow2(cascades - 1);
    var k := dimension / large;
    assert dimension == k * large + dimension % large;
    MulMonotone(64, k, large);
    MulMonotone(small, large, 64);
    assert dimension >= 64 * small;
    DivAtLeast(dimension, small, 64);
  }

  /**
   * What the static check `n & (n - 1) == 0` asks of a positive `n`: halving reaches 1 through
   * even numbers only. The bit test also accepts 0, which this predicate does not.
   */
  predicate IsPowerOfTwo(n: nat)
    decreases n
  {
    n == 1 || (n > 1 && n % 2 == 0 && IsPowerOfTwo(n / 2))
  }

  /** Every power of two passes the check. */
  lemma {:induction false} Pow2IsPowerOfTwo(k: nat)
    ensures IsPowerOfTwo(Pow2(k))
  {
    if k > 0 {
      Pow2IsPowerOfTwo(k - 1);
      var n := Pow2(k);
      assert n == 2 * Pow2(k - 1);
      assert n / 2 == Pow2(k - 1);
    }
  }

  /** Only powers of two pass the check. */
  lemma {:induction false} PowerOfTwoIsPow2(n: nat)
    requires IsPowerOfTwo(n)
    ensures exists k: nat :: Pow2(k) == n
  {
    if n == 1 {
      assert Pow2(0) == n;
    } else {
      PowerOfTwoIsPow2(n / 2);
      var k: nat :| Pow2(k) == n / 2;
      assert Pow2(k + 1) == n;
    }
  }

  /** The engine's cascades pass the static checks: the smallest point cascade is 256 texels wide. */
  lemma EngineCascadesPassChecks()
    ensures CSM_TOTAL_CASCADES >= 1
    ensures CascadeDimension(PointDimension(CSM_DIMENSION), CSM_TOTAL_CASCADES - 1) == 256
    ensures IsPowerOfTwo(CSM_DIMENSION)
  {
    assert Pow2(2) == 4;
    assert IsPowerOfTwo(2) && IsPowerOfTwo(4) && IsPowerOfTwo(8) && IsPowerOfTwo(16);
    assert IsPowerOfTwo(32) && IsPowerOfTwo(64) && IsPowerOfTwo(128) && IsPowerOfTwo(256);
    assert IsPowerOfTwo(512) && IsPowerOfTwo(1024);
  }

  /** `VENOM_CSM_DIMENSION` as a 32-bit word. */
  const CSM_DIMENSION_WORD: bv32 := 0x800

  /** The static check itself, on 32-bit words, holds for the engine's cascade dimension. */
  lemma EngineDimensionPassesBitTest()
    ensures CSM_DIMENSION_WORD as int == CSM_DIMENSION
    ensures CSM_DIMENSION_WORD & (CSM_DIMENSION_WORD - 1) == 0
  {
  }

  /** The bytes per shadow-map texel for all cascades and frames: two bytes of float16 each. */
  function PixelSize(cascades: nat, framesInFlight: nat): nat {
    cascades * framesInFlight * 2
  }

  const Uint64Limit := 0x1_0000_0000_0000_0000
  const Int32Limit := 0x8000_0000

  /** The texels of every shadow map of one cascade and frame: six faces per point light. */
  function ShadowTexels(shadow: LightBudget, csmDimension: nat): int {
    var d := DirectionalDimension(csmDimension);
    var s := SpotDimension(csmDimension);
    var p := PointDimension(csmDimension);
    shadow.directional * d * d + shadow.spot * s * s + 6 * shadow.point * p * p
  }

  /**
   * `GetTotalShadowMapGPUSize`: the texel sum is computed in `int`, where it does not
   * overflow, then scaled by the 64-bit pixel size; the product needs more than 32 bits
   * and fits in 64.
   */
  function TotalShadowMapGpuSize(): (r: int)
    ensures 0 <= ShadowTexels(ShadowBudget(Budget(MAX_LIGHTS, MAX_DIRECTIONAL_LIGHTS)), CSM_DIMENSION) < Int32Limit
    ensures 0x1_0000_0000 <= r < Uint64Limit
  {
    PixelSize(CSM_TOTAL_CASCADES, MAX_FRAMES_IN_FLIGHT)
      * ShadowTexels(ShadowBudget(Budget(MAX_LIGHTS, MAX_DIRECTIONAL_LIGHTS)), CSM_DIMENSION)
  }

  /**
   * The light-space matrix slots of the Vulkan renderer: the directional lights' cascades
   * first, then six faces per point light, then one slot per spot light.
   */
  function DirectionalSlot(cascades: nat, light: nat, cascade: nat): nat {
    light * cascades + cascade
  }

  function PointSlot(cascades: nat, shadow: LightBudget, light: nat, face: nat): int {
    cascades * shadow.directional + light * 6 + face
  }

  function SpotSlot(cascades: nat, shadow: LightBudget, light: nat): int {
    cascades * shadow.directional + 6 * shadow.point + light
  }

  /** The number of slots all shadow-casting lights use. */
  function SlotCount(cascades: nat, shadow: LightBudget): int {
    cascades * shadow.directional + 6 * shadow.point + shadow.spot
  }

  /** The slots of a light kind lie in that kind's range, one after another. */
  lemma SlotRanges(cascades: nat, shadow: LightBudget, light: nat, index: nat)
    requires shadow.directional >= 0 && shadow.point >= 0 && shadow.spot >= 0
    ensures light < shadow.directional && index < cascades ==>
      0 <= DirectionalSlot(cascades, light, index) < cascades * shadow.directional
    ensures light < shadow.point && index < 6 ==>
      cascades * shadow.directional <= PointSlot(cascades, shadow, light, index) < cascades * shadow.directional + 6 * shadow.point
    ensures light < shadow.spot ==>
      cascades * shadow.directional + 6 * shadow.point <= SpotSlot(cascades, shadow, light) < SlotCount(cascades, shadow)
  {
    assert (light + 1) * cascades == light * cascades + cascades;
    MulMonotone(light + 1, shadow.directional, cascades);
    MulMonotone(light + 1, shadow.point, 6);
  }

  /** Two directional slots coincide only for the same light and cascade. */
  lemma DirectionalSlotsDistinct(cascades: nat, l1: nat, c1: nat, l2: nat, c2: nat)
    requires c1 < cascades && c2 < cascades
    requires DirectionalSlot(cascades, l1, c1) == DirectionalSlot(cascades, l2, c2)
    ensures l1 == l2 && c1 == c2
  {
    assert (l1 + 1) * cascades == l1 * cascades + cascades;
    assert (l2 + 1) * cascades == l2 * cascades + cascades;
    MulMonotone(l1 + 1, l2, cascades);
    MulMonotone(l2 + 1, l1, cascades);
  }

  /** Two point-light slots coincide only for the same light and face. */
  lemma PointSlotsDistinct(cascades: nat, shadow: LightBudget, l1: nat, f1: nat, l2: nat, f2: nat)
    requires f1 < 6 && f2 < 6
    requires PointSlot(cascades, shadow, l1, f1) == PointSlot(cascades, shadow, l2, f2)
    ensures l1 == l2 && f1 == f2
  {
  }

  /** The engine's shadow-casting lights use 158 slots: 12 directional, 138 point and 8 spot. */
  lemma EngineSlotCount()
    ensures ShadowBudget(Budget(MAX_LIGHTS, MAX_DIRECTIONAL_LIGHTS)) == LightBudget(4, 8, 23)
    ensures SlotCount(CSM_TOTAL_CASCADES, ShadowBudget(Budget(MAX_LIGHTS, MAX_DIRECTIONAL_LIGHTS))) == 158
  {
  }
}
