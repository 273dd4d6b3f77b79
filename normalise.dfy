/**
 * Size normalisation of a freshly loaded inspector asset and its "grow in"
 * entry animation. JavaScript doubles are abstracted as `real`; `Math.log`
 * is an arbitrary function passed in by the caller, so nothing here depends
 * on its values except where a lemma says so in its `requires`.
 */
module Normalise {

  datatype Vec3 = Vec3(x: real, y: real, z: real)

  /** The `{min, max}` pair returned by the hierarchy bounding-vector query. */
  datatype BoundingVectors = BoundingVectors(min: Vec3, max: Vec3)

  /** One animation key: a frame number and the scaling vector at that frame. */
  datatype Keyframe = Keyframe(frame: int, value: Vec3)

  /** What the loader result's root mesh receives: its position, its starting scaling and the scaling keys. */
  datatype EntryAnimation = EntryAnimation(position: Vec3, scaling: Vec3, keys: seq<Keyframe>)

  const DesiredFinalSize: real := 2.5
  const DesiredInitialVisualSize: real := 0.25
  const BaseDuration: real := 25.0
  const DurationMultiplier: real := 8.0

  const Origin: Vec3 := Vec3(0.0, 0.0, 0.0)

  function Subtract(a: Vec3, b: Vec3): Vec3 {
    Vec3(a.x - b.x, a.y - b.y, a.z - b.z)
  }

  /** `max - min`: the extent of the hierarchy along each axis. */
  function Size(b: BoundingVectors): Vec3 {
    Subtract(b.max, b.min)
  }

  /** `Math.max` of three numbers (no NaN in this model). */
  function Max3(a: real, b: real, c: real): (m: real)
    ensures m >= a && m >= b && m >= c
    ensures m == a || m == b || m == c
  {
    if a >= b && a >= c then a else if b >= c then b else c
  }

  /** The largest of the three extents of the bounding box. */
  function MaxDimension(b: BoundingVectors): (d: real)
    ensures var s := Size(b); d >= s.x && d >= s.y && d >= s.z
    ensures var s := Size(b); d == s.x || d == s.y || d == s.z
  {
    var s := Size(b);
    Max3(s.x, s.y, s.z)
  }

  /** A target visual size divided by the largest extent, or 1 when that extent is not positive. */
  function ScaleFactor(target: real, maxDimension: real): (f: real)
    ensures maxDimension > 0.0 ==> f * maxDimension == target
    ensures maxDimension <= 0.0 ==> f == 1.0
  {
    if maxDimension > 0.0 then target / maxDimension else 1.0
  }

  /** The factor that brings the largest extent to the final visual size 2.5. */
  function FinalScaleFactor(maxDimension: real): (f: real)
    ensures maxDimension > 0.0 ==> f > 0.0 && f * maxDimension == DesiredFinalSize
    ensures maxDimension <= 0.0 ==> f == 1.0
  {
    ScaleFactor(DesiredFinalSize, maxDimension)
  }

  /** The factor that brings the largest extent to the initial visual size 0.25. */
  function InitialScaleFactor(maxDimension: real): (f: real)
    ensures maxDimension > 0.0 ==> f > 0.0 && f * maxDimension == DesiredInitialVisualSize
    ensures maxDimension <= 0.0 ==> f == 1.0
  {
    ScaleFactor(DesiredInitialVisualSize, maxDimension)
  }

  /** A vector with all three components equal to `f`. */
  function Uniform(f: real): Vec3 {
    Vec3(f, f, f)
  }

  /** The handedness correction: the depth component changes sign. */
  function MirrorZ(v: Vec3): Vec3 {
    v.(z := -v.z)
  }

  /** The final scaling: every axis brings the largest extent to 2.5, with the depth axis mirrored. */
  function FinalScale(maxDimension: real): (v: Vec3)
    ensures v.y == v.x && v.z == -v.x
    ensures maxDimension > 0.0 ==> v.x * maxDimension == DesiredFinalSize
    ensures maxDimension <= 0.0 ==> v == Vec3(1.0, 1.0, -1.0)
  {
    MirrorZ(Uniform(FinalScaleFactor(maxDimension)))
  }

  /** The initial scaling: every axis brings the largest extent to 0.25, with the depth axis mirrored. */
  function InitialScale(maxDimension: real): (v: Vec3)
    ensures v.y == v.x && v.z == -v.x
    ensures maxDimension > 0.0 ==> v.x * maxDimension == DesiredInitialVisualSize
    ensures maxDimension <= 0.0 ==> v == Vec3(1.0, 1.0, -1.0)
  {
    MirrorZ(Uniform(InitialScaleFactor(maxDimension)))
  }

  /** `finalScaleFactor / initialScaleFactor`: the growth the entry animation performs. */
  function ScaleRatio(maxDimension: real): (r: real)
    ensures maxDimension > 0.0 ==> r == DesiredFinalSize / DesiredInitialVisualSize
    ensures maxDimension <= 0.0 ==> r == 1.0
  {
    var fin := FinalScaleFactor(maxDimension);
    var init := InitialScaleFactor(maxDimension);
    assert init != 0.0 by {
      if maxDimension > 0.0 {
        assert init * maxDimension == DesiredInitialVisualSize;
      }
    }
    assert maxDimension > 0.0 ==> fin == 10.0 * init by {
      if maxDimension > 0.0 {
        assert (fin - 10.0 * init) * maxDimension == 0.0;
      }
    }
    fin / init
  }

  /** `Math.round`: the nearest integer, halves rounded towards positive infinity. */
  function Round(x: real): (n: int)
    ensures n as real <= x + 0.5 < n as real + 1.0
  {
    (x + 0.5).Floor
  }

  /** `Math.round(baseDuration + Math.log(scaleRatio) * durationMultiplier)`, in frames. */
  function Duration(maxDimension: real, log: real -> real): (n: int)
    ensures maxDimension > 0.0 ==> n == Round(BaseDuration + log(10.0) * DurationMultiplier)
    ensures maxDimension <= 0.0 ==> n == Round(BaseDuration + log(1.0) * DurationMultiplier)
  {
    Round(BaseDuration + log(ScaleRatio(maxDimension)) * DurationMultiplier)
  }

  /**
   * The pose and animation keys applied to a loaded root mesh whose hierarchy
   * has bounding vectors `b`: placed at the origin, given the initial scale,
   * and keyed from the initial scale at frame 0 to the final scale.
   */
  function Entry(b: BoundingVectors, log: real -> real): (e: EntryAnimation)
    ensures e.position == Origin
    ensures |e.keys| == 2
    ensures e.keys[0].frame == 0 && e.keys[1].frame == Duration(MaxDimension(b), log)
    ensures e.scaling == e.keys[0].value
    ensures MaxDimension(b) > 0.0 ==>
              e.keys[0].value.x * MaxDimension(b) == DesiredInitialVisualSize &&
              e.keys[0].value.y == e.keys[0].value.x && e.keys[0].value.z == -e.keys[0].value.x
    ensures MaxDimension(b) > 0.0 ==>
              e.keys[1].value.x * MaxDimension(b) == DesiredFinalSize &&
              e.keys[1].value.y == e.keys[1].value.x && e.keys[1].value.z == -e.keys[1].value.x
    ensures MaxDimension(b) > 0.0 ==>
              e.keys[1].value.x == 10.0 * e.keys[0].value.x &&
              e.keys[1].value.y == 10.0 * e.keys[0].value.y &&
              e.keys[1].value.z == 10.0 * e.keys[0].value.z
    ensures MaxDimension(b) <= 0.0 ==> e.keys[0].value == e.keys[1].value == Vec3(1.0, 1.0, -1.0)
  {
    var d := MaxDimension(b);
    var initial := InitialScale(d);
    var final := FinalScale(d);
    ScaleVectors(d);
    EntryAnimation(Origin, initial, [Keyframe(0, initial), Keyframe(Duration(d, log), final)])
  }

  /**
   * Both scale vectors carry the factor on x and y and its negation on z, and
   * for a positive extent every component has magnitude target / extent, the
   * final one ten times the initial one.
   */
  lemma ScaleVectors(d: real)
    ensures FinalScale(d) == Vec3(FinalScaleFactor(d), FinalScaleFactor(d), -FinalScaleFactor(d))
    ensures InitialScale(d) == Vec3(InitialScaleFactor(d), InitialScaleFactor(d), -InitialScaleFactor(d))
    ensures d > 0.0 ==> InitialScale(d).x * d == DesiredInitialVisualSize && -InitialScale(d).z * d == DesiredInitialVisualSize
    ensures d > 0.0 ==> FinalScale(d).x * d == DesiredFinalSize && -FinalScale(d).z * d == DesiredFinalSize
    ensures d > 0.0 ==> FinalScaleFactor(d) == 10.0 * InitialScaleFactor(d)
  {
    if d > 0.0 {
      var fin, init := FinalScaleFactor(d), InitialScaleFactor(d);
      assert (fin - 10.0 * init) * d == 0.0;
    }
  }

  /**
   * Scale invariance: two assets of any positive sizes start at the same
   * visual size and grow to the same visual size.
   */
  lemma ScaleInvariance(b1: BoundingVectors, b2: BoundingVectors)
    requires MaxDimension(b1) > 0.0 && MaxDimension(b2) > 0.0
    ensures InitialScaleFactor(MaxDimension(b1)) * MaxDimension(b1)
         == InitialScaleFactor(MaxDimension(b2)) * MaxDimension(b2)
         == DesiredInitialVisualSize
    ensures FinalScaleFactor(MaxDimension(b1)) * MaxDimension(b1)
         == FinalScaleFactor(MaxDimension(b2)) * MaxDimension(b2)
         == DesiredFinalSize
  {
  }

  function ScaleBounds(b: BoundingVectors, k: real): BoundingVectors {
    BoundingVectors(Vec3(k * b.min.x, k * b.min.y, k * b.min.z), Vec3(k * b.max.x, k * b.max.y, k * b.max.z))
  }

  function Translate(b: BoundingVectors, o: Vec3): BoundingVectors {
    BoundingVectors(Vec3(b.min.x + o.x, b.min.y + o.y, b.min.z + o.z), Vec3(b.max.x + o.x, b.max.y + o.y, b.max.z + o.z))
  }

  /** Only the size of the box matters, not where it sits. */
  lemma TranslationInvariance(b: BoundingVectors, o: Vec3, log: real -> real)
    ensures MaxDimension(Translate(b, o)) == MaxDimension(b)
    ensures Entry(Translate(b, o), log) == Entry(b, log)
  {
  }

  /** Multiplying by a positive number keeps the order. */
  lemma MulMonotone(k: real, a: real, b: real)
    requires k > 0.0 && a <= b
    ensures k * a <= k * b
  {
    assert k * b - k * a == k * (b - a);
  }

  /** The largest of three numbers scaled by `k > 0` is `k` times the largest. */
  lemma Max3Scales(a: real, b: real, c: real, k: real)
    requires k > 0.0
    ensures Max3(k * a, k * b, k * c) == k * Max3(a, b, c)
  {
    var m := Max3(a, b, c);
    MulMonotone(k, a, m);
    MulMonotone(k, b, m);
    MulMonotone(k, c, m);
  }

  /** Scaling the box by `k > 0` scales its largest extent by `k`. */
  lemma MaxDimensionScales(b: BoundingVectors, k: real)
    requires k > 0.0
    ensures MaxDimension(ScaleBounds(b, k)) == k * MaxDimension(b)
  {
    var s := Size(b);
    assert Size(ScaleBounds(b, k)) == Vec3(k * s.x, k * s.y, k * s.z) by {
      assert k * b.max.x - k * b.min.x == k * s.x;
      assert k * b.max.y - k * b.min.y == k * s.y;
      assert k * b.max.z - k * b.min.z == k * s.z;
    }
    Max3Scales(s.x, s.y, s.z, k);
  }

  /** A largest extent `k` times larger gives a scale factor `k` times smaller. */
  lemma {:induction false} ScaleFactorScales(target: real, d: real, k: real)
    requires d > 0.0 && k > 0.0
    ensures k * ScaleFactor(target, k * d) == ScaleFactor(target, d)
  {
    var fk, f := ScaleFactor(target, k * d), ScaleFactor(target, d);
    assert fk * (k * d) == target;
    assert (k * fk - f) * d == 0.0;
  }

  /**
   * An asset authored `k` times larger (k > 0) gets scale factors `k` times
   * smaller, so it is shown at exactly the same sizes, over the same number
   * of frames.
   */
  lemma {:induction false} ScaleEquivariance(b: BoundingVectors, k: real, log: real -> real)
    requires k > 0.0
    ensures MaxDimension(ScaleBounds(b, k)) == k * MaxDimension(b)
    ensures MaxDimension(b) > 0.0 ==>
              k * InitialScaleFactor(MaxDimension(ScaleBounds(b, k))) == InitialScaleFactor(MaxDimension(b)) &&
              k * FinalScaleFactor(MaxDimension(ScaleBounds(b, k))) == FinalScaleFactor(MaxDimension(b))
    ensures Duration(MaxDimension(ScaleBounds(b, k)), log) == Duration(MaxDimension(b), log)
  {
    MaxDimensionScales(b, k);
    var d := MaxDimension(b);
    if d > 0.0 {
      ScaleFactorScales(DesiredInitialVisualSize, d, k);
      ScaleFactorScales(DesiredFinalSize, d, k);
      assert k * d > 0.0;
    } else {
      assert k * d <= 0.0;
    }
  }

  /** The duration depends on the asset only through whether its largest extent is positive. */
  lemma DurationDependsOnlyOnSign(d1: real, d2: real, log: real -> real)
    requires d1 > 0.0 <==> d2 > 0.0
    ensures Duration(d1, log) == Duration(d2, log)
  {
  }

  /** With the natural logarithm (log 1 = 0), a degenerate asset animates for 25 frames. */
  lemma DegenerateDuration(d: real, log: real -> real)
    requires d <= 0.0
    requires log(1.0) == 0.0
    ensures Duration(d, log) == 25
  {
  }

  /** With the natural logarithm (log 10 = 2.3025...), every other asset animates for 43 frames. */
  lemma PositiveDuration(d: real, log: real -> real)
    requires d > 0.0
    requires 2.30 <= log(10.0) <= 2.31
    ensures Duration(d, log) == 43
  {
  }

  /**
   * Duration is non-decreasing in log(ratio); rounding to whole frames makes
   * it constant on short intervals, so it is not strictly increasing.
   */
  lemma DurationMonotone(d1: real, d2: real, log: real -> real)
    requires log(ScaleRatio(d1)) <= log(ScaleRatio(d2))
    ensures Duration(d1, log) <= Duration(d2, log)
  {
  }

  /** Two different log-ratios can give the same duration. */
  lemma DurationNotStrictlyMonotone()
    ensures Round(BaseDuration + 0.0 * DurationMultiplier) == Round(BaseDuration + 0.01 * DurationMultiplier)
  {
  }
}
