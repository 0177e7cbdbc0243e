/**
 The axis-limit normaliser: from per-axis lower and upper bounds and a
 stretch factor it derives the scale and translation that place the data
 inside the rendering cube, lower bound at -stretch, upper bound at +stretch.
 */
module Limits {
  import opened Wrappers
  import opened Geometry

  /** The viewer options for one axis: the two bounds, each possibly unset, and the stretch. */
  datatype AxisOptions = AxisOptions(lo: Option<real>, hi: Option<real>, stretch: real)

  /** The viewer options the normaliser reads (`x_min` ... `z_stretch`). */
  datatype Options = Options(x: AxisOptions, y: AxisOptions, z: AxisOptions)

  /** The one error the normaliser signals: data is registered but a bound is unset. */
  datatype LimitsError = BoundsUnset

  predicate Bounded(a: AxisOptions)
  {
    a.lo.Some? && a.hi.Some?
  }

  predicate AllBounded(o: Options)
  {
    Bounded(o.x) && Bounded(o.y) && Bounded(o.z)
  }

  /**
   The division by the range of an axis is unguarded, so an axis whose
   bounds are both set must not have them equal.
   */
  predicate NonDegenerate(a: AxisOptions)
  {
    Bounded(a) ==> a.lo.value != a.hi.value
  }

  predicate Admissible(o: Options)
  {
    NonDegenerate(o.x) && NonDegenerate(o.y) && NonDegenerate(o.z)
  }

  /** The affine map `p |-> scale * p + translate` sends `lo` to `-stretch` and `hi` to `+stretch`. */
  predicate Normalises(scale: real, translate: real, lo: real, hi: real, stretch: real)
  {
    scale * lo + translate == -stretch && scale * hi + translate == stretch
  }

  function AxisScale(lo: real, hi: real, stretch: real): real
    requires lo != hi
  {
    2.0 / (hi - lo) * stretch
  }

  function AxisTranslate(lo: real, hi: real, scale: real): real
  {
    -0.5 * (lo + hi) * scale
  }

  /**
   The scale and translation computed for one axis send the lower bound to
   `-stretch`, the upper bound to `+stretch` and the midpoint to the origin.
   */
  lemma AxisEndpoints(lo: real, hi: real, stretch: real)
    requires lo != hi
    ensures Normalises(AxisScale(lo, hi, stretch), AxisTranslate(lo, hi, AxisScale(lo, hi, stretch)), lo, hi, stretch)
    ensures AxisScale(lo, hi, stretch) * ((lo + hi) / 2.0) + AxisTranslate(lo, hi, AxisScale(lo, hi, stretch)) == 0.0
  {
  }

  /**
   Conversely, the computed scale and translation are the only affine map on
   the axis with that property: the formulas are forced by the geometry.
   */
  lemma AxisUnique(lo: real, hi: real, stretch: real, scale: real, translate: real)
    requires lo != hi
    requires Normalises(scale, translate, lo, hi, stretch)
    ensures scale == AxisScale(lo, hi, stretch)
    ensures translate == AxisTranslate(lo, hi, scale)
  {
  }

  lemma ProductNonNegative(a: real, b: real)
    requires 0.0 <= a && 0.0 <= b
    ensures 0.0 <= a * b
  {
  }

  /**
   With a non-negative stretch, every value between the two bounds lands
   within `[-stretch, stretch]`: the data fits inside the rendering cube.
   */
  lemma AxisInsideCube(lo: real, hi: real, stretch: real, p: real)
    requires lo != hi
    requires 0.0 <= stretch
    requires lo <= p <= hi || hi <= p <= lo
    ensures var s := AxisScale(lo, hi, stretch);
            -stretch <= s * p + AxisTranslate(lo, hi, s) <= stretch
  {
    var s := AxisScale(lo, hi, stretch);
    var t := AxisTranslate(lo, hi, s);
    AxisEndpoints(lo, hi, stretch);
    // s has the sign of hi - lo, and so do p - lo and hi - p.
    if lo < hi {
      ProductNonNegative(s, p - lo);
      ProductNonNegative(s, hi - p);
    } else {
      ProductNonNegative(-s, lo - p);
      ProductNonNegative(-s, p - hi);
    }
    assert s * p + t == (s * lo + t) + s * (p - lo);
    assert s * hi + t == (s * p + t) + s * (hi - p);
  }

  /** The corner of the data box made of the three lower bounds. */
  function LowCorner(o: Options): Vec3
    requires AllBounded(o)
  {
    Vec3(o.x.lo.value, o.y.lo.value, o.z.lo.value)
  }

  function HighCorner(o: Options): Vec3
    requires AllBounded(o)
  {
    Vec3(o.x.hi.value, o.y.hi.value, o.z.hi.value)
  }

  function Centre(o: Options): Vec3
    requires AllBounded(o)
  {
    Vec3((o.x.lo.value + o.x.hi.value) / 2.0,
         (o.y.lo.value + o.y.hi.value) / 2.0,
         (o.z.lo.value + o.z.hi.value) / 2.0)
  }

  function Stretch(o: Options): Vec3
  {
    Vec3(o.x.stretch, o.y.stretch, o.z.stretch)
  }

  /**
   The transform maps the data box onto the stretched rendering cube: the low
   corner to minus the stretch, the high corner to the stretch, the centre to
   the origin.
   */
  predicate NormalisesBox(t: Transform, o: Options)
    requires AllBounded(o)
  {
    && Apply(t, LowCorner(o)) == Vec3(-o.x.stretch, -o.y.stretch, -o.z.stretch)
    && Apply(t, HighCorner(o)) == Stretch(o)
    && Apply(t, Centre(o)) == Vec3(0.0, 0.0, 0.0)
  }

  /**
   The transform for the current options, or `BoundsUnset` when any of the
   six bounds is unset. The bounds are checked before anything is divided,
   so equal bounds matter only once all six are set.
   */
  function ComputeTransform(o: Options): (r: Result<Transform, LimitsError>)
    requires AllBounded(o) ==> Admissible(o)
    ensures r.Failure? <==> !AllBounded(o)
    ensures r.Failure? ==> r.error == BoundsUnset
    ensures r.Success? ==> NormalisesBox(r.value, o)
  {
    if !AllBounded(o) then Failure(BoundsUnset)
    else
      var (xl, xh, yl, yh, zl, zh) := (o.x.lo.value, o.x.hi.value, o.y.lo.value, o.y.hi.value, o.z.lo.value, o.z.hi.value);
      var scale := Vec3(AxisScale(xl, xh, o.x.stretch),
                        AxisScale(yl, yh, o.y.stretch),
                        AxisScale(zl, zh, o.z.stretch));
      var translate := Vec3(AxisTranslate(xl, xh, scale.x),
                            AxisTranslate(yl, yh, scale.y),
                            AxisTranslate(zl, zh, scale.z));
      AxisEndpoints(xl, xh, o.x.stretch);
      AxisEndpoints(yl, yh, o.y.stretch);
      AxisEndpoints(zl, zh, o.z.stretch);
      Success(Transform(scale, translate))
  }

  /**
   Any transform that maps the data box onto the stretched cube is the
   computed one: the normalising transform is unique.
   */
  lemma NormalisingTransformUnique(o: Options, t: Transform)
    requires Admissible(o) && AllBounded(o)
    requires NormalisesBox(t, o)
    ensures ComputeTransform(o) == Success(t)
  {
    AxisUnique(o.x.lo.value, o.x.hi.value, o.x.stretch, t.scale.x, t.translate.x);
    AxisUnique(o.y.lo.value, o.y.hi.value, o.y.stretch, t.scale.y, t.translate.y);
    AxisUnique(o.z.lo.value, o.z.hi.value, o.z.stretch, t.scale.z, t.translate.z);
  }

  /** Unit bounds with unit stretch give scale 2 and translation -1 on every axis. */
  lemma UnitCubeExample()
    ensures var a := AxisOptions(Some(0.0), Some(1.0), 1.0);
            ComputeTransform(Options(a, a, a))
              == Success(Transform(Vec3(2.0, 2.0, 2.0), Vec3(-1.0, -1.0, -1.0)))
  {
  }

  /** Bounds -2..2 with stretch 0.5 give scale 0.25 and no translation. */
  lemma SymmetricBoundsExample()
    ensures var a := AxisOptions(Some(-2.0), Some(2.0), 0.5);
            ComputeTransform(Options(a, a, a))
              == Success(Transform(Vec3(0.25, 0.25, 0.25), Vec3(0.0, 0.0, 0.0)))
  {
  }
}
