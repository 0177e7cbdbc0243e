/**
 The state of the 3D viewer widget that the normaliser writes into: the
 registry of per-visual limit transforms, the axis box and its transform,
 the axis-visibility and auto-rotation switches, and the camera azimuth.
 Rendering calls (`canvas.update()`, `canvas.render()`) draw what this state
 describes and are not modelled.
 */
module VispyWidget {
  import opened Wrappers
  import opened Geometry
  import opened Limits

  /** A stable handle for a visual added to the viewer. */
  type VisualId = nat

  datatype Timer = Stopped | Running(interval: real)

  /** Seconds between rotation ticks once auto-rotation is switched on. */
  const RotateInterval: real := 0.1

  datatype Widget = Widget(
    limitTransforms: map<VisualId, Transform>,  // each data visual's own transform
    viewChildren: set<VisualId>,                // data visuals added to the view
    axisTransform: Transform,                   // transform of the axis box
    axisAttached: bool,                         // the axis box has the view's scene as parent
    visibleAxes: Option<bool>,                  // user switch; unset until first assigned
    rotateView: Option<bool>,                   // user switch; unset until first assigned
    timer: Timer,
    rotateSliderVal: real,                      // degrees added to the azimuth per tick
    azimuth: real                               // camera azimuth, in degrees
  )

  /** The outcome of an update: the state it returned with, or the error it raised and the state left behind. */
  datatype Step = Returned(state: Widget) | Raised(error: LimitsError, state: Widget)

  /** Python truthiness of a switch that may still be `None`. */
  predicate IsOn(flag: Option<bool>)
  {
    flag == Some(true)
  }

  /**
   A freshly built widget: no data visuals, the axis box attached with an
   identity transform, the timer created but not started. The camera is
   foreign, so its starting azimuth is a parameter.
   */
  function Init(azimuth: real): (w: Widget)
    ensures Coherent(w)
    ensures |w.limitTransforms| == 0 && w.timer == Stopped
    ensures w.rotateView == None && w.rotateSliderVal == 0.0
    ensures w.axisAttached && w.visibleAxes == None && !AxesAgree(w)
  {
    Widget(map[], {}, Identity, true, None, None, Stopped, 0.0, azimuth)
  }

  /**
   What every operation keeps: registered visuals are in the view, and the
   timer runs, at the fixed interval, iff auto-rotation is on.
   */
  predicate Coherent(w: Widget)
  {
    && w.limitTransforms.Keys <= w.viewChildren
    && (w.timer.Running? <==> IsOn(w.rotateView))
    && (w.timer.Running? ==> w.timer.interval == RotateInterval)
  }

  /** The axis box is shown iff the axis switch is on; holds from the first assignment of the switch. */
  predicate AxesAgree(w: Widget)
  {
    w.axisAttached <==> IsOn(w.visibleAxes)
  }

  /**
   Registers a data visual: it gets a fresh identity transform of its own and
   is added to the view. Its transform is not recomputed from the limits here.
   */
  function AddDataVisual(w: Widget, v: VisualId): (r: Widget)
    ensures r.limitTransforms.Keys == w.limitTransforms.Keys + {v}
    ensures r.limitTransforms[v] == Identity
    ensures forall u :: u in w.limitTransforms && u != v ==> r.limitTransforms[u] == w.limitTransforms[u]
    ensures v in r.viewChildren && r.viewChildren - {v} == w.viewChildren - {v}
    ensures r == w.(limitTransforms := r.limitTransforms, viewChildren := r.viewChildren)
  {
    w.(limitTransforms := w.limitTransforms[v := Identity],
       viewChildren := w.viewChildren + {v})
  }

  /** Every entry of the registry set to the same transform. */
  function Broadcast(m: map<VisualId, Transform>, t: Transform): map<VisualId, Transform>
  {
    map v | v in m :: t
  }

  /**
   The loop that writes the new scale and translation into each registered
   transform in turn.
   */
  method AssignAll(m: map<VisualId, Transform>, t: Transform) returns (r: map<VisualId, Transform>)
    ensures r.Keys == m.Keys
    ensures forall v :: v in r ==> r[v] == t
    ensures r == Broadcast(m, t)
  {
    r := m;
    var todo := m.Keys;
    while todo != {}
      invariant todo <= m.Keys
      invariant r.Keys == m.Keys
      invariant forall v :: v in r && v !in todo ==> r[v] == t
      decreases todo
    {
      var v :| v in todo;
      r := r[v := t];
      todo := todo - {v};
    }
  }

  /**
   Recomputes the limit transforms from the options. A no-op with no
   registered visuals; raises `BoundsUnset`, changing nothing, if a bound is
   unset; otherwise writes the normalising transform into every registered
   visual and touches nothing else.
   */
  function UpdateLimits(w: Widget, o: Options): (r: Step)
    requires |w.limitTransforms| > 0 && AllBounded(o) ==> Admissible(o)
    ensures |w.limitTransforms| == 0 ==> r == Returned(w)
    ensures r.Raised? <==> |w.limitTransforms| > 0 && !AllBounded(o)
    ensures r.Raised? ==> r == Raised(BoundsUnset, w)
    ensures r.state.limitTransforms.Keys == w.limitTransforms.Keys
    ensures r.Returned? && |w.limitTransforms| > 0 ==>
              AllBounded(o) && forall v :: v in r.state.limitTransforms ==> NormalisesBox(r.state.limitTransforms[v], o)
    ensures r.state == w.(limitTransforms := r.state.limitTransforms)
  {
    if |w.limitTransforms| == 0 then Returned(w)
    else
      match ComputeTransform(o)
      case Failure(e) => Raised(e, w)
      case Success(t) => Returned(w.(limitTransforms := Broadcast(w.limitTransforms, t)))
  }

  /**
   After a successful recomputation every registered visual holds the very
   same transform.
   */
  lemma UpdateLimitsUniform(w: Widget, o: Options, u: VisualId, v: VisualId)
    requires |w.limitTransforms| > 0 && AllBounded(o) ==> Admissible(o)
    requires UpdateLimits(w, o).Returned?
    requires u in UpdateLimits(w, o).state.limitTransforms && v in UpdateLimits(w, o).state.limitTransforms
    ensures UpdateLimits(w, o).state.limitTransforms[u] == UpdateLimits(w, o).state.limitTransforms[v]
  {
  }

  /** Recomputing with unchanged options reproduces the same outcome. */
  lemma UpdateLimitsIdempotent(w: Widget, o: Options)
    requires |w.limitTransforms| > 0 && AllBounded(o) ==> Admissible(o)
    ensures UpdateLimits(UpdateLimits(w, o).state, o) == UpdateLimits(w, o)
  {
  }

  /**
   Sets the axis box's scale to the given stretch, then recomputes the limit
   transforms with their no-op and error cases. The new axis scale is already
   in place when `BoundsUnset` is raised.
   */
  function UpdateStretch(w: Widget, o: Options, stretch: Vec3): (r: Step)
    requires |w.limitTransforms| > 0 && AllBounded(o) ==> Admissible(o)
    ensures r.state.axisTransform == Transform(stretch, w.axisTransform.translate)
    ensures r.Raised? <==> UpdateLimits(w, o).Raised?
    ensures r.Raised? ==> r.error == BoundsUnset
    ensures r.state.limitTransforms == UpdateLimits(w, o).state.limitTransforms
    ensures r.state == w.(axisTransform := r.state.axisTransform, limitTransforms := r.state.limitTransforms)
  {
    var scaled := w.(axisTransform := w.axisTransform.(scale := stretch));
    UpdateLimits(scaled, o)
  }

  /** Reacts to the axis switch: attach the axis box iff the switch is on. */
  function ToggleAxes(w: Widget): (r: Widget)
    ensures AxesAgree(r)
    ensures r == w.(axisAttached := r.axisAttached)
  {
    w.(axisAttached := IsOn(w.visibleAxes))
  }

  /** Assigns the axis switch and runs its callback. */
  function SetVisibleAxes(w: Widget, on: bool): (r: Widget)
    ensures r.visibleAxes == Some(on) && r.axisAttached == on
    ensures r == w.(visibleAxes := Some(on), axisAttached := on)
  {
    ToggleAxes(w.(visibleAxes := Some(on)))
  }

  /** Reacts to the rotation switch: start the timer at the fixed interval iff it is on, else stop it. */
  function ToggleRotate(w: Widget): (r: Widget)
    ensures r.timer.Running? <==> IsOn(w.rotateView)
    ensures r.timer.Running? ==> r.timer.interval == RotateInterval
    ensures r == w.(timer := r.timer)
  {
    w.(timer := if IsOn(w.rotateView) then Running(RotateInterval) else Stopped)
  }

  function SetRotateView(w: Widget, on: bool): (r: Widget)
    ensures r.rotateView == Some(on) && (r.timer.Running? <==> on)
    ensures r == w.(rotateView := Some(on), timer := r.timer)
  {
    ToggleRotate(w.(rotateView := Some(on)))
  }

  /** Records the rotation slider's value, the step applied on each tick. */
  function UpdateRotate(w: Widget, rotate: real): (r: Widget)
    ensures r.rotateSliderVal == rotate
    ensures r == w.(rotateSliderVal := r.rotateSliderVal)
  {
    w.(rotateSliderVal := rotate)
  }

  /** One timer tick: the camera turns by the slider's value. */
  function Rotate(w: Widget): (r: Widget)
    ensures r.azimuth - w.azimuth == w.rotateSliderVal
    ensures r == w.(azimuth := r.azimuth)
  {
    w.(azimuth := w.azimuth + w.rotateSliderVal)
  }

  /** `n` timer ticks; a stopped timer does not fire. */
  function Ticks(w: Widget, n: nat): Widget
    decreases n
  {
    if n == 0 || w.timer.Stopped? then w else Ticks(Rotate(w), n - 1)
  }

  /**
   After `n` ticks of a running timer the azimuth has grown by `n` times the
   last slider value; a stopped timer leaves it alone, and nothing else changes.
   */
  lemma {:induction false} TicksAdvance(w: Widget, n: nat)
    ensures Ticks(w, n) == w.(azimuth := w.azimuth + (if w.timer.Running? then n as real * w.rotateSliderVal else 0.0))
    decreases n
  {
    if n > 0 && w.timer.Running? {
      TicksAdvance(Rotate(w), n - 1);
    }
  }

  /** The rotation step is the value last passed to `UpdateRotate`, whatever came before. */
  lemma RotateUsesLastSlider(w: Widget, a: real, b: real)
    ensures Rotate(UpdateRotate(UpdateRotate(w, a), b)).azimuth == w.azimuth + b
  {
  }

  /**
   Once the axis switch and the axis box agree, assigning the switch its
   current value changes nothing, so it does not matter whether the callback
   runs on an unchanged assignment.
   */
  lemma ReassignAxesIsNoOp(w: Widget, on: bool)
    requires AxesAgree(w) && w.visibleAxes == Some(on)
    ensures SetVisibleAxes(w, on) == w
  {
  }

  /**
   Likewise, in a coherent widget assigning the rotation switch its current
   value leaves the timer, and everything else, as it was.
   */
  lemma ReassignRotateIsNoOp(w: Widget, on: bool)
    requires Coherent(w) && w.rotateView == Some(on)
    ensures SetRotateView(w, on) == w
  {
  }

  /**
   With no registered visuals the recomputation returns at once, whatever
   the bounds: unset, or equal so that a division would fail.
   */
  lemma NoOpIgnoresBounds(w: Widget, o: Options)
    requires |w.limitTransforms| == 0
    ensures UpdateLimits(w, o) == Returned(w)
  {
  }

  /**
   An unset bound is reported before anything is divided, even when another
   axis has equal bounds.
   */
  lemma UnsetBoundRaisedFirst(w: Widget, v: VisualId, c: real)
    requires v in w.limitTransforms
    ensures var o := Options(AxisOptions(None, Some(1.0), 1.0),
                             AxisOptions(Some(c), Some(c), 1.0),
                             AxisOptions(Some(0.0), Some(1.0), 1.0));
            UpdateLimits(w, o) == Raised(BoundsUnset, w)
  {
  }

  /**
   Every operation preserves coherence. Assigning the axis switch makes the
   axis box agree with it, and every other operation keeps that agreement.
   */
  lemma OperationsPreserveCoherence(w: Widget, o: Options, v: VisualId, stretch: Vec3, on: bool, rotate: real)
    requires Coherent(w)
    requires |w.limitTransforms| > 0 && AllBounded(o) ==> Admissible(o)
    ensures Coherent(AddDataVisual(w, v))
    ensures Coherent(UpdateLimits(w, o).state)
    ensures Coherent(UpdateStretch(w, o, stretch).state)
    ensures Coherent(SetVisibleAxes(w, on)) && AxesAgree(SetVisibleAxes(w, on))
    ensures Coherent(SetRotateView(w, on))
    ensures Coherent(UpdateRotate(w, rotate))
    ensures Coherent(Rotate(w))
    ensures AxesAgree(w) ==>
              && AxesAgree(AddDataVisual(w, v))
              && AxesAgree(UpdateLimits(w, o).state)
              && AxesAgree(UpdateStretch(w, o, stretch).state)
              && AxesAgree(SetRotateView(w, on))
              && AxesAgree(UpdateRotate(w, rotate))
              && AxesAgree(Rotate(w))
  {
  }

  /**
   A visual added after the limits were computed keeps its identity transform
   until the next recomputation, which brings it in line with the others.
   */
  lemma AddThenUpdate(w: Widget, o: Options, v: VisualId)
    requires Admissible(o) && AllBounded(o)
    ensures var r := UpdateLimits(AddDataVisual(w, v), o);
            && r.Returned?
            && r.state.limitTransforms.Keys == w.limitTransforms.Keys + {v}
            && forall u :: u in r.state.limitTransforms ==> r.state.limitTransforms[u] == ComputeTransform(o).value
  {
  }
}
