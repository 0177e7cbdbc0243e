# Axis-limit normaliser of the 3D VisPy viewer

This project models the state logic of `VispyWidget`, the widget that the 3D scatter and volume viewers draw into. Its one piece of arithmetic is the axis-limit normaliser. It reads per-axis `x_min … z_max` bounds and `x_stretch … z_stretch` factors from the viewer options. From them it computes a scale and a translation that send each axis's lower bound to `-stretch`, its upper bound to `+stretch` and its midpoint to `0`. It then writes that same transform into the transform of every registered data visual.

Around it the model keeps the rest of the widget's state:
- the registry that gives each data visual its own transform;
- the axis box's transform, which the stretch update rescales;
- the axis-visibility switch, which attaches or detaches the axis box;
- the auto-rotation switch, which starts or stops the rotation timer;
- the rotation step and the camera azimuth that each timer tick advances.

Numbers are Dafny `real`s, so every equation holds exactly, as it would over real numbers.

Modules:
- `Wrappers` holds `Option` (for a value that may be Python's `None`) and `Result`.
- `Geometry` holds `Vec3` and `Transform` (scale then translate), with `Apply` for where a transform sends a point.
- `Limits` holds the options record, the per-axis formulas and `ComputeTransform`.
- `VispyWidget` holds the widget state and its operations.

An update that can raise returns a `Step`. A `Step` is either `Returned(state)` or `Raised(error, state)`, where `state` is the widget as the exception leaves it. Python does not roll back assignments made before a `raise`. So when `_update_stretch` raises, the new axis scale is still in place, and the model keeps it.

## Model

| member | source | states |
|---|---|---|
| `Limits.ComputeTransform` | glue_vispy_viewers/common/vispy_widget.py:107-119 | fails with `BoundsUnset` exactly when one of the six bounds is unset; otherwise the transform maps the low corner of the data box to minus the stretch, the high corner to the stretch and the centre to the origin |
| `Limits.AxisEndpoints` | glue_vispy_viewers/common/vispy_widget.py:113-119 | on one axis, `scale = 2/(max-min)*stretch` and `translate = -0.5*(min+max)*scale` send min to `-stretch`, max to `+stretch` and the midpoint to 0 |
| `Limits.AxisUnique` | glue_vispy_viewers/common/vispy_widget.py:113-119 | any affine map on one axis that sends min to `-stretch` and max to `+stretch` has exactly the computed scale and translation |
| `Limits.AxisInsideCube` | glue_vispy_viewers/common/vispy_widget.py:113-119 | with a non-negative stretch, every value between the bounds lands in `[-stretch, stretch]`, whichever bound is larger |
| `Limits.NormalisingTransformUnique` | glue_vispy_viewers/common/vispy_widget.py:113-119 | a transform that maps the data box onto the stretched cube is the one `ComputeTransform` returns |
| `Limits.UnitCubeExample` | glue_vispy_viewers/common/vispy_widget.py:113-119 | bounds 0..1 with stretch 1 give scale `(2,2,2)` and translation `(-1,-1,-1)` |
| `Limits.SymmetricBoundsExample` | glue_vispy_viewers/common/vispy_widget.py:113-119 | bounds -2..2 with stretch 0.5 give scale `0.25` and translation `0` on each axis |
| `VispyWidget.AddDataVisual` | glue_vispy_viewers/common/vispy_widget.py:89-92 | the visual is registered with a fresh identity transform as its own transform and is added to the view; the other registry entries and all other state are unchanged |
| `VispyWidget.AssignAll` | glue_vispy_viewers/common/vispy_widget.py:121-123 | the loop over the registry leaves the same keys, each holding the one new transform |
| `VispyWidget.UpdateLimits` | glue_vispy_viewers/common/vispy_widget.py:102-123 | with no registered visuals it returns the state unchanged, whatever the bounds; with visuals and an unset bound it raises `BoundsUnset` and changes nothing; otherwise every registered visual gets a transform that normalises the data box, the registered set is unchanged and no other state changes |
| `VispyWidget.NoOpIgnoresBounds` | glue_vispy_viewers/common/vispy_widget.py:104-105 | with no registered visuals the recomputation returns the state unchanged for any options, unset or equal bounds included |
| `VispyWidget.UnsetBoundRaisedFirst` | glue_vispy_viewers/common/vispy_widget.py:107-111 | with a registered visual, an unset bound raises `BoundsUnset` and changes nothing, even when another axis has equal bounds |
| `VispyWidget.UpdateLimitsUniform` | glue_vispy_viewers/common/vispy_widget.py:121-123 | after a successful recomputation any two registered visuals hold the identical scale and translation |
| `VispyWidget.UpdateLimitsIdempotent` | glue_vispy_viewers/common/vispy_widget.py:102-123 | recomputing again with unchanged options gives the same outcome and the same state |
| `VispyWidget.UpdateStretch` | glue_vispy_viewers/common/vispy_widget.py:94-96 | the axis box's scale becomes exactly the given stretch and its translation is kept; the limit transforms and the raise/no-raise outcome are those of the limit recomputation; nothing else changes, even when it raises |
| `VispyWidget.ToggleAxes` | glue_vispy_viewers/common/vispy_widget.py:76-81 | afterwards the axis box is attached iff the axis switch is on (set and true); only the attachment changes |
| `VispyWidget.SetVisibleAxes` | glue_vispy_viewers/common/vispy_widget.py:73-81 | assigning the axis switch and running its callback leaves the axis box attached exactly when the new value is true |
| `VispyWidget.ReassignAxesIsNoOp` | glue_vispy_viewers/common/vispy_widget.py:73-81 | once switch and axis box agree, assigning the switch its current value changes nothing |
| `VispyWidget.ReassignRotateIsNoOp` | glue_vispy_viewers/common/vispy_widget.py:74-87 | in a coherent widget, assigning the rotation switch its current value changes nothing |
| `VispyWidget.ToggleRotate` | glue_vispy_viewers/common/vispy_widget.py:83-87 | afterwards the timer runs, at the 0.1 s interval, iff the rotation switch is on; only the timer changes |
| `VispyWidget.SetRotateView` | glue_vispy_viewers/common/vispy_widget.py:74-87 | assigning the rotation switch and running its callback leaves the timer running exactly when the new value is true |
| `VispyWidget.UpdateRotate` | glue_vispy_viewers/common/vispy_widget.py:98-99 | the rotation step becomes the given value; nothing else changes |
| `VispyWidget.Rotate` | glue_vispy_viewers/common/vispy_widget.py:128-129 | one tick increases the azimuth by the rotation step; nothing else changes |
| `VispyWidget.RotateUsesLastSlider` | glue_vispy_viewers/common/vispy_widget.py:98-99 | a tick after several slider updates turns the camera by the last value given |
| `VispyWidget.TicksAdvance` | glue_vispy_viewers/common/vispy_widget.py:128-129 | `n` ticks of a running timer increase the azimuth by `n` times the rotation step; a stopped timer changes nothing |
| `VispyWidget.Init` | glue_vispy_viewers/common/vispy_widget.py:36-69 | a new widget is coherent: no visuals, the timer stopped with the rotation switch unset, a rotation step of 0, and the axis box attached while the axis switch is still unset, so box and switch do not yet agree |
| `VispyWidget.OperationsPreserveCoherence` | glue_vispy_viewers/common/vispy_widget.py:76-99 | every operation keeps registered visuals in the view and keeps the timer running, at 0.1 s, iff rotation is on; assigning the axis switch makes box and switch agree, and every other operation keeps that agreement |
| `VispyWidget.AddThenUpdate` | glue_vispy_viewers/common/vispy_widget.py:89-123 | a visual added after the limits were set holds the identity until the next recomputation; after that recomputation it holds the same normalising transform as every other visual |

## Left out

- `Limits.ComputeTransform`, `VispyWidget.UpdateLimits` and `VispyWidget.UpdateStretch` require that no axis has equal bounds, but only when the division is reached. For `ComputeTransform` that is when all six bounds are set. For the other two it is also only when a visual is registered. The source divides by `max - min` without a guard, so there a zero range raises a Python division error or gives an infinity, depending on the number type. With no visuals, or with an unset bound, equal bounds are accepted, and the no-op and `BoundsUnset` cases behave as in the source.
- Floating-point rounding: the model works over exact reals. The endpoint and midpoint equations hold exactly only in that idealisation.
- The VisPy canvas, view, camera, axis mesh and cube geometry, and the Qt layout (lines 22-64) are foreign rendering and GUI objects. The model records only the state they end up holding.
- `canvas.update()` and `canvas.render()` are redraw requests to the renderer. They change no modelled state.
- `_reset_view` (lines 125-126) only resets the VisPy camera, whose state belongs to the renderer.
- The camera's azimuth is an unbounded real. Any wrapping of the angle done by VisPy's camera is not part of this model. Its starting azimuth is a parameter of `Init`.
- The timer's own scheduling is VisPy's. `Ticks` counts its firings as a parameter.
- The `emulate_texture` platform check (lines 33-34) depends on the environment. The `__main__` demo block (lines 131-156) is demo I/O.
- `stretch_value` and `rotate_speed` (lines 68, 70) are assigned but never read.
- Change notification comes from the host's callback-property library, which runs a callback only when the value changes. The model runs the callback on every assignment. `ReassignAxesIsNoOp` shows this makes no difference once the axis box and switch agree. `ReassignRotateIsNoOp` shows the same for the rotation switch in a coherent widget.
- `_update_stretch(*stretch)` takes any number of values; the model takes three. VisPy's transforms hold four-component vectors; the model keeps the three spatial components.
- The exception raised for an unset bound is a generic `Exception` with a message. The model names it `BoundsUnset`.
- The scatter viewer's message-hub wiring, the Jupyter volume viewer and the packaging metadata are not part of this model. They only connect host-application APIs.
