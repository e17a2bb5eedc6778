# Camera drive-by scheduler and material panel: a Dafny model

This project models two small pieces of a control layer for a 3D
content-creation application. The layer drives the application's cameras and
materials through its scripting API, and a desktop panel edits material
parameters live.

- **Camera controller** (`camera_animation.dfy`, module `CameraAnimation`).
  A `Camera` wraps one camera object of the host scene (`HostCamera`). The
  host camera holds a location, a rotation in degrees, a lens and an
  append-only keyframe track. The wrapper keeps its own copy of the
  coordinates, and `Valid()` ties that copy to the host object's location.
  `DriveBy` has the source's loop, with its two counters `frame` and `rot`.
  Its loop invariants and `ensures` tie the new keyframe track to `Schedule`,
  which builds the keyframes one waypoint at a time. The lemmas then prove
  what a schedule means:
  - keyframe `i` lies at frame `i * frames/(n-1)`;
  - the last keyframe lies exactly at `frames`;
  - keyframe `i` records waypoint `i`;
  - a complete group of three rotation values is used for its own waypoint;
  - a missing group keeps the previous rotation;
  - once the list runs out, every later keyframe keeps the last complete group.

  The three presets are proved to lay down their keyframe lists.
- **Material panel** (`panel_materials.dfy`, module `PanelMaterials`).
  `MaterialWidgets` holds the entry texts, the slider values, the emissive
  strength variable and the emissive check box as fields. The panel talks to
  a `Control` object, which holds a model flag, a re-render counter and a
  `Material`. The `Material` holds the parameters, a log of the routines it
  has run, and the effect of each routine as a function parameter.
  - Every setter writes one value into the entry, the slider and the
    controller.
  - A setter re-renders exactly when its `isReleased` argument is true
    (a slider release, or Return in an entry).
  - The metallic, roughness and transmission Return handlers apply 0 for
    empty text; the emissive one keeps the strength it had. Otherwise each
    applies the text's integer clamped into [0, 100].
  - Preset selection runs exactly the preset routine of its tag, except
    thick glass with no model loaded, which runs none.
- **Decimal text** (`numerals.dfy`, module `Numerals`) models Python's
  `str.isdigit`, `int(text)` and `str(n)`. `isdigit` accepts the decimal
  digits and also the superscript, subscript and circled digits, which `int`
  refuses. The module proves that rendering an integer and reading it back
  gives the integer.

The host application and the widget toolkit are not modelled. They appear
only as the state updates the code makes on them. `utils.percent` is a
function parameter of the panel (`percent`). The preset routines of the
material controller are the controller's function parameter `apply`.
`utils.clamp(x, 0, 100)` is taken to be the nearest value in [0, 100], which
is how it is used.

In these edge cases the model follows what the code actually does:
- `drive_by` with no waypoints divides by -1 and loops zero times. It is
  modelled as a no-op.
- `drive_by` with one waypoint raises ZeroDivisionError before it changes
  anything. It is modelled as the outcome `DivisionByZero` with the state
  unchanged.
- The key validator accepts the empty text, although the comment above it
  says the field cannot be emptied.

## Model

| member | source | states |
|---|---|---|
| CameraAnimation.HostCamera.constructor | camera_animation/camera_animation_module.py:14-15 | the added camera object stands at the given location with no keyframes |
| CameraAnimation.HostCamera.InsertKeyframe | camera_animation/camera_animation_module.py:53-54 | keyframing appends the current location and rotation at the given frame; nothing else changes |
| CameraAnimation.Camera.constructor | camera_animation/camera_animation_module.py:9-17 | a new camera keeps its name and has position (x, y, z), rotation (90, 0, 90) degrees, lens 25 and no keyframes |
| CameraAnimation.Camera.SetCameraPosition | camera_animation/camera_animation_module.py:20-24 | afterwards the position is exactly the triple set, and rotation, lens and keyframes are unchanged |
| CameraAnimation.Camera.GetCameraPosition | camera_animation/camera_animation_module.py:27-28 | returns the stored coordinates |
| CameraAnimation.Camera.GetCameraRotation | camera_animation/camera_animation_module.py:39-40 | returns the host object's rotation |
| CameraAnimation.Camera.SetCameraRotation | camera_animation/camera_animation_module.py:43-50 | the rotation becomes the given angles; location, lens and keyframes are unchanged |
| CameraAnimation.Camera.AddKeyframe | camera_animation/camera_animation_module.py:52-54 | one keyframe holding the current position and rotation is appended at the frame |
| CameraAnimation.Camera.DriveBy | camera_animation/camera_animation_module.py:85-98 | one waypoint raises division by zero with nothing changed; otherwise the track grows by exactly the schedule of all waypoints, the camera ends at the last waypoint, and the rotation is the one in effect after the last waypoint |
| CameraAnimation.Schedule | camera_animation/camera_animation_module.py:90-96 | the schedule of the first k waypoints has exactly k keyframes |
| CameraAnimation.FrameAtIsMultiple | camera_animation/camera_animation_module.py:87-98 | adding the step i times to a frame counter that starts at 0 gives i times the step |
| CameraAnimation.LastFrameIsBudget | camera_animation/camera_animation_module.py:89-98 | with at least two waypoints the last keyframe is exactly at the frame budget |
| CameraAnimation.ScheduleAt | camera_animation/camera_animation_module.py:90-98 | keyframe i is at frame i times the step, at waypoint i, with the rotation in effect after waypoint i |
| CameraAnimation.KeyframeRotation | camera_animation/camera_animation_module.py:92-95 | keyframe i takes rotation group i when all three of its values exist; otherwise it keeps the rotation in effect before it, with no partial update |
| CameraAnimation.RotationRunsOut | camera_animation/camera_animation_module.py:92-97 | once the rotation list is exhausted, every later keyframe keeps the last complete group, or the start rotation if there is none |
| CameraAnimation.Camera.Preset1 | camera_animation/camera_animation_module.py:109-115 | lays down keyframes at 0 and at the budget, from (5, -3, 0) to (5, 3, 0), both turned (90, 0, 90); the lens is unchanged |
| CameraAnimation.Camera.Preset2 | camera_animation/camera_animation_module.py:117-123 | lays down keyframes at 0 and at the budget, from (100, 0, 0) to (3, 0, 0); the lens is unchanged |
| CameraAnimation.Camera.Preset3 | camera_animation/camera_animation_module.py:125-131 | lays down three keyframes at 0, half the budget and the budget; the middle one at (1, 1, 5) turned (0, 45, 45); the lens is unchanged |
| CameraAnimation.Preset1Schedule | camera_animation/camera_animation_module.py:109-115 | the first preset's schedule is two keyframes spanning frames 0 to the budget, for any start rotation |
| CameraAnimation.Preset2Schedule | camera_animation/camera_animation_module.py:117-123 | the second preset's schedule is two keyframes spanning frames 0 to the budget |
| CameraAnimation.Preset3Schedule | camera_animation/camera_animation_module.py:125-131 | the third preset's schedule is three keyframes, the middle one at half the budget with rotation (0, 45, 45) |
| Numerals.IsDigitString | gui/panel_materials.py:120 | `str.isdigit` accepts every non-empty string of decimal digits, and never the empty string |
| Numerals.ParseInt | gui/panel_materials.py:171 | `int` reads decimal text, always to a number that is not negative; it refuses the empty text |
| Numerals.IntToString | gui/panel_materials.py:195 | the text an integer is rendered as is never empty, and is decimal digits alone exactly when the integer is not negative |
| Numerals.IntToStringRoundTrip | gui/panel_materials.py:194-197 | the text an entry shows after an integer is inserted reads back with `int` as that integer |
| PanelMaterials.ParseMaterial | gui/panel_materials.py:129 | a tag looked up as a member is that member's value |
| PanelMaterials.ParseMaterialIsInverse | gui/panel_materials.py:295-302 | looking up a member by value finds exactly the member whose tag that value is |
| PanelMaterials.ParseMaterialRefuses | gui/panel_materials.py:129 | a tag that belongs to none of the seven members is refused, and every refused tag is such a tag |
| PanelMaterials.ValidateInteger | gui/panel_materials.py:117-123 | the validator accepts a text exactly when every character of it is a digit in the sense of `isdigit`, the empty text included |
| PanelMaterials.ValidatorLetsThroughUnreadable | gui/panel_materials.py:120-171 | the validator accepts "²", which `int` then refuses |
| PanelMaterials.ValidateDecimal | gui/panel_materials.py:117-123 | the intended validator accepts a text exactly when every character is a decimal digit; it accepts nothing the written one refuses |
| PanelMaterials.ValidateDecimalExactly | gui/panel_materials.py:117-172 | the intended validator accepts exactly the texts the written one accepts and a Return handler applies without raising |
| PanelMaterials.ValidateAcceptsRendering | gui/panel_materials.py:117-123 | the validator accepts what a setter writes into an entry exactly when the value is not negative |
| PanelMaterials.Clamp | gui/panel_materials.py:171 | the clamped value lies in the range, equals the input inside it and the nearer bound outside it |
| PanelMaterials.EntryValue | gui/panel_materials.py:168-184 | empty text applies 0; other text applies its integer clamped into [0, 100]; text `int` refuses raises ValueError; any applied value lies in [0, 100] |
| PanelMaterials.ValidatedEntryApplies | gui/panel_materials.py:168-172 | text the intended decimal validator lets through never makes a Return handler raise |
| PanelMaterials.EntryValueOfRendering | gui/panel_materials.py:193-197 | pressing Return on the text a setter wrote applies that value clamped, and a value in [0, 100] unchanged |
| PanelMaterials.RoutineForInjective | gui/panel_materials.py:129-142 | each tag stands for a different routine, and none of them is the unsolidify call |
| PanelMaterials.SetMaterialRunsItsPreset | gui/panel_materials.py:129-145 | selecting a tag runs exactly its own preset routine, except thick glass with no model loaded, which runs none |
| PanelMaterials.SetMaterialUnsolidifies | gui/panel_materials.py:125-127 | selecting a tag unsolidifies the model exactly when one is loaded |
| PanelMaterials.Truncate | gui/panel_materials.py:151 | `int()` of a number is the integer next to it toward zero |
| PanelMaterials.SliderValue | gui/panel_materials.py:151-153 | a fraction in [0, 1] is shown as the whole percentage at or below it, in [0, 100] |
| PanelMaterials.Adjusted | gui/panel_materials.py:151-166 | readjusting the sliders keeps the emissive flag, and writes the strength back only when emissive |
| PanelMaterials.MaterialWidgets.constructor | gui/panel_materials.py:108-115 | building the panel runs the default material (and unsolidifies a loaded model), shows the result and leaves the views in sync |
| PanelMaterials.MaterialWidgets.SetMetallic | gui/panel_materials.py:193-201 | entry, slider and controller all show the value; only the metallic parameter changes; a re-render happens exactly when released |
| PanelMaterials.MaterialWidgets.SetRoughness | gui/panel_materials.py:203-211 | entry, slider and controller all show the value; only the roughness parameter changes; a re-render happens exactly when released |
| PanelMaterials.MaterialWidgets.SetTransmission | gui/panel_materials.py:213-221 | entry, slider and controller all show the value; only the transmission parameter changes; a re-render happens exactly when released |
| PanelMaterials.MaterialWidgets.SetEmissive | gui/panel_materials.py:223-232 | the entry shows the strength variable, the controller stores it through percent, and a re-render happens exactly when released |
| PanelMaterials.MaterialWidgets.SetMetallicInput | gui/panel_materials.py:168-172 | Return applies the entry's value (0 when empty, clamped otherwise) with a re-render, or raises with nothing changed |
| PanelMaterials.MaterialWidgets.SetRoughnessInput | gui/panel_materials.py:174-178 | Return applies the entry's value (0 when empty, clamped otherwise) with a re-render, or raises with nothing changed |
| PanelMaterials.MaterialWidgets.SetTransmissInput | gui/panel_materials.py:180-184 | Return applies the entry's value (0 when empty, clamped otherwise) with a re-render, or raises with nothing changed |
| PanelMaterials.MaterialWidgets.SetEmissiveInput | gui/panel_materials.py:186-191 | empty text keeps the strength and refills the entry with it; otherwise the clamped value becomes the strength; either way the controller gets it and a re-render follows |
| PanelMaterials.MaterialWidgets.AdjustSliders | gui/panel_materials.py:150-166 | every widget shows the controller's parameters; metallic, roughness and transmission are written back through percent, the strength only when emissive; no re-render |
| PanelMaterials.MaterialWidgets.DefaultValues | gui/panel_materials.py:111-115 | runs the default material, then unsolidifies a loaded model, and shows the result |
| PanelMaterials.MaterialWidgets.SetMaterial | gui/panel_materials.py:125-147 | an unknown tag raises after the unsolidify and before anything else, so only the unsolidify has touched the parameters; a known tag runs its routines, readjusts the sliders (twice for the default tag), leaves the views in sync and re-renders once |
| PanelMaterials.MaterialWidgets.SelectPreset | gui/panel_materials.py:129-146 | runs the routines of the tag's case and readjusts the sliders, leaving the views in sync without a re-render |
| PanelMaterials.MaterialWidgets.RunPreset | gui/panel_materials.py:129-143 | every tag but the default runs its own preset routine, thick glass only with a model loaded |

## Left out

- Real host calls (object creation, keyframe insertion, rendering): modelled only as the state updates they make.
- The host's replacement of a keyframe inserted twice at the same frame: the model keeps an append-only track.
- Degree-to-radian conversion and float rounding of the accumulated frame counter: angles are kept in degrees and frames are exact reals. `CameraAnimation.Camera.GetCameraRotation` therefore returns degrees where the source returns radians.
- The frame of a keyframe is a real, although `add_keyframe` is annotated `int`, because `drive_by` passes the float counter.
- Waypoints are modelled as triples. A waypoint list with fewer than three coordinates, which would raise IndexError, is not modelled.
- `set_handles`: F-curve iteration over host data. It also has an unbound-variable fault when no action exists.
- `remove_keyframes`, `set_mode` and `delete_all_cameras`: host scene plumbing with catch-all error suppression.
- Widget layout, grid placement, frames and check buttons, binding and unbinding of release events, and enabling or disabling of sub-panels (`frame_set_enabled`, `widget_set_enabled`): toolkit code.
- `toggle_emissive`, `toggle_glow`, `toogle_bumpiness` and the noise-scale, noise-detail and distortion setters: pass-through calls to the controller and its noise and compositing parts. `AdjustSliders` models the emissive flag it reads back, and not the glow, bump and noise widgets.
- The toolkit's own behaviour when a value is written: the slider's clamping to its range, and validation of programmatic inserts into an entry. A setter stores its value as given. No caller in the file passes a value outside [0, 100], except what `adjust_sliders` reads from the controller.
- Writes to disabled widgets: the toolkit ignores `delete` and `insert` on a disabled entry, and the model treats every widget as always writable. The emissive part of `PanelMaterials.MaterialWidgets.Synced` therefore assumes the emissive frame is enabled; with emissive off, `adjust_sliders` writes the emissive entry before `toggle_emissive` and the entry may keep an old value.
- The slider callbacks pass their value as a string, which `int` converts: setters take the integer directly.
- `utils.percent` and the effect of each preset routine are foreign code: they are function parameters, not definitions.
- `Numerals.ParseInt`: the decimal digits are the ASCII ones. Other scripts' decimal digits, which both `isdigit` and `int` accept, are not modelled, and neither are the surrounding whitespace and the underscores between digits that `int` also accepts. `Numerals.IsDigit` lists the Latin-1 superscripts, the superscript and subscript digits and the circled digits, not every character `isdigit` accepts.
- `PanelMaterials.SliderValue`: the product `x*100` is exact here. The source computes it in floating point, so `int(0.29*100)` is `int(28.999999999999996)`, which is 28, where the model gives 29.
- `print` logging.

## Findings

| source | as written | input that shows it | evidently intended | confidence | as-written member | corrected member |
|---|---|---|---|---|---|---|
| gui/panel_materials.py:120 | the key validator accepts any text `str.isdigit` accepts | "²" passes the validator, and pressing Return then makes `int` at line 171 raise ValueError | accept only decimal digits (`str.isdecimal`), so that every accepted text can be applied | medium, not executed | PanelMaterials.ValidatorLetsThroughUnreadable | PanelMaterials.ValidatedEntryApplies |
