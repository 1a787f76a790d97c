# Orbit camera and player input: a Dafny model

This project models the discrete, non-geometric core of a Unity third-person
prototype. It has two parts.

- **The orbit camera rig** (`OrbitCamera`). It keeps a target vertical angle,
  which it accumulates from the input and clamps to `[MinVerticalAngle,
  MaxVerticalAngle]`. On a gamepad it eases the input near either bound
  within `SmoothingMargin`. It keeps a camera distance that eases toward the
  closest sphere-cast obstruction, or back toward `TargetDistance` when
  nothing is in the way. The rig also has an input-method switch for its
  rotation sharpness, editor-time clamps of its defaults, and its start-up
  state.
- **The player input component** (`PlayerInput`). Each frame it classifies
  the active device (None, GamePad, KeyboardMouse) from this frame's presses,
  in a fixed precedence order. It then drives the camera with the gamepad
  axes or the mouse axes.

Files:

- `mathf.dfy` (module `Mathf`): Unity's `Mathf.Clamp`, `Mathf.Clamp01` and
  `Mathf.Lerp` over reals, as the engine defines them. `Clamp` tests the
  lower bound first. `Lerp` clamps its parameter into `[0, 1]`.
- `input_method.dfy` (module `InputMethods`): the `InputMethod` enum.
- `orbit_camera.dfy` (module `OrbitCameraRig`): the specification functions,
  the lemmas about them, and the class `OrbitCamera`. The class has the
  component's scalar fields and a fixed `obstructions` buffer of 32 hits.
- `player_input.dfy` (module `PlayerControl`): the classifier, the camera
  dispatch, the lemmas about runs of frames, and the class `PlayerInput`.

Inputs from the engine become parameters:

- The `Input.*` polls of a frame are a `Frame`: four presses and four raw
  axes.
- The sphere cast's answer is the `castHits` sequence of an `EngineFrame`.
  Each hit is reduced to its distance and a collider id. The non-allocating
  cast copies as many hits as fit into the 32-entry buffer and returns that
  count.
- Each smoothing factor `1 - exp(-sharpness * dt)` is a number passed in:
  `obstructionBlend` for `ObstructionSharpness` and `distanceBlend` for
  `DistanceMovementSharpness`.
- The `Mathf.Infinity` sentinel of the obstruction loop is the `AtInfinity`
  case of `ClosestHit`. Every finite hit is closer than it.
- A missing `FollowTransform` is the flag `HasFollowTransform`.

Three behaviours of the code worth noting:

- `distanceIsObstructed` is set to `true` in both branches of
  `HandleObstructions`. Nothing in the modelled code reads it.
- Nothing in the modelled code calls `TransitionInputMethod`. The classifier
  only chooses the axes and the `gamePad` flag.
- `Awake` starts the vertical angle at 0, not at `DefaultVerticalAngle`.

## Model

| member | source | states |
|---|---|---|
| Mathf.Clamp | Assets/Scripts/OrbitCamera.cs:130 | with ordered bounds the result lies in them; a value inside is kept, below the lower bound gives the lower bound, above the upper bound gives the upper bound |
| Mathf.Clamp01 | Assets/Scripts/OrbitCamera.cs:121-125 | the result lies in [0, 1]; a value inside is kept, a value outside goes to the nearer end |
| Mathf.Lerp | Assets/Scripts/OrbitCamera.cs:167-174 | the result lies between the two end points; a parameter of 0 or less gives the start, 1 or more gives the target |
| Mathf.ClampIdempotent | Assets/Scripts/OrbitCamera.cs:51-55 | with ordered bounds a second clamp changes nothing, so running OnValidate again changes nothing |
| OrbitCameraRig.ApplyInversion | Assets/Scripts/OrbitCamera.cs:77-78 | InvertX negates only x, InvertY negates only y, and z is kept |
| OrbitCameraRig.EdgeModifier | Assets/Scripts/OrbitCamera.cs:116-126 | the easing factor lies in [0, 1]; it is 1 off the gamepad or with at least a margin of room; inside the margin (for a positive margin) it is the linear ramp room/margin + 0.1 up to where that reaches 1, is 1 from 0.9 of a margin of room on, and is 0 once the room is a tenth of a margin past the bound; a negative margin gives 1; a zero margin with negative room gives 0 |
| OrbitCameraRig.EdgeModifierMonotone | Assets/Scripts/OrbitCamera.cs:119-125 | the factor never decreases as the room before the bound grows, for any margin |
| OrbitCameraRig.EdgeEasingNearMaximum | Assets/Scripts/OrbitCamera.cs:119-120 | 5 degrees below the maximum with margin 25 the factor is 0.3, and an upward gamepad push of 1 from 65 lands on 65.3 |
| OrbitCameraRig.VerticalModifier | Assets/Scripts/OrbitCamera.cs:114-128 | the factor lies in [0, 1] and is 1 off the gamepad; a negative input (toward the maximum) uses the room below MaxVerticalAngle, any other input the room above MinVerticalAngle |
| OrbitCameraRig.RotationStep | Assets/Scripts/OrbitCamera.cs:129 | the step is input times speed when the factor is 1 and 0 for no input; with a non-negative speed it has the sign of the input |
| OrbitCameraRig.NextVerticalAngle | Assets/Scripts/OrbitCamera.cs:112-131 | with ordered bounds the new angle always lies in [MinVerticalAngle, MaxVerticalAngle]; no input only clamps; off the gamepad the full step is applied; from inside the range a negative input never lowers the angle and a positive one never raises it |
| OrbitCameraRig.Consider | Assets/Scripts/OrbitCamera.cs:157-161 | one loop pass keeps the current choice or takes the new hit, and takes it only when it qualifies; a non-qualifying hit changes nothing; an existing choice is never replaced by a farther one; the first qualifying hit replaces the sentinel |
| OrbitCameraRig.Closest | Assets/Scripts/OrbitCamera.cs:155-163 | the loop's result over the scanned entries, scanned from the front; whatever it chooses qualifies (not ignored, distance > 0); the loop invariant of HandleObstructions and the selection lemmas below are about it |
| OrbitCameraRig.ClosestSentinelIff | Assets/Scripts/OrbitCamera.cs:150-164 | the infinity sentinel survives the loop exactly when no hit qualifies, that is, every hit is on an ignored collider or has distance 0 or less |
| OrbitCameraRig.ClosestIsMinimal | Assets/Scripts/OrbitCamera.cs:155-163 | a chosen hit is one of the scanned hits, is not ignored, has distance > 0, and is at least as close as every other qualifying hit |
| OrbitCameraRig.ClosestIsFirstMinimum | Assets/Scripts/OrbitCamera.cs:158-161 | because only a strictly closer hit replaces the choice, the chosen hit sits at an index where every earlier qualifying hit is strictly farther |
| OrbitCameraRig.IgnoredHitIrrelevant | Assets/Scripts/OrbitCamera.cs:157-158 | inserting a hit on an ignored collider anywhere among the scanned buffer entries leaves the choice unchanged, so among those entries an ignored collider never shortens the distance |
| OrbitCameraRig.EasedDistance | Assets/Scripts/OrbitCamera.cs:164-175 | the new distance lies between the old distance and the chosen hit's distance when there is one, else between the old distance and TargetDistance; a blend of 1 or more lands on that target |
| OrbitCameraRig.EasedDistanceWithinCast | Assets/Scripts/OrbitCamera.cs:151-152 | when no hit lies beyond the queried TargetDistance and the distance starts within it, the eased distance stays within TargetDistance |
| OrbitCameraRig.OrbitCamera.constructor | Assets/Scripts/OrbitCamera.cs:13-49 | every modelled field has its declared initial value, and the buffer is a fresh array of MaxObstructions = 32 hits |
| OrbitCameraRig.OrbitCamera.OnValidate | Assets/Scripts/OrbitCamera.cs:51-55 | DefaultDistance and DefaultVerticalAngle are clamped into their ranges, and end up inside them when the bounds are ordered; no other field changes |
| OrbitCameraRig.OrbitCamera.Awake | Assets/Scripts/OrbitCamera.cs:57-65 | the current and target distances both become DefaultDistance and the vertical angle becomes 0; no other field changes |
| OrbitCameraRig.OrbitCamera.SetFollowTransform | Assets/Scripts/OrbitCamera.cs:67-72 | a follow target is present afterwards |
| OrbitCameraRig.OrbitCamera.ProcessInput | Assets/Scripts/OrbitCamera.cs:74-93 | without a follow target nothing changes; otherwise the inverted input drives Vertical and then HandleObstructions, and only the vertical angle, the distance, the obstructed flag, the count and the buffer change |
| OrbitCameraRig.OrbitCamera.Vertical | Assets/Scripts/OrbitCamera.cs:112-131 | the new angle is NextVerticalAngle of the old one and lies in [MinVerticalAngle, MaxVerticalAngle] when the bounds are ordered; only the angle changes |
| OrbitCameraRig.OrbitCamera.SphereCastNonAlloc | Assets/Scripts/OrbitCamera.cs:151-152 | the count is the number of hits that fit in the buffer; those hits fill its front and the rest of the buffer is untouched |
| OrbitCameraRig.OrbitCamera.HandleObstructions | Assets/Scripts/OrbitCamera.cs:148-176 | the loop's choice is the closest qualifying hit among the first obstructionCount buffer entries; the distance eases toward it or toward TargetDistance; the obstructed flag is true; nothing else changes |
| OrbitCameraRig.OrbitCamera.TransitionInputMethod | Assets/Scripts/OrbitCamera.cs:178-188 | GamePad selects GamepadRotationSharpness and every other method MouseRotationSharpness; only RotationSharpness changes, so a repeated call changes nothing |
| PlayerControl.Classify | Assets/Scripts/PlayerInput.cs:41-58 | a mouse button or Escape press gives KeyboardMouse even with a gamepad press in the same frame; a gamepad press alone gives GamePad; with no press the method is unchanged; None is never produced from another method |
| PlayerControl.Run | Assets/Scripts/PlayerInput.cs:35-58 | the input method after one DetermineInputMethod call per frame over a run of frames; it can end at None only if it started at None |
| PlayerControl.LatestPressWins | Assets/Scripts/PlayerInput.cs:35-58 | over a run of frames the latest frame with a press decides the method, and with no press the starting method is kept |
| PlayerControl.NoneNeverReentered | Assets/Scripts/PlayerInput.cs:11-58 | once not None the method never becomes None again; starting from None it stays None exactly as long as there has been no press |
| PlayerControl.CameraCommandFor | Assets/Scripts/PlayerInput.cs:60-76 | gamePad is true exactly for GamePad, which gets the gamepad axes; None and KeyboardMouse get the mouse axes; z is 0 |
| PlayerControl.PlayerInput.constructor | Assets/Scripts/PlayerInput.cs:9-11 | the input method starts as None |
| PlayerControl.PlayerInput.Start | Assets/Scripts/PlayerInput.cs:27-33 | the camera has a follow target afterwards |
| PlayerControl.PlayerInput.Update | Assets/Scripts/PlayerInput.cs:35-39 | the method is classified first, and the camera then processes the command of the new method |
| PlayerControl.PlayerInput.DetermineInputMethod | Assets/Scripts/PlayerInput.cs:41-58 | the new input method is Classify of the old one and this frame's presses; nothing else changes |
| PlayerControl.PlayerInput.HandleCameraInput | Assets/Scripts/PlayerInput.cs:60-76 | the camera processes exactly the command CameraCommandFor gives for the current method and axes |

## Left out

- Horizontal rotation, position smoothing, rotation smoothing and the final position and offset (OrbitCamera.cs:96-110, 133-146) are quaternion and vector math. They are not modelled, so PlanarDirection, the follow position and the camera transform are absent. ProcessInput calls Position and Rotation twice each (OrbitCamera.cs:83-90). That has no effect on the modelled fields.
- The sphere cast's geometry is not modelled: its origin, direction, radius (ObstructionCheckRadius), layer mask (ObstructionLayers) and trigger handling (OrbitCamera.cs:151-152). Its hits are model inputs, reduced to a distance and a collider id.
- Ignored colliders and the buffer: when the cast finds more than 32 hits, a hit on an ignored collider still takes one of the 32 buffer slots and can push a closer qualifying hit out of the buffer. IgnoredHitIrrelevant is about the scanned buffer entries only; the model does not promise that ignored colliders leave the outcome unchanged for every list of cast results.
- `Mathf.Exp` and `Time.deltaTime` are not modelled. Each smoothing factor is a parameter.
- Floating point is not modelled. The model uses unbounded reals, so `0.1f` is exactly 0.1 and there is no rounding. NaN and infinite inputs are excluded. The one exception is a zero SmoothingMargin with the angle past the bound (negative room): the model gives 0 there, which is what negative infinity clamps to. With a zero margin and room of 0 or more the ramp branch is not taken and the factor is 1.
- `print` output and cursor locking (OrbitCamera.cs:154, PlayerInput.cs:29, 66, 73) are side effects only.
- Fields that nothing in the modelled code reads are left out: FollowingSharpness, DistanceMovementSpeed, obstructionHit, obstructionTime. DistanceMovementSharpness and ObstructionSharpness appear only through the smoothing-factor parameters.
- IgnoredColliders is a sequence of collider ids. The line of `Start` that would fill it is commented out (PlayerInput.cs:32), so it keeps whatever the inspector set.
- PlayerInput's `Camera` field is a fixed, non-null reference. Reassigning it, or leaving it unassigned, is not modelled. The `Character` field and the movement axes are unused in the shown code.
- OrbitCameraRig.OrbitCamera.TransitionInputMethod: idempotence follows from its postcondition and frame. No separate lemma states it, because a lemma cannot call a method.
- CharacterController.cs, PlayerController.cs, SlideGenerator.cs and Controls.cs are not part of this model. They are float vector math against engine interfaces, or mesh construction.
