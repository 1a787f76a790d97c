/** The scalar state of the orbit camera rig (Assets/Scripts/OrbitCamera.cs):
    the clamped vertical angle with gamepad edge easing, the choice of the
    closest sphere-cast obstruction and the easing of the camera distance,
    the input-method sharpness switch, and the editor-time clamps. Vector
    and quaternion state (planar direction, follow position, orientation)
    is not modelled. */
module OrbitCameraRig {
  import opened Mathf
  import opened InputMethods

  /** Capacity of the obstruction buffer handed to the sphere cast. */
  const MaxObstructions: nat := 32

  datatype Vector3 = Vector3(x: real, y: real, z: real)

  /** The part of a sphere-cast hit the camera reads: how far along the cast
      it happened and which collider it touched. */
  datatype RaycastHit = RaycastHit(distance: real, colliderId: int)

  /** The closest hit found so far; AtInfinity is the sentinel hit whose
      distance is positive infinity, which every finite hit is closer than. */
  datatype ClosestHit = AtInfinity | Nearest(hit: RaycastHit)

  /** What the engine supplies to one ProcessInput call: the hits the sphere
      cast finds, and the two smoothing factors 1 - exp(-sharpness * dt) for
      ObstructionSharpness and DistanceMovementSharpness. */
  datatype EngineFrame = EngineFrame(castHits: seq<RaycastHit>, obstructionBlend: real, distanceBlend: real)

  function MinNat(a: nat, b: nat): nat { if a <= b then a else b }

  /** x lies on the segment between a and b, whichever is larger. */
  predicate Between(x: real, a: real, b: real)
  {
    (a <= b ==> a <= x <= b) && (b <= a ==> b <= x <= a)
  }

  // ---------------------------------------------------------------------
  // Input inversion and the vertical angle

  /** InvertX and InvertY each negate their own component and nothing else. */
  function ApplyInversion(input: Vector3, invertX: bool, invertY: bool): (r: Vector3)
    ensures r.x == (if invertX then -input.x else input.x)
    ensures r.y == (if invertY then -input.y else input.y)
    ensures r.z == input.z
  {
    var withX := if invertX then input.(x := -input.x) else input;
    if invertY then withX.(y := -withX.y) else withX
  }

  /** Gamepad edge easing for one direction: delta is the room left before the
      bound in that direction. Off the gamepad, or with at least a margin of
      room, the factor is 1; inside the margin it ramps linearly, delta /
      margin + 0.1, from 0.1 at the bound, and is clamped into [0, 1]. A zero
      margin leaves a negative delta divided by zero, which is negative
      infinity in floating point and clamps to 0. */
  function EdgeModifier(gamePad: bool, delta: real, margin: real): (r: real)
    ensures 0.0 <= r <= 1.0
    ensures !gamePad || margin <= delta ==> r == 1.0
    ensures gamePad && 0.0 < margin && -0.1 * margin <= delta <= 0.9 * margin ==> r == delta / margin + 0.1
    ensures gamePad && 0.0 < margin && delta <= -0.1 * margin ==> r == 0.0
    ensures gamePad && 0.0 < margin && 0.9 * margin <= delta ==> r == 1.0
    ensures gamePad && margin < 0.0 ==> r == 1.0
    ensures gamePad && margin == 0.0 && delta < 0.0 ==> r == 0.0
  {
    if !gamePad then 1.0
    else if delta < margin then
      if margin == 0.0 then 0.0
      else
        RampBounds(delta, margin);
        Clamp01(delta / margin + 0.1)
    else Clamp01(1.0)
  }

  lemma RampBounds(delta: real, margin: real)
    requires margin != 0.0
    ensures 0.0 < margin && -0.1 * margin <= delta <= 0.9 * margin ==> -0.1 <= delta / margin <= 0.9
    ensures 0.0 < margin && delta <= -0.1 * margin ==> delta / margin <= -0.1
    ensures 0.0 < margin && 0.9 * margin <= delta ==> 0.9 <= delta / margin
    ensures margin < 0.0 && delta < margin ==> 1.0 < delta / margin
  {
    var q := delta / margin;
    assert delta == q * margin;
    if 0.0 < margin {
      if q < -0.1 { assert q * margin < -0.1 * margin; }
      if q > 0.9 { assert q * margin > 0.9 * margin; }
      if q < 0.9 { assert q * margin < 0.9 * margin; }
    } else if q <= 1.0 {
      assert q * margin >= 1.0 * margin;
    }
  }

  /** The easing factor Vertical applies: the up factor (room below
      MaxVerticalAngle) when the input is negative, which raises the angle,
      and the down factor (room above MinVerticalAngle) otherwise. */
  function VerticalModifier(angle: real, inputY: real, gamePad: bool, lo: real, hi: real, margin: real): (m: real)
    ensures 0.0 <= m <= 1.0
    ensures !gamePad ==> m == 1.0
    ensures inputY < 0.0 ==> m == EdgeModifier(gamePad, hi - angle, margin)
    ensures 0.0 <= inputY ==> m == EdgeModifier(gamePad, angle - lo, margin)
  {
    var up := EdgeModifier(gamePad, hi - angle, margin);
    var down := EdgeModifier(gamePad, angle - lo, margin);
    if inputY < 0.0 then up else down
  }

  /** The target vertical angle after one Vertical call. */
  function NextVerticalAngle(angle: real, inputY: real, gamePad: bool, speed: real, lo: real, hi: real, margin: real): (r: real)
    ensures lo <= hi ==> lo <= r <= hi
    ensures inputY == 0.0 ==> r == Clamp(angle, lo, hi)
    ensures !gamePad ==> r == Clamp(angle - inputY * speed, lo, hi)
    ensures lo <= angle <= hi && 0.0 <= speed && inputY < 0.0 ==> angle <= r
    ensures lo <= angle <= hi && 0.0 <= speed && 0.0 < inputY ==> r <= angle
  {
    Clamp(angle - RotationStep(inputY, speed, VerticalModifier(angle, inputY, gamePad, lo, hi, margin)), lo, hi)
  }

  /** How far one input moves the angle before clamping: input times speed
      times the easing factor; a non-negative speed makes the angle move
      against the sign of the input. */
  function RotationStep(inputY: real, speed: real, modifier: real): (s: real)
    requires 0.0 <= modifier
    ensures modifier == 1.0 ==> s == inputY * speed
    ensures inputY == 0.0 ==> s == 0.0
    ensures 0.0 <= speed && inputY < 0.0 ==> s <= 0.0
    ensures 0.0 <= speed && 0.0 < inputY ==> 0.0 <= s
  {
    ProductSign(inputY * speed, modifier);
    if 0.0 <= speed then
      ProductSign(inputY, speed);
      inputY * speed * modifier
    else inputY * speed * modifier
  }

  lemma StepMatches(angle: real, inputY: real, speed: real, modifier: real, lo: real, hi: real)
    requires 0.0 <= modifier
    ensures Clamp(angle - inputY * speed * modifier, lo, hi) == Clamp(angle - RotationStep(inputY, speed, modifier), lo, hi)
  {
  }

  /** At five degrees below MaxVerticalAngle with a margin of 25, an upward
      gamepad push of 1 moves the angle by 0.3 of RotationSpeed. */
  lemma EdgeEasingNearMaximum()
    ensures EdgeModifier(true, 5.0, 25.0) == 0.3
    ensures NextVerticalAngle(65.0, -1.0, true, 1.0, -45.0, 70.0, 25.0) == 65.3
  {
  }

  /** Easing only ever grows with the room left before the bound. */
  lemma {:induction false} EdgeModifierMonotone(gamePad: bool, d1: real, d2: real, margin: real)
    requires d1 <= d2
    ensures EdgeModifier(gamePad, d1, margin) <= EdgeModifier(gamePad, d2, margin)
  {
    if gamePad && d2 < margin && margin != 0.0 {
      DivMonotone(d1, d2, margin);
      if 0.0 < margin {
        Clamp01Monotone(d1 / margin + 0.1, d2 / margin + 0.1);
      } else {
        DivMonotone(d2, d2, margin);
      }
    }
  }

  lemma DivMonotone(d1: real, d2: real, margin: real)
    requires d1 <= d2 && margin != 0.0
    requires d2 < margin
    ensures margin < 0.0 ==> 1.0 < d1 / margin
    ensures 0.0 < margin ==> d1 / margin <= d2 / margin
  {
    var q1, q2 := d1 / margin, d2 / margin;
    assert d1 == q1 * margin && d2 == q2 * margin;
    if 0.0 < margin && q2 < q1 {
      assert q2 * margin < q1 * margin;
    }
  }

  // ---------------------------------------------------------------------
  // Obstructions

  /** A hit can shorten the distance when its collider is not ignored and it
      is not the zero-distance hit of a cast that starts inside geometry. */
  predicate Qualifies(h: RaycastHit, ignored: seq<int>)
  {
    h.colliderId !in ignored && h.distance > 0.0
  }

  /** One pass of the selection: a qualifying hit strictly closer than the
      current choice replaces it. */
  function Consider(closest: ClosestHit, h: RaycastHit, ignored: seq<int>): (c: ClosestHit)
    ensures c == closest || (c == Nearest(h) && Qualifies(h, ignored))
    ensures !Qualifies(h, ignored) ==> c == closest
    ensures closest.Nearest? ==> c.Nearest? && c.hit.distance <= closest.hit.distance
    ensures closest.AtInfinity? && Qualifies(h, ignored) ==> c == Nearest(h)
  {
    if Qualifies(h, ignored) && (closest.AtInfinity? || h.distance < closest.hit.distance) then Nearest(h)
    else closest
  }

  /** hits[k] is the earliest qualifying hit of least distance. */
  ghost predicate FirstClosestAt(hits: seq<RaycastHit>, ignored: seq<int>, k: int)
  {
    0 <= k < |hits| && Qualifies(hits[k], ignored)
    && (forall j :: 0 <= j < |hits| && Qualifies(hits[j], ignored) ==> hits[k].distance <= hits[j].distance)
    && (forall j :: 0 <= j < k && Qualifies(hits[j], ignored) ==> hits[k].distance < hits[j].distance)
  }

  /** The hit the obstruction loop keeps after scanning hits from the front. */
  function Closest(hits: seq<RaycastHit>, ignored: seq<int>): (c: ClosestHit)
    ensures c.Nearest? ==> Qualifies(c.hit, ignored)
  {
    if |hits| == 0 then AtInfinity
    else Consider(Closest(hits[..|hits| - 1], ignored), hits[|hits| - 1], ignored)
  }

  /** The sentinel survives the loop exactly when no hit qualifies. */
  lemma {:induction false} ClosestSentinelIff(hits: seq<RaycastHit>, ignored: seq<int>)
    ensures Closest(hits, ignored).AtInfinity? <==> forall i :: 0 <= i < |hits| ==> !Qualifies(hits[i], ignored)
  {
    if |hits| > 0 {
      var init := hits[..|hits| - 1];
      ClosestSentinelIff(init, ignored);
      assert forall i :: 0 <= i < |init| ==> init[i] == hits[i];
    }
  }

  /** A chosen hit is one of the hits, qualifies, and is at least as close as
      every qualifying hit. */
  lemma {:induction false} ClosestIsMinimal(hits: seq<RaycastHit>, ignored: seq<int>)
    ensures Closest(hits, ignored).Nearest? ==>
      var h := Closest(hits, ignored).hit;
      h in hits && Qualifies(h, ignored)
      && forall i :: 0 <= i < |hits| && Qualifies(hits[i], ignored) ==> h.distance <= hits[i].distance
  {
    if |hits| > 0 {
      var init := hits[..|hits| - 1];
      ClosestIsMinimal(init, ignored);
      ClosestSentinelIff(init, ignored);
      assert forall i :: 0 <= i < |init| ==> init[i] == hits[i];
      assert hits == init + [hits[|hits| - 1]];
    }
  }

  /** Ties go to the earlier hit: the choice sits at an index where it is the
      first qualifying hit of least distance. */
  lemma {:induction false} ClosestIsFirstMinimum(hits: seq<RaycastHit>, ignored: seq<int>)
    ensures Closest(hits, ignored).Nearest? ==> exists k :: FirstClosestAt(hits, ignored, k) && hits[k] == Closest(hits, ignored).hit
  {
    if |hits| > 0 {
      var init := hits[..|hits| - 1];
      var last := hits[|hits| - 1];
      ClosestIsFirstMinimum(init, ignored);
      ClosestSentinelIff(init, ignored);
      var prev := Closest(init, ignored);
      var r := Closest(hits, ignored);
      assert r == Consider(prev, last, ignored);
      assert forall i :: 0 <= i < |init| ==> init[i] == hits[i];
      if r.Nearest? && r != prev {
        assert FirstClosestAt(hits, ignored, |hits| - 1);
      } else if r.Nearest? {
        var k :| FirstClosestAt(init, ignored, k) && init[k] == prev.hit;
        assert FirstClosestAt(hits, ignored, k);
      }
    }
  }

  /** A hit on an ignored collider, wherever it sits among the scanned
      entries, never changes the choice made from them. */
  lemma {:induction false} IgnoredHitIrrelevant(before: seq<RaycastHit>, h: RaycastHit, after: seq<RaycastHit>, ignored: seq<int>)
    requires h.colliderId in ignored
    ensures Closest(before + [h] + after, ignored) == Closest(before + after, ignored)
  {
    if after == [] {
      assert before + [h] + after == before + [h];
      assert (before + [h])[..|before|] == before;
      assert before + after == before;
    } else {
      var init := after[..|after| - 1];
      var last := after[|after| - 1];
      IgnoredHitIrrelevant(before, h, init, ignored);
      var withH := before + [h] + after;
      var without := before + after;
      assert withH[..|withH| - 1] == before + [h] + init;
      assert without[..|without| - 1] == before + init;
    }
  }

  /** The distance the camera eases to: toward the chosen hit at the
      obstruction rate, or back toward TargetDistance at the distance rate. */
  function EasedDistance(current: real, closest: ClosestHit, targetDistance: real, frame: EngineFrame): (r: real)
    ensures closest.Nearest? ==> Between(r, current, closest.hit.distance)
    ensures closest.AtInfinity? ==> Between(r, current, targetDistance)
    ensures closest.Nearest? && 1.0 <= frame.obstructionBlend ==> r == closest.hit.distance
    ensures closest.AtInfinity? && 1.0 <= frame.distanceBlend ==> r == targetDistance
  {
    match closest
    case Nearest(h) => Lerp(current, h.distance, frame.obstructionBlend)
    case AtInfinity => Lerp(current, targetDistance, frame.distanceBlend)
  }

  /** When the cast reports no hit beyond the queried TargetDistance, the
      eased distance does not grow beyond TargetDistance either. */
  lemma EasedDistanceWithinCast(current: real, hits: seq<RaycastHit>, ignored: seq<int>, targetDistance: real, frame: EngineFrame)
    requires current <= targetDistance
    requires forall i :: 0 <= i < |hits| ==> hits[i].distance <= targetDistance
    ensures EasedDistance(current, Closest(hits, ignored), targetDistance, frame) <= targetDistance
  {
    ClosestIsMinimal(hits, ignored);
  }

  // ---------------------------------------------------------------------
  // The camera rig

  class OrbitCamera {
    // Distance tuning
    var DefaultDistance: real
    var MinDistance: real
    var MaxDistance: real

    // Rotation tuning
    var InvertX: bool
    var InvertY: bool
    var DefaultVerticalAngle: real
    var MinVerticalAngle: real
    var MaxVerticalAngle: real
    var RotationSpeed: real
    var RotationSharpness: real
    var GamepadRotationSharpness: real
    var MouseRotationSharpness: real
    var SmoothingMargin: real

    // Obstruction tuning: the ids of the colliders the cast must not stop at
    var IgnoredColliders: seq<int>

    /** Whether a follow target has been assigned (FollowTransform is not null). */
    var HasFollowTransform: bool
    var TargetDistance: real

    var distanceIsObstructed: bool
    var currentDistance: real
    var targetVerticalAngle: real
    var obstructionCount: nat
    const obstructions: array<RaycastHit>

    /** The serialized defaults of the component's fields. */
    constructor ()
      ensures fresh(obstructions) && obstructions.Length == MaxObstructions
      ensures DefaultDistance == 6.0 && MinDistance == 5.0 && MaxDistance == 10.0
      ensures !InvertX && !InvertY
      ensures DefaultVerticalAngle == 20.0 && MinVerticalAngle == -45.0 && MaxVerticalAngle == 70.0
      ensures RotationSpeed == 1.0 && RotationSharpness == 10000.0
      ensures GamepadRotationSharpness == 5.0 && MouseRotationSharpness == 10000.0
      ensures SmoothingMargin == 25.0 && IgnoredColliders == []
      ensures !HasFollowTransform && TargetDistance == 0.0
      ensures !distanceIsObstructed && currentDistance == 0.0 && targetVerticalAngle == 0.0
      ensures obstructionCount == 0
    {
      DefaultDistance, MinDistance, MaxDistance := 6.0, 5.0, 10.0;
      InvertX, InvertY := false, false;
      DefaultVerticalAngle, MinVerticalAngle, MaxVerticalAngle := 20.0, -45.0, 70.0;
      RotationSpeed, RotationSharpness := 1.0, 10000.0;
      GamepadRotationSharpness, MouseRotationSharpness := 5.0, 10000.0;
      SmoothingMargin := 25.0;
      IgnoredColliders := [];
      HasFollowTransform := false;
      TargetDistance := 0.0;
      distanceIsObstructed := false;
      currentDistance := 0.0;
      targetVerticalAngle := 0.0;
      obstructionCount := 0;
      obstructions := new RaycastHit[MaxObstructions];
    }

    /** Editor-time validation: the default distance and default vertical
        angle are clamped into their configured ranges. */
    method OnValidate()
      modifies this`DefaultDistance, this`DefaultVerticalAngle
      ensures DefaultDistance == Clamp(old(DefaultDistance), MinDistance, MaxDistance)
      ensures DefaultVerticalAngle == Clamp(old(DefaultVerticalAngle), MinVerticalAngle, MaxVerticalAngle)
      ensures MinDistance <= MaxDistance ==> MinDistance <= DefaultDistance <= MaxDistance
      ensures MinVerticalAngle <= MaxVerticalAngle ==> MinVerticalAngle <= DefaultVerticalAngle <= MaxVerticalAngle
    {
      DefaultDistance := Clamp(DefaultDistance, MinDistance, MaxDistance);
      DefaultVerticalAngle := Clamp(DefaultVerticalAngle, MinVerticalAngle, MaxVerticalAngle);
    }

    /** Start-up: both distances start at the default distance and the
        vertical angle at 0, whatever DefaultVerticalAngle says. */
    method Awake()
      modifies this`currentDistance, this`TargetDistance, this`targetVerticalAngle
      ensures currentDistance == TargetDistance == DefaultDistance
      ensures targetVerticalAngle == 0.0
    {
      TargetDistance := DefaultDistance;
      currentDistance := TargetDistance;
      targetVerticalAngle := 0.0;
    }

    /** Assigns the follow target, which enables ProcessInput. */
    method SetFollowTransform()
      modifies this`HasFollowTransform
      ensures HasFollowTransform
    {
      HasFollowTransform := true;
    }

    /** One frame of camera input, as this model sees it: the vertical angle
        and the distance change, nothing else does, and without a follow
        target nothing changes at all. */
    twostate predicate ProcessedInput(rotationInput: Vector3, gamePad: bool, frame: EngineFrame)
      reads this, obstructions
    {
      if !old(HasFollowTransform) then
        targetVerticalAngle == old(targetVerticalAngle)
        && currentDistance == old(currentDistance)
        && distanceIsObstructed == old(distanceIsObstructed)
        && obstructionCount == old(obstructionCount)
        && obstructions[..] == old(obstructions[..])
      else
        var input := ApplyInversion(rotationInput, InvertX, InvertY);
        targetVerticalAngle == NextVerticalAngle(old(targetVerticalAngle), input.y, gamePad, RotationSpeed, MinVerticalAngle, MaxVerticalAngle, SmoothingMargin)
        && ObstructionsHandled(frame)
    }

    /** The effect of HandleObstructions: the buffer holds the first hits of
        the cast, the distance eases toward the closest qualifying one among
        them, or toward TargetDistance, and the obstructed flag is set. */
    twostate predicate ObstructionsHandled(frame: EngineFrame)
      reads this, obstructions
    {
      var n := MinNat(|frame.castHits|, obstructions.Length);
      obstructionCount == n
      && obstructions[..n] == frame.castHits[..n]
      && obstructions[n..] == old(obstructions[n..])
      && distanceIsObstructed
      && currentDistance == EasedDistance(old(currentDistance), Closest(frame.castHits[..n], IgnoredColliders), TargetDistance, frame)
    }

    method ProcessInput(rotationInput: Vector3, gamePad: bool, frame: EngineFrame)
      modifies this`targetVerticalAngle, this`currentDistance, this`distanceIsObstructed, this`obstructionCount, obstructions
      ensures ProcessedInput(rotationInput, gamePad, frame)
    {
      if !HasFollowTransform { return; }
      var input := rotationInput;
      if InvertX { input := input.(x := -input.x); }
      if InvertY { input := input.(y := -input.y); }

      Vertical(input, gamePad);
      HandleObstructions(frame);
    }

    method Vertical(rotationInput: Vector3, gamePad: bool)
      modifies this`targetVerticalAngle
      ensures targetVerticalAngle == NextVerticalAngle(old(targetVerticalAngle), rotationInput.y, gamePad, RotationSpeed, MinVerticalAngle, MaxVerticalAngle, SmoothingMargin)
      ensures MinVerticalAngle <= MaxVerticalAngle ==> MinVerticalAngle <= targetVerticalAngle <= MaxVerticalAngle
    {
      var angle, lo, hi, margin, speed := targetVerticalAngle, MinVerticalAngle, MaxVerticalAngle, SmoothingMargin, RotationSpeed;
      var y := rotationInput.y;
      var rotationModifierUp := 1.0;
      var rotationModifierDown := 1.0;
      if gamePad {
        var deltaMax := hi - angle;
        if deltaMax < margin {
          rotationModifierUp := if margin == 0.0 then 0.0 else deltaMax / margin + 0.1;
        }
        rotationModifierUp := Clamp01(rotationModifierUp);

        var deltaMin := angle - lo;
        if deltaMin < margin {
          rotationModifierDown := if margin == 0.0 then 0.0 else deltaMin / margin + 0.1;
        }
        rotationModifierDown := Clamp01(rotationModifierDown);
      }

      var rotationModifier := if y < 0.0 then rotationModifierUp else rotationModifierDown;
      assert rotationModifier == VerticalModifier(angle, y, gamePad, lo, hi, margin);
      StepMatches(angle, y, speed, rotationModifier, lo, hi);
      angle := angle - y * speed * rotationModifier;
      targetVerticalAngle := Clamp(angle, lo, hi);
    }

    /** The engine's non-allocating sphere cast: it writes as many of the
        hits it finds as fit into the buffer and returns that number. */
    method SphereCastNonAlloc(found: seq<RaycastHit>) returns (count: nat)
      modifies obstructions
      ensures count == MinNat(|found|, obstructions.Length)
      ensures obstructions[..count] == found[..count]
      ensures obstructions[count..] == old(obstructions[count..])
    {
      count := MinNat(|found|, obstructions.Length);
      forall i | 0 <= i < count {
        obstructions[i] := found[i];
      }
    }

    method HandleObstructions(frame: EngineFrame)
      modifies this`currentDistance, this`distanceIsObstructed, this`obstructionCount, obstructions
      ensures ObstructionsHandled(frame)
    {
      var closestHit := AtInfinity;
      var count := SphereCastNonAlloc(frame.castHits);
      obstructionCount := count;

      var i := 0;
      while i < obstructionCount
        invariant 0 <= i <= obstructionCount
        invariant closestHit == Closest(obstructions[..i], IgnoredColliders)
      {
        var ignore := obstructions[i].colliderId in IgnoredColliders;
        if !ignore && (closestHit.AtInfinity? || obstructions[i].distance < closestHit.hit.distance) && obstructions[i].distance > 0.0 {
          closestHit := Nearest(obstructions[i]);
        }
        assert obstructions[..i + 1][..i] == obstructions[..i];
        i := i + 1;
      }
      assert obstructions[..obstructionCount] == frame.castHits[..obstructionCount];

      if closestHit.Nearest? {
        distanceIsObstructed := true;
        currentDistance := Lerp(currentDistance, closestHit.hit.distance, frame.obstructionBlend);
      } else {
        distanceIsObstructed := true;
        currentDistance := Lerp(currentDistance, TargetDistance, frame.distanceBlend);
      }
    }

    /** Switching input device selects the matching rotation sharpness. */
    method TransitionInputMethod(inputMethod: InputMethod)
      modifies this`RotationSharpness
      ensures RotationSharpness == if inputMethod == GamePad then GamepadRotationSharpness else MouseRotationSharpness
    {
      if inputMethod == GamePad {
        RotationSharpness := GamepadRotationSharpness;
      } else {
        RotationSharpness := MouseRotationSharpness;
      }
    }
  }
}
