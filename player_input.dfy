/** Player input (Assets/Scripts/PlayerInput.cs): each frame the active input
    device is classified from this frame's button and key presses, and the
    camera is then driven with the matching pair of axes. The engine's
    Input polls are the fields of a Frame. */
module PlayerControl {
  import opened InputMethods
  import opened OrbitCameraRig

  /** The presses this frame (Input.GetMouseButtonDown, GetKeyDown, GetButtonDown). */
  datatype ButtonEdges = ButtonEdges(leftMouseDown: bool, rightMouseDown: bool, escapeDown: bool, gamepadAnyButtonDown: bool)

  /** The raw camera axes this frame (Input.GetAxisRaw). */
  datatype CameraAxes = CameraAxes(mouseX: real, mouseY: real, gamepadX: real, gamepadY: real)

  datatype Frame = Frame(edges: ButtonEdges, axes: CameraAxes)

  /** The arguments of one OrbitCamera.ProcessInput call. */
  datatype CameraCommand = CameraCommand(rotationInput: Vector3, gamePad: bool)

  predicate MouseOrEscape(e: ButtonEdges)
  {
    e.leftMouseDown || e.rightMouseDown || e.escapeDown
  }

  predicate HasEdge(e: ButtonEdges)
  {
    MouseOrEscape(e) || e.gamepadAnyButtonDown
  }

  /** The device a frame with a press points to: keyboard and mouse first. */
  function DeviceOf(e: ButtonEdges): InputMethod
    requires HasEdge(e)
  {
    if MouseOrEscape(e) then KeyboardMouse else GamePad
  }

  /** The input method after one DetermineInputMethod call. */
  function Classify(current: InputMethod, e: ButtonEdges): (m: InputMethod)
    ensures MouseOrEscape(e) ==> m == KeyboardMouse
    ensures !MouseOrEscape(e) && e.gamepadAnyButtonDown ==> m == GamePad
    ensures !HasEdge(e) ==> m == current
    ensures m == None ==> current == None
  {
    if e.leftMouseDown || e.rightMouseDown then KeyboardMouse
    else if e.escapeDown then KeyboardMouse
    else if e.gamepadAnyButtonDown then GamePad
    else current
  }

  /** The input method after a run of frames, oldest first. */
  function Run(start: InputMethod, edges: seq<ButtonEdges>): (m: InputMethod)
    ensures m == None ==> start == None
    decreases |edges|
  {
    if |edges| == 0 then start else Run(Classify(start, edges[0]), edges[1..])
  }

  /** The latest frame with a press decides the input method; with no press
      at all the method is the one the run started with. */
  lemma {:induction false} LatestPressWins(start: InputMethod, edges: seq<ButtonEdges>)
    ensures (forall i :: 0 <= i < |edges| ==> !HasEdge(edges[i])) ==> Run(start, edges) == start
    ensures forall k :: 0 <= k < |edges| && HasEdge(edges[k]) && (forall j :: k < j < |edges| ==> !HasEdge(edges[j])) ==>
              Run(start, edges) == DeviceOf(edges[k])
    decreases |edges|
  {
    if |edges| > 0 {
      var next := Classify(start, edges[0]);
      LatestPressWins(next, edges[1..]);
      assert forall i :: 0 < i < |edges| ==> edges[1..][i - 1] == edges[i];
    }
  }

  /** None is only the initial state: once a device has been seen the
      method never returns to None, and it stays None exactly as long as
      there has been no press. */
  lemma {:induction false} NoneNeverReentered(start: InputMethod, edges: seq<ButtonEdges>)
    ensures start != None ==> Run(start, edges) != None
    ensures start == None ==> (Run(start, edges) == None <==> forall i :: 0 <= i < |edges| ==> !HasEdge(edges[i]))
    decreases |edges|
  {
    if |edges| > 0 {
      NoneNeverReentered(Classify(start, edges[0]), edges[1..]);
      assert forall i :: 0 < i < |edges| ==> edges[1..][i - 1] == edges[i];
    }
  }

  /** HandleCameraInput's dispatch: the gamepad axes and gamePad = true for
      GamePad, the mouse axes and false for both None and KeyboardMouse. */
  function CameraCommandFor(m: InputMethod, axes: CameraAxes): (c: CameraCommand)
    ensures c.gamePad <==> m == GamePad
    ensures c.rotationInput.z == 0.0
    ensures c.gamePad ==> c.rotationInput.x == axes.gamepadX && c.rotationInput.y == axes.gamepadY
    ensures !c.gamePad ==> c.rotationInput.x == axes.mouseX && c.rotationInput.y == axes.mouseY
  {
    if m == GamePad then CameraCommand(Vector3(axes.gamepadX, axes.gamepadY, 0.0), true)
    else CameraCommand(Vector3(axes.mouseX, axes.mouseY, 0.0), false)
  }

  class PlayerInput {
    const Camera: OrbitCamera
    var InputMethod: InputMethod

    constructor (camera: OrbitCamera)
      ensures Camera == camera && InputMethod == None
    {
      Camera := camera;
      InputMethod := None;
    }

    /** Start: hands the player's transform to the camera as its follow target. */
    method Start()
      modifies Camera`HasFollowTransform
      ensures Camera.HasFollowTransform
    {
      Camera.SetFollowTransform();
    }

    /** One frame: the device is classified first, so the camera is driven
        by this frame's classification. */
    method Update(frame: Frame, engine: EngineFrame)
      modifies this`InputMethod
      modifies Camera`targetVerticalAngle, Camera`currentDistance, Camera`distanceIsObstructed, Camera`obstructionCount, Camera.obstructions
      ensures InputMethod == Classify(old(InputMethod), frame.edges)
      ensures var c := CameraCommandFor(InputMethod, frame.axes);
              Camera.ProcessedInput(c.rotationInput, c.gamePad, engine)
    {
      DetermineInputMethod(frame.edges);
      HandleCameraInput(frame.axes, engine);
    }

    method DetermineInputMethod(edges: ButtonEdges)
      modifies this`InputMethod
      ensures InputMethod == Classify(old(InputMethod), edges)
    {
      if edges.leftMouseDown || edges.rightMouseDown {
        InputMethod := KeyboardMouse;
      } else if edges.escapeDown {
        InputMethod := KeyboardMouse;
      } else if edges.gamepadAnyButtonDown {
        InputMethod := GamePad;
      }
    }

    method HandleCameraInput(axes: CameraAxes, engine: EngineFrame)
      modifies Camera`targetVerticalAngle, Camera`currentDistance, Camera`distanceIsObstructed, Camera`obstructionCount, Camera.obstructions
      ensures var c := CameraCommandFor(InputMethod, axes);
              Camera.ProcessedInput(c.rotationInput, c.gamePad, engine)
    {
      if InputMethod == GamePad {
        var x := axes.gamepadX;
        var y := axes.gamepadY;
        Camera.ProcessInput(Vector3(x, y, 0.0), true, engine);
      } else {
        var x := axes.mouseX;
        var y := axes.mouseY;
        Camera.ProcessInput(Vector3(x, y, 0.0), false, engine);
      }
    }
  }
}
