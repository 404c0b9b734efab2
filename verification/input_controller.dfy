/**
 * Per-frame input handling of the skeletal-model viewer.
 *
 * Two small state machines live in the controller: the bone-index selector
 * driven by the Up and Down arrow keys (edge-triggered, clamped to the number
 * of bones once that number is known) and the left-button drag that turns the
 * model. The window-system queries of the original become the fields of a
 * FrameInput value handed to Update; camera movement is not modelled.
 */
module InputControl {

  /** What the window system reports for one frame. */
  datatype FrameInput = FrameInput(up: bool, down: bool, leftButton: bool, mouseX: real, mouseY: real)

  function Max(a: int, b: int): int { if a < b then b else a }

  function Min(a: int, b: int): int { if a < b then a else b }

  // ---------------------------------------------------------------------------
  // Bone-index selector
  // ---------------------------------------------------------------------------

  /** The controller fields the bone selector reads and writes. */
  datatype Selector = Selector(index: int, maxIndex: int, prevUp: bool, prevDown: bool)

  /** The selector as a fresh controller holds it: index 0, no bound, both keys taken as released. */
  const InitialSelector := Selector(0, 0, false, false)

  /** 1 on a press transition (released last frame, pressed in this one), otherwise 0. */
  function Rising(now: bool, before: bool): nat
  {
    if now && !before then 1 else 0
  }

  /** The index after the edge-triggered steps of one frame, before any clamping. */
  function Unclamped(s: Selector, up: bool, down: bool): int
  {
    s.index + Rising(up, s.prevUp) - Rising(down, s.prevDown)
  }

  /** The index is inside the selectable range, or no range has been set. */
  predicate InRange(s: Selector)
  {
    s.maxIndex <= 0 || 0 <= s.index < s.maxIndex
  }

  /**
   * One frame of the selector: step on press transitions, clamp to
   * [0, maxIndex - 1] only when a positive bound is set, remember this frame's keys.
   */
  function SelectorStep(s: Selector, up: bool, down: bool): (r: Selector)
    ensures r.maxIndex == s.maxIndex && r.prevUp == up && r.prevDown == down
    ensures s.maxIndex > 0 ==> 0 <= r.index <= s.maxIndex - 1
    ensures s.maxIndex <= 0 ==> r.index == Unclamped(s, up, down)
    ensures 0 <= Unclamped(s, up, down) < s.maxIndex ==> r.index == Unclamped(s, up, down)
    ensures s.maxIndex > 0 && Unclamped(s, up, down) < 0 ==> r.index == 0
    ensures s.maxIndex > 0 && Unclamped(s, up, down) >= s.maxIndex ==> r.index == s.maxIndex - 1
  {
    var raw := Unclamped(s, up, down);
    var index := if s.maxIndex > 0 then Min(Max(0, raw), s.maxIndex - 1) else raw;
    Selector(index, s.maxIndex, up, down)
  }

  /** Holding a key adds nothing: without a press transition an index in range stays where it is. */
  lemma HeldKeysKeepIndex(s: Selector, up: bool, down: bool)
    requires InRange(s)
    requires !(up && !s.prevUp) && !(down && !s.prevDown)
    ensures SelectorStep(s, up, down).index == s.index
  {
  }

  /** A press of Up alone moves the index one up, unless it already sits on the last bone. */
  lemma UpPressIncrements(s: Selector, down: bool)
    requires InRange(s) && !s.prevUp
    requires !(down && !s.prevDown)
    ensures SelectorStep(s, true, down).index
            == if s.maxIndex > 0 && s.index == s.maxIndex - 1 then s.index else s.index + 1
  {
  }

  /** A press of Down alone moves the index one down, unless a bound is set and it is already 0. */
  lemma DownPressDecrements(s: Selector, up: bool)
    requires InRange(s) && !s.prevDown
    requires !(up && !s.prevUp)
    ensures SelectorStep(s, up, true).index
            == if s.maxIndex > 0 && s.index == 0 then 0 else s.index - 1
  {
  }

  /** Up and Down pressed in the same frame cancel out. */
  lemma SimultaneousPressesCancel(s: Selector)
    requires InRange(s) && !s.prevUp && !s.prevDown
    ensures SelectorStep(s, true, true).index == s.index
  {
  }

  /** From an index in range, the index grows only on an Up press and shrinks only on a Down press. */
  lemma IndexMovesOnlyOnPress(s: Selector, up: bool, down: bool)
    requires InRange(s)
    ensures SelectorStep(s, up, down).index > s.index ==> up && !s.prevUp
    ensures SelectorStep(s, up, down).index < s.index ==> down && !s.prevDown
  {
  }

  /** Both previous-key flags start false, so a key already held on the first frame counts as a press. */
  lemma HeldOnFirstFrameCounts(down: bool)
    ensures SelectorStep(InitialSelector, true, down).index == if down then 0 else 1
    ensures SelectorStep(InitialSelector, false, true).index == -1
  {
  }

  /** The selector after a sequence of frames, earliest frame first. */
  function RunSelector(s: Selector, frames: seq<FrameInput>): (r: Selector)
    ensures r.maxIndex == s.maxIndex
    ensures InRange(s) ==> InRange(r)
    ensures frames != [] ==> InRange(r)
    ensures frames != [] ==> r.prevUp == frames[|frames| - 1].up && r.prevDown == frames[|frames| - 1].down
    decreases |frames|
  {
    if frames == [] then s
    else RunSelector(SelectorStep(s, frames[0].up, frames[0].down), frames[1..])
  }

  /** Number of Up press transitions in a run, given whether Up was held before its first frame. */
  function UpPresses(prev: bool, frames: seq<FrameInput>): nat
    decreases |frames|
  {
    if frames == [] then 0
    else Rising(frames[0].up, prev) + UpPresses(frames[0].up, frames[1..])
  }

  /** Number of Down press transitions in a run, given whether Down was held before its first frame. */
  function DownPresses(prev: bool, frames: seq<FrameInput>): nat
    decreases |frames|
  {
    if frames == [] then 0
    else Rising(frames[0].down, prev) + DownPresses(frames[0].down, frames[1..])
  }

  /** Without a bound, the index counts Up presses minus Down presses; holding a key counts once. */
  lemma {:induction false} UnboundedRunCountsPresses(s: Selector, frames: seq<FrameInput>)
    requires s.maxIndex <= 0
    ensures RunSelector(s, frames).index
            == s.index + UpPresses(s.prevUp, frames) - DownPresses(s.prevDown, frames)
    decreases |frames|
  {
    if frames != [] {
      UnboundedRunCountsPresses(SelectorStep(s, frames[0].up, frames[0].down), frames[1..]);
    }
  }

  /** Keeping Up held (and Down released) over any number of frames never moves an index in range. */
  lemma {:induction false} HoldingUpAddsNothing(s: Selector, frames: seq<FrameInput>)
    requires InRange(s) && s.prevUp
    requires forall i :: 0 <= i < |frames| ==> frames[i].up && !frames[i].down
    ensures RunSelector(s, frames).index == s.index
    decreases |frames|
  {
    if frames != [] {
      var next := SelectorStep(s, frames[0].up, frames[0].down);
      HeldKeysKeepIndex(s, frames[0].up, frames[0].down);
      HoldingUpAddsNothing(next, frames[1..]);
    }
  }

  // ---------------------------------------------------------------------------
  // Drag rotation
  // ---------------------------------------------------------------------------

  /** The controller fields the drag handler reads and writes. */
  datatype Drag = Drag(dragging: bool, lastX: real, lastY: real, yaw: real, pitch: real)

  /** The drag state of a fresh controller. */
  const InitialDrag := Drag(false, 0.0, 0.0, 0.0, 0.0)

  /**
   * One frame of the drag handler: the first frame with the button down only
   * records the cursor, later ones turn the model by the cursor's movement
   * times the sensitivity, releasing the button ends the drag.
   */
  function DragStep(d: Drag, f: FrameInput, sensitivity: real): (r: Drag)
    ensures r.dragging == f.leftButton
    ensures f.leftButton ==> r.lastX == f.mouseX && r.lastY == f.mouseY
    ensures !f.leftButton ==> r.lastX == d.lastX && r.lastY == d.lastY
    ensures !(d.dragging && f.leftButton) ==> r.yaw == d.yaw && r.pitch == d.pitch
  {
    if f.leftButton then
      if !d.dragging then
        d.(dragging := true, lastX := f.mouseX, lastY := f.mouseY)
      else
        Drag(true, f.mouseX, f.mouseY,
             d.yaw + (f.mouseX - d.lastX) * sensitivity,
             d.pitch + (f.mouseY - d.lastY) * sensitivity)
    else
      d.(dragging := false)
  }

  /** The first frame of a drag sets the flag and records the cursor; yaw and pitch are untouched. */
  lemma DragStartRecordsCursor(d: Drag, f: FrameInput, sensitivity: real)
    requires f.leftButton && !d.dragging
    ensures DragStep(d, f, sensitivity) == d.(dragging := true, lastX := f.mouseX, lastY := f.mouseY)
  {
  }

  /** With the button up the drag ends and nothing else changes. */
  lemma ReleaseEndsDrag(d: Drag, f: FrameInput, sensitivity: real)
    requires !f.leftButton
    ensures DragStep(d, f, sensitivity) == d.(dragging := false)
  {
  }

  /** The drag state after a sequence of frames, earliest frame first. */
  function RunDrag(d: Drag, frames: seq<FrameInput>, sensitivity: real): Drag
    decreases |frames|
  {
    if frames == [] then d
    else RunDrag(DragStep(d, frames[0], sensitivity), frames[1..], sensitivity)
  }

  /** While a drag goes on, the model turns by the cursor's net movement since the last recorded position. */
  lemma {:induction false} OngoingDragTurnsByDisplacement(d: Drag, frames: seq<FrameInput>, sensitivity: real)
    requires d.dragging && frames != []
    requires forall i :: 0 <= i < |frames| ==> frames[i].leftButton
    ensures RunDrag(d, frames, sensitivity).yaw
            == d.yaw + (frames[|frames| - 1].mouseX - d.lastX) * sensitivity
    ensures RunDrag(d, frames, sensitivity).pitch
            == d.pitch + (frames[|frames| - 1].mouseY - d.lastY) * sensitivity
    decreases |frames|
  {
    var next := DragStep(d, frames[0], sensitivity);
    if |frames| > 1 {
      OngoingDragTurnsByDisplacement(next, frames[1..], sensitivity);
      var last := frames[|frames| - 1];
      assert frames[1..][|frames[1..]| - 1] == last;
      calc {
        RunDrag(d, frames, sensitivity).yaw;
        next.yaw + (last.mouseX - frames[0].mouseX) * sensitivity;
        d.yaw + (frames[0].mouseX - d.lastX) * sensitivity + (last.mouseX - frames[0].mouseX) * sensitivity;
        d.yaw + (last.mouseX - d.lastX) * sensitivity;
      }
      calc {
        RunDrag(d, frames, sensitivity).pitch;
        next.pitch + (last.mouseY - frames[0].mouseY) * sensitivity;
        d.pitch + (frames[0].mouseY - d.lastY) * sensitivity + (last.mouseY - frames[0].mouseY) * sensitivity;
        d.pitch + (last.mouseY - d.lastY) * sensitivity;
      }
    }
  }

  /**
   * A whole drag (button pressed on the first frame and held): the model
   * turns by the cursor's movement from the first frame to the last one.
   */
  lemma {:induction false} DragTurnsByNetDisplacement(d: Drag, frames: seq<FrameInput>, sensitivity: real)
    requires !d.dragging && frames != []
    requires forall i :: 0 <= i < |frames| ==> frames[i].leftButton
    ensures RunDrag(d, frames, sensitivity).dragging
    ensures RunDrag(d, frames, sensitivity).yaw
            == d.yaw + (frames[|frames| - 1].mouseX - frames[0].mouseX) * sensitivity
    ensures RunDrag(d, frames, sensitivity).pitch
            == d.pitch + (frames[|frames| - 1].mouseY - frames[0].mouseY) * sensitivity
  {
    var next := DragStep(d, frames[0], sensitivity);
    if |frames| > 1 {
      OngoingDragTurnsByDisplacement(next, frames[1..], sensitivity);
      assert frames[1..][|frames[1..]| - 1] == frames[|frames| - 1];
      DragFlagFollowsLastFrame(next, frames[1..], sensitivity);
    }
  }

  /** After any non-empty run, a drag is in progress exactly when the button was down on the last frame. */
  lemma {:induction false} DragFlagFollowsLastFrame(d: Drag, frames: seq<FrameInput>, sensitivity: real)
    requires frames != []
    ensures RunDrag(d, frames, sensitivity).dragging == frames[|frames| - 1].leftButton
    decreases |frames|
  {
    if |frames| > 1 {
      DragFlagFollowsLastFrame(DragStep(d, frames[0], sensitivity), frames[1..], sensitivity);
      assert frames[1..][|frames[1..]| - 1] == frames[|frames| - 1];
    }
  }

  // ---------------------------------------------------------------------------
  // The controller object
  // ---------------------------------------------------------------------------

  class InputController {
    // Previous key states, for press-transition detection.
    var prevUpPressed: bool
    var prevDownPressed: bool
    // Drag rotation.
    var isDragging: bool
    var lastMouseX: real
    var lastMouseY: real
    var modelYaw: real
    var modelPitch: real
    var mouseSensitivity: real
    // Bone selection; private in the original, written only by Update.
    var currentBoneIndex: int
    var maxBoneIndex: int

    /** The bound on the bone index is never negative. */
    ghost predicate Valid()
      reads this
    {
      maxBoneIndex >= 0
    }

    /** The selector fields as one value. */
    function Selection(): Selector
      reads this
    {
      Selector(currentBoneIndex, maxBoneIndex, prevUpPressed, prevDownPressed)
    }

    /** The drag fields as one value. */
    function Dragging(): Drag
      reads this
    {
      Drag(isDragging, lastMouseX, lastMouseY, modelYaw, modelPitch)
    }

    constructor ()
      ensures Valid()
      ensures Selection() == InitialSelector
      ensures Dragging() == InitialDrag
      ensures mouseSensitivity == 0.005
    {
      prevUpPressed, prevDownPressed := false, false;
      isDragging := false;
      lastMouseX, lastMouseY := 0.0, 0.0;
      modelYaw, modelPitch := 0.0, 0.0;
      mouseSensitivity := 0.005;
      currentBoneIndex := 0;
      maxBoneIndex := 0;
    }

    /** One frame of input handling (bone selection and drag; camera movement is not modelled). */
    method Update(input: FrameInput)
      requires Valid()
      modifies this
      ensures Valid()
      ensures Selection() == SelectorStep(old(Selection()), input.up, input.down)
      ensures maxBoneIndex > 0 ==> 0 <= currentBoneIndex < maxBoneIndex
      ensures prevUpPressed == input.up && prevDownPressed == input.down
      ensures Dragging() == DragStep(old(Dragging()), input, mouseSensitivity)
      ensures mouseSensitivity == old(mouseSensitivity)
    {
      SelectBone(input.up, input.down);
      HandleDrag(input);
    }

    /** The bone-selection section of Update. */
    method SelectBone(upPressed: bool, downPressed: bool)
      modifies this`currentBoneIndex, this`prevUpPressed, this`prevDownPressed
      ensures Selection() == SelectorStep(old(Selection()), upPressed, downPressed)
    {
      if upPressed && !prevUpPressed {
        currentBoneIndex := currentBoneIndex + 1;
      }
      if downPressed && !prevDownPressed {
        currentBoneIndex := currentBoneIndex - 1;
      }
      if maxBoneIndex > 0 {
        currentBoneIndex := Max(0, currentBoneIndex);
        currentBoneIndex := Min(currentBoneIndex, maxBoneIndex - 1);
      }
      prevUpPressed := upPressed;
      prevDownPressed := downPressed;
    }

    /** The mouse-drag section of Update. */
    method HandleDrag(input: FrameInput)
      modifies this`isDragging, this`lastMouseX, this`lastMouseY, this`modelYaw, this`modelPitch
      ensures Dragging() == DragStep(old(Dragging()), input, mouseSensitivity)
    {
      if input.leftButton {
        if !isDragging {
          isDragging := true;
          lastMouseX := input.mouseX;
          lastMouseY := input.mouseY;
        } else {
          var dx := input.mouseX - lastMouseX;
          var dy := input.mouseY - lastMouseY;
          lastMouseX := input.mouseX;
          lastMouseY := input.mouseY;
          modelYaw := modelYaw + dx * mouseSensitivity;
          modelPitch := modelPitch + dy * mouseSensitivity;
        }
      } else {
        isDragging := false;
      }
    }

    /** Stores a non-negative bound; the current index is not re-clamped until the next Update. */
    method SetMaxBoneIndex(maxIndex: int)
      modifies this`maxBoneIndex
      ensures Valid()
      ensures maxBoneIndex == Max(0, maxIndex)
      ensures maxIndex >= 0 ==> maxBoneIndex == maxIndex
      ensures currentBoneIndex == old(currentBoneIndex)
    {
      maxBoneIndex := Max(0, maxIndex);
    }

    /** Reads the selected bone index without changing any state. */
    method GetCurrentBoneIndex() returns (index: int)
      ensures index == currentBoneIndex
    {
      index := currentBoneIndex;
    }
  }
}
