/**
 * `ioHandler` (ioHandler.cpp): the GLFW key and cursor callbacks. BACKSPACE
 * toggles whether the window holds the mouse (the cursor is shown when focus
 * is dropped and captured when it is regained), ESCAPE asks the window to
 * close, and every key event and mouse position goes on to the camera.
 *
 * The calls made into GLFW are recorded, in order, as ghost state.
 */
module IoHandling {
  import opened Base
  import Vk
  import opened VertexLayout
  import opened CameraInput

  /** The GLFW calls the handler makes on its window. */
  datatype GlfwCall =
    | SetKeyCallback
    | SetCursorPosCallback
    | SetInputMode(mode: uint32, value: uint32)
    | SetWindowUserPointer
    | SetWindowShouldClose(shouldClose: int)

  /** The cursor mode that goes with a focus state: captured while the window has focus, shown otherwise. */
  function CursorModeFor(hasFocus: bool): uint32 {
    if hasFocus then Vk.GLFW_CURSOR_DISABLED else Vk.GLFW_CURSOR_NORMAL
  }

  /** The cursor mode most recently set by a call in `calls`, if any. */
  function LastCursorMode(calls: seq<GlfwCall>): (m: Option<uint32>)
    ensures m.Some? ==> SetInputMode(Vk.GLFW_CURSOR, m.value) in calls
    ensures m.None? ==> forall k | 0 <= k < |calls| :: !(calls[k].SetInputMode? && calls[k].mode == Vk.GLFW_CURSOR)
    decreases |calls|
  {
    if calls == [] then None
    else
      var last := calls[|calls| - 1];
      if last.SetInputMode? && last.mode == Vk.GLFW_CURSOR then Some(last.value)
      else LastCursorMode(calls[..|calls| - 1])
  }

  /** The focus after a key event: only a BACKSPACE press flips it. */
  function FocusAfter(hasFocus: bool, key: uint32, action: uint32): (r: bool)
    ensures r != hasFocus <==> key == Vk.GLFW_KEY_BACKSPACE && action == Vk.GLFW_PRESS
  {
    if key == Vk.GLFW_KEY_BACKSPACE && action == Vk.GLFW_PRESS then !hasFocus else hasFocus
  }

  /**
   * The GLFW calls a key event makes: a BACKSPACE press sets the cursor mode
   * of the new focus state, ESCAPE (pressed, repeated or released) requests
   * closing, and nothing else calls GLFW.
   */
  function CallsFor(hasFocus: bool, key: uint32, action: uint32): (calls: seq<GlfwCall>)
    ensures key == Vk.GLFW_KEY_BACKSPACE && action == Vk.GLFW_PRESS ==>
              calls == [SetInputMode(Vk.GLFW_CURSOR, CursorModeFor(FocusAfter(hasFocus, key, action)))]
    ensures key == Vk.GLFW_KEY_ESCAPE ==> calls == [SetWindowShouldClose(1)]
    ensures key != Vk.GLFW_KEY_ESCAPE && (key != Vk.GLFW_KEY_BACKSPACE || action != Vk.GLFW_PRESS) ==> calls == []
  {
    if key == Vk.GLFW_KEY_BACKSPACE then
      if action == Vk.GLFW_PRESS then
        if hasFocus then [SetInputMode(Vk.GLFW_CURSOR, Vk.GLFW_CURSOR_NORMAL)]
        else [SetInputMode(Vk.GLFW_CURSOR, Vk.GLFW_CURSOR_DISABLED)]
      else []
    else if key == Vk.GLFW_KEY_ESCAPE then [SetWindowShouldClose(1)]
    else []
  }

  /** Two BACKSPACE presses give the focus back to where it was. */
  lemma BackspaceTwice(hasFocus: bool)
    ensures FocusAfter(FocusAfter(hasFocus, Vk.GLFW_KEY_BACKSPACE, Vk.GLFW_PRESS), Vk.GLFW_KEY_BACKSPACE, Vk.GLFW_PRESS) == hasFocus
  {
  }

  /**
   * Whatever key event arrives, if the last cursor mode set matched the
   * focus before it, the last cursor mode set matches the focus after it.
   */
  lemma {:induction false} CursorTracksFocus(log: seq<GlfwCall>, hasFocus: bool, key: uint32, action: uint32)
    requires LastCursorMode(log) == Some(CursorModeFor(hasFocus))
    ensures LastCursorMode(log + CallsFor(hasFocus, key, action)) == Some(CursorModeFor(FocusAfter(hasFocus, key, action)))
  {
    var calls := CallsFor(hasFocus, key, action);
    if calls == [] {
      assert log + calls == log;
    } else {
      assert (log + calls)[..|log + calls| - 1] == log;
    }
  }

  class IoHandler {
    /** `mWindowHasFocus`. */
    var windowHasFocus: bool
    /** `mCamera`. */
    const camera: Camera
    /** The GLFW calls made on the window so far. */
    ghost var glfwCalls: seq<GlfwCall>

    /** The cursor mode last set on the window is the one for the current focus state. */
    ghost predicate CursorMatchesFocus()
      reads this`glfwCalls, this`windowHasFocus
    {
      LastCursorMode(glfwCalls) == Some(CursorModeFor(windowHasFocus))
    }

    constructor (camera: Camera)
      ensures this.camera == camera && windowHasFocus && glfwCalls == []
    {
      this.camera := camera;
      windowHasFocus := true;
      glfwCalls := [];
    }

    /** `initialize`: registers both callbacks, captures the cursor and attaches the handler to the window. */
    method Initialize()
      modifies this`glfwCalls
      ensures glfwCalls == old(glfwCalls) + [SetKeyCallback, SetCursorPosCallback,
                                              SetInputMode(Vk.GLFW_CURSOR, Vk.GLFW_CURSOR_DISABLED), SetWindowUserPointer]
      ensures windowHasFocus ==> CursorMatchesFocus()
    {
      glfwCalls := glfwCalls + [SetKeyCallback, SetCursorPosCallback];
      glfwCalls := glfwCalls + [SetInputMode(Vk.GLFW_CURSOR, Vk.GLFW_CURSOR_DISABLED)];
      ghost var captured := glfwCalls;
      glfwCalls := glfwCalls + [SetWindowUserPointer];
      assert glfwCalls[..|glfwCalls| - 1] == captured;
    }

    /** `keyCallback`: the BACKSPACE and ESCAPE handling, then the event goes to the camera unchanged. */
    method KeyCallback(key: uint32, scancode: uint32, action: uint32, mode: uint32)
      requires camera.keys.Length == KeyCount
      modifies this`windowHasFocus, this`glfwCalls, camera.keys
      ensures windowHasFocus == FocusAfter(old(windowHasFocus), key, action)
      ensures glfwCalls == old(glfwCalls) + CallsFor(old(windowHasFocus), key, action)
      ensures camera.keys[..] == KeysAfter(old(camera.keys[..]), key, action)
      ensures old(CursorMatchesFocus()) ==> CursorMatchesFocus()
    {
      ghost var log, focus := glfwCalls, windowHasFocus;
      if key == Vk.GLFW_KEY_BACKSPACE {
        if action == Vk.GLFW_PRESS {
          if windowHasFocus {
            glfwCalls := glfwCalls + [SetInputMode(Vk.GLFW_CURSOR, Vk.GLFW_CURSOR_NORMAL)];
            windowHasFocus := false;
          } else {
            glfwCalls := glfwCalls + [SetInputMode(Vk.GLFW_CURSOR, Vk.GLFW_CURSOR_DISABLED)];
            windowHasFocus := true;
          }
        }
      } else if key == Vk.GLFW_KEY_ESCAPE {
        glfwCalls := glfwCalls + [SetWindowShouldClose(1)];
      }
      if LastCursorMode(log) == Some(CursorModeFor(focus)) {
        CursorTracksFocus(log, focus, key, action);
      }
      camera.KeyAction(key, action);
    }

    /**
     * `glfw_key_callback`: GLFW's `int` arguments reach `keyCallback` through
     * its `uint32_t` parameters, so a negative key code arrives as a large
     * unsigned one.
     */
    method GlfwKeyCallback(key: int, scancode: int, action: int, mode: int)
      requires camera.keys.Length == KeyCount
      modifies this`windowHasFocus, this`glfwCalls, camera.keys
      ensures windowHasFocus == FocusAfter(old(windowHasFocus), AsUint32(key), AsUint32(action))
      ensures glfwCalls == old(glfwCalls) + CallsFor(old(windowHasFocus), AsUint32(key), AsUint32(action))
      ensures camera.keys[..] == KeysAfter(old(camera.keys[..]), AsUint32(key), AsUint32(action))
    {
      KeyCallback(AsUint32(key), AsUint32(scancode), AsUint32(action), AsUint32(mode));
    }

    /** `mouseCallback`: hands the cursor position to the camera unchanged. */
    method MouseCallback(xpos: real, ypos: real)
      modifies camera`mouseOffset, camera`mouseLast, camera`cameraNotMoveNextFrame
      ensures camera.mouseLast == Vec2(xpos, ypos) && !camera.cameraNotMoveNextFrame
      ensures old(camera.cameraNotMoveNextFrame) ==> camera.mouseOffset == Vec2(0.0, 0.0)
      ensures !old(camera.cameraNotMoveNextFrame) ==>
                camera.mouseOffset == Vec2(old(camera.mouseOffset.x) + xpos - old(camera.mouseLast.x),
                                           old(camera.mouseOffset.y) + old(camera.mouseLast.y) - ypos)
    {
      camera.MouseAction(xpos, ypos);
    }
  }
}
