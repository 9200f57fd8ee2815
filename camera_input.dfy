/**
 * The input state of `camera` (camera.cpp): the pressed-key table, the mouse
 * offset accumulated between frames, the one-shot flag that discards the
 * first mouse movement, and the pitch/yaw update of `move`.
 *
 * Floats are modelled as reals, so rounding is not captured. The position
 * integration and the trigonometry of the view direction are not modelled.
 */
module CameraInput {
  import opened Base
  import Vk
  import opened VertexLayout

  /** The length of the `keys` array. */
  const KeyCount: nat := 1024

  /** The pitch limit of `move`, in degrees. */
  const MaxPitch: real := 89.0

  /** The table `keyAction` leaves behind: only an in-range key on a press or a release changes, to pressed or released. */
  function KeysAfter(keys: seq<bool>, key: uint32, action: uint32): (r: seq<bool>)
    ensures |r| == |keys|
    ensures (key as int) < |keys| && action == Vk.GLFW_PRESS ==> r[key] == true
    ensures (key as int) < |keys| && action == Vk.GLFW_RELEASE ==> r[key] == false
    ensures (key as int) >= |keys| || (action != Vk.GLFW_PRESS && action != Vk.GLFW_RELEASE) ==> r == keys
    ensures forall k | 0 <= k < |keys| && k != key as int :: r[k] == keys[k]
  {
    if (key as int) < |keys| then
      if action == Vk.GLFW_PRESS then keys[key := true]
      else if action == Vk.GLFW_RELEASE then keys[key := false]
      else keys
    else keys
  }

  /** Pressing then releasing a key leaves the table as it was before the press if the key was up. */
  lemma PressRelease(keys: seq<bool>, key: uint32)
    requires (key as int) < |keys| && !keys[key]
    ensures KeysAfter(KeysAfter(keys, key, Vk.GLFW_PRESS), key, Vk.GLFW_RELEASE) == keys
  {
    var r := KeysAfter(KeysAfter(keys, key, Vk.GLFW_PRESS), key, Vk.GLFW_RELEASE);
    assert forall k | 0 <= k < |keys| :: r[k] == keys[k];
  }

  /** A repeated event changes nothing more: `keyAction` is idempotent. */
  lemma KeysAfterIdempotent(keys: seq<bool>, key: uint32, action: uint32)
    ensures KeysAfter(KeysAfter(keys, key, action), key, action) == KeysAfter(keys, key, action)
  {
  }

  /** GLFW_KEY_UNKNOWN (-1), passed through the `uint32_t` parameter, is out of range and changes nothing. */
  lemma UnknownKeyIgnored(keys: seq<bool>, action: uint32)
    requires |keys| == KeyCount
    ensures KeysAfter(keys, AsUint32(-1), action) == keys
  {
  }

  /** `glm::mod(x, 360)`: `x - 360 * floor(x / 360)`. */
  function WrapDegrees(x: real): (r: real)
    ensures 0.0 <= r < 360.0
    ensures ((x - r) / 360.0).Floor as real == (x - r) / 360.0
  {
    x - 360.0 * (x / 360.0).Floor as real
  }

  /** Angles already in [0, 360) are left alone, so wrapping twice is wrapping once. */
  lemma {:induction false} WrapDegreesFixes(x: real)
    requires 0.0 <= x < 360.0
    ensures WrapDegrees(x) == x
  {
    assert 0.0 <= x / 360.0 < 1.0;
    assert (x / 360.0).Floor == 0;
  }

  /** The pitch clamp of `move`. */
  function ClampPitch(p: real): (r: real)
    ensures -MaxPitch <= r <= MaxPitch
    ensures -MaxPitch <= p <= MaxPitch ==> r == p
    ensures p > MaxPitch ==> r == MaxPitch
    ensures p < -MaxPitch ==> r == -MaxPitch
  {
    if p > MaxPitch then MaxPitch
    else if p < -MaxPitch then -MaxPitch
    else p
  }

  /** The clamp is monotone: more upward mouse movement never gives a lower pitch. */
  lemma ClampPitchMonotone(p: real, q: real)
    requires p <= q
    ensures ClampPitch(p) <= ClampPitch(q)
  {
  }

  class Camera {
    /** `keys[1024]`: which keys are held down. */
    const keys: array<bool>
    /** `mouseSensitivity`. */
    const mouseSensitivity: real
    var pitch: real
    var yaw: real
    var lastFrameTime: real
    var mouseOffset: Vec2
    var mouseLast: Vec2
    /** `cameraNotMoveNextFrame`: discard the offset of the next mouse event. */
    var cameraNotMoveNextFrame: bool

    constructor ()
      ensures fresh(keys) && keys.Length == KeyCount && forall k | 0 <= k < KeyCount :: !keys[k]
      ensures mouseSensitivity == 0.1 && pitch == 0.0 && yaw == 90.0 && lastFrameTime == 0.0
      ensures mouseOffset == Vec2(0.0, 0.0) && mouseLast == Vec2(0.0, 0.0)
      ensures cameraNotMoveNextFrame
    {
      keys := new bool[KeyCount](_ => false);
      mouseSensitivity := 0.1;
      pitch := 0.0;
      yaw := 90.0;
      lastFrameTime := 0.0;
      mouseOffset := Vec2(0.0, 0.0);
      mouseLast := Vec2(0.0, 0.0);
      cameraNotMoveNextFrame := true;
    }

    /** `keyAction`: records a press or a release of a key that fits the table. */
    method KeyAction(key: uint32, action: uint32)
      requires keys.Length == KeyCount
      modifies keys
      ensures keys[..] == KeysAfter(old(keys[..]), key, action)
    {
      if key < KeyCount as uint32 {
        if action == Vk.GLFW_PRESS {
          keys[key] := true;
          assert keys[..] == old(keys[..])[key := true];
        } else if action == Vk.GLFW_RELEASE {
          keys[key] := false;
          assert keys[..] == old(keys[..])[key := false];
        }
      }
    }

    /**
     * `mouseAction`: adds the movement since the last event to the offset
     * (y inverted) and remembers the position; the first event after
     * construction only records the position.
     */
    method MouseAction(xpos: real, ypos: real)
      modifies this`mouseOffset, this`mouseLast, this`cameraNotMoveNextFrame
      ensures mouseLast == Vec2(xpos, ypos)
      ensures !cameraNotMoveNextFrame
      ensures old(cameraNotMoveNextFrame) ==> mouseOffset == Vec2(0.0, 0.0)
      ensures !old(cameraNotMoveNextFrame) ==>
                mouseOffset == Vec2(old(mouseOffset.x) + xpos - old(mouseLast.x), old(mouseOffset.y) + old(mouseLast.y) - ypos)
    {
      mouseOffset := Vec2(mouseOffset.x + (xpos - mouseLast.x), mouseOffset.y + (mouseLast.y - ypos));
      mouseLast := Vec2(xpos, ypos);
      if cameraNotMoveNextFrame {
        mouseOffset := Vec2(0.0, 0.0);
        cameraNotMoveNextFrame := false;
      }
    }

    /**
     * The rotation part of `move`: scales the accumulated offset by the
     * sensitivity, turns the yaw modulo 360 degrees, raises the pitch within
     * [-89, 89], consumes the offset and records the frame time.
     */
    method Move(engineTime: real)
      modifies this`pitch, this`yaw, this`mouseOffset, this`lastFrameTime
      ensures -MaxPitch <= pitch <= MaxPitch && 0.0 <= yaw < 360.0
      ensures pitch == ClampPitch(old(pitch) + old(mouseOffset.y) * mouseSensitivity)
      ensures yaw == WrapDegrees(old(yaw) + old(mouseOffset.x) * mouseSensitivity)
      ensures mouseOffset == Vec2(0.0, 0.0)
      ensures lastFrameTime == engineTime
    {
      lastFrameTime := engineTime;
      mouseOffset := Vec2(mouseOffset.x * mouseSensitivity, mouseOffset.y * mouseSensitivity);
      var turned := yaw + mouseOffset.x;
      assert turned == old(yaw) + old(mouseOffset.x) * mouseSensitivity;
      yaw := WrapDegrees(turned);
      pitch := pitch + mouseOffset.y;
      if pitch > MaxPitch {
        pitch := MaxPitch;
      }
      if pitch < -MaxPitch {
        pitch := -MaxPitch;
      }
      mouseOffset := Vec2(0.0, 0.0);
    }
  }
}
