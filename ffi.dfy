/** Machine widths, failure-compatible wrappers and the GLFW 3.4 constants the
    safe wrapper relies on. The constants are those of the vendored `glfw3.h`
    (GLFW 3.4), written out here because the header is not part of this model. */
module Ffi {

  /** A C `int` / Rust `i32`. */
  type Int32 = x: int | -0x8000_0000 <= x < 0x8000_0000

  /** A C `unsigned int` / Rust `u32` (a Unicode code point in a char event). */
  type Uint32 = x: int | 0 <= x < 0x1_0000_0000

  /** A native pointer reinterpreted as a Rust `usize` (64-bit); 0 is null. */
  type Ptr = x: int | 0 <= x < 0x1_0000_0000_0000_0000

  const NULL: Ptr := 0

  /** Floating-point payloads (`f64`, `f32`) are carried as opaque bit patterns:
      the wrapper never computes with them, it only copies them into events. */
  type F64 = bv64
  type F32 = bv32

  datatype Option<+T> = None | Some(value: T)

  datatype Result<+T, +E> = Ok(value: T) | Err(error: E)

  /** The values `f` keeps from `s`, in their order: the `filter_map` every
      filtering loop of the wrapper amounts to. */
  function FilterMap<A, B>(s: seq<A>, f: A -> Option<B>): seq<B> {
    if s == [] then []
    else FilterMap(s[..|s| - 1], f) + (if f(s[|s| - 1]).Some? then [f(s[|s| - 1]).value] else [])
  }

  /** At most one value is kept per element. */
  lemma {:induction false} FilterMapLength<A, B>(s: seq<A>, f: A -> Option<B>)
    ensures |FilterMap(s, f)| <= |s|
  {
    if s != [] {
      FilterMapLength(s[..|s| - 1], f);
    }
  }

  /** Filtering keeps the order of consecutive parts. */
  lemma {:induction false} FilterMapAppend<A, B>(a: seq<A>, b: seq<A>, f: A -> Option<B>)
    ensures FilterMap(a + b, f) == FilterMap(a, f) + FilterMap(b, f)
  {
    if b != [] {
      var init := b[..|b| - 1];
      assert (a + b)[..|a + b| - 1] == a + init;
      assert (a + b)[|a + b| - 1] == b[|b| - 1];
      FilterMapAppend(a, init, f);
    } else {
      assert a + b == a;
    }
  }

  /** Nothing is kept when `f` keeps no element. */
  lemma {:induction false} FilterMapNone<A, B>(s: seq<A>, f: A -> Option<B>)
    requires forall i :: 0 <= i < |s| ==> f(s[i]).None?
    ensures FilterMap(s, f) == []
  {
    if s != [] {
      var init := s[..|s| - 1];
      assert forall i :: 0 <= i < |init| ==> init[i] == s[i];
      FilterMapNone(init, f);
    }
  }

  /** A value is kept exactly when some element maps to it. */
  lemma {:induction false} FilterMapMembers<A, B>(s: seq<A>, f: A -> Option<B>, y: B)
    ensures y in FilterMap(s, f) <==> exists i :: 0 <= i < |s| && f(s[i]) == Some(y)
  {
    if s != [] {
      var init := s[..|s| - 1];
      FilterMapMembers(init, f, y);
      if y in FilterMap(init, f) {
        var i :| 0 <= i < |init| && f(init[i]) == Some(y);
        assert s[i] == init[i];
      }
      if exists i :: 0 <= i < |s| && f(s[i]) == Some(y) {
        var i :| 0 <= i < |s| && f(s[i]) == Some(y);
        if i < |init| {
          assert init[i] == s[i];
        }
      }
    }
  }

  /** `glfw3::Error`: a native error code with its description. */
  datatype Error = Error(code: Int32, desc: string)

  /** `unknown_error()`: reported when `glfwInit` fails without setting an error. */
  const UnknownError: Error := Error(-1, "Unknown error")

  // Booleans as GLFW passes them to callbacks.
  const GLFW_FALSE: Int32 := 0
  const GLFW_TRUE: Int32 := 1

  // Key and button actions.
  const GLFW_RELEASE: Int32 := 0
  const GLFW_PRESS: Int32 := 1
  const GLFW_REPEAT: Int32 := 2

  const GLFW_KEY_UNKNOWN: Int32 := -1

  const GLFW_MOUSE_BUTTON_1: Int32 := 0
  const GLFW_MOUSE_BUTTON_LAST: Int32 := 7

  // Modifier key flags.
  const GLFW_MOD_SHIFT: bv32 := 0x0001
  const GLFW_MOD_CONTROL: bv32 := 0x0002
  const GLFW_MOD_ALT: bv32 := 0x0004
  const GLFW_MOD_SUPER: bv32 := 0x0008
  const GLFW_MOD_CAPS_LOCK: bv32 := 0x0010
  const GLFW_MOD_NUM_LOCK: bv32 := 0x0020

  // Platforms.
  const GLFW_ANY_PLATFORM: Int32 := 0x0006_0000
  const GLFW_PLATFORM_WIN32: Int32 := 0x0006_0001
  const GLFW_PLATFORM_COCOA: Int32 := 0x0006_0002
  const GLFW_PLATFORM_WAYLAND: Int32 := 0x0006_0003
  const GLFW_PLATFORM_X11: Int32 := 0x0006_0004
  const GLFW_PLATFORM_NULL: Int32 := 0x0006_0005

  // Hint names forwarded by the wrapper.
  const GLFW_PLATFORM: Int32 := 0x0005_0003
  const GLFW_CLIENT_API: Int32 := 0x0002_2001

  // Client APIs.
  const GLFW_NO_API: Int32 := 0
  const GLFW_OPENGL_API: Int32 := 0x0003_0001
  const GLFW_OPENGL_ES_API: Int32 := 0x0003_0002
}
