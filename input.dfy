/** The small native-code decoders of lib.rs: mouse buttons, actions,
    platforms (with `get_platform`), and the modifier bit set. */
module Input {
  import opened Ffi

  // ---------------------------------------------------------------- MouseButton

  /** `glfw3::MouseButton`; `Button1`/`Button2`/`Button3` are also exported
      as left, right and middle. */
  datatype MouseButton = Button1 | Button2 | Button3 | Button4 | Button5 | Button6 | Button7 | Button8

  /** The discriminant of each variant, `GLFW_MOUSE_BUTTON_1` to `_8`. */
  function MouseButtonCode(b: MouseButton): Int32 {
    match b
    case Button1 => 0
    case Button2 => 1
    case Button3 => 2
    case Button4 => 3
    case Button5 => 4
    case Button6 => 5
    case Button7 => 6
    case Button8 => 7
  }

  /** `mem::transmute::<i32, MouseButton>` on a valid discriminant. */
  function MouseButtonOfCode(v: Int32): (b: MouseButton)
    requires GLFW_MOUSE_BUTTON_1 <= v <= GLFW_MOUSE_BUTTON_LAST
    ensures MouseButtonCode(b) == v
  {
    match v
    case 0 => Button1
    case 1 => Button2
    case 2 => Button3
    case 3 => Button4
    case 4 => Button5
    case 5 => Button6
    case 6 => Button7
    case _ => Button8
  }

  /** `MouseButton::try_from`: accepts exactly the discriminants of the
      enum, returning the variant that has it; rejects anything else with the
      input unchanged. */
  function MouseButtonDecode(v: Int32): (r: Result<MouseButton, Int32>)
    ensures r.Ok? <==> exists b :: MouseButtonCode(b) == v
    ensures r.Ok? ==> MouseButtonCode(r.value) == v
    ensures r.Err? ==> r.error == v
  {
    if GLFW_MOUSE_BUTTON_1 <= v <= GLFW_MOUSE_BUTTON_LAST then Ok(MouseButtonOfCode(v)) else Err(v)
  }

  /** Decoding a variant's discriminant yields that variant. */
  lemma MouseButtonRoundTrip(b: MouseButton)
    ensures MouseButtonDecode(MouseButtonCode(b)) == Ok(b)
  {
  }

  // ---------------------------------------------------------------- Action

  /** `glfw3::Action`. */
  datatype Action = Release | Press | Repeat

  function ActionCode(a: Action): Int32 {
    match a
    case Release => GLFW_RELEASE
    case Press => GLFW_PRESS
    case Repeat => GLFW_REPEAT
  }

  /** `mem::transmute::<i32, Action>` on a valid discriminant. */
  function ActionOfCode(v: Int32): (a: Action)
    requires GLFW_RELEASE <= v <= GLFW_REPEAT
    ensures ActionCode(a) == v
  {
    if v == GLFW_RELEASE then Release else if v == GLFW_PRESS then Press else Repeat
  }

  /** `Action::try_from`: accepts exactly `RELEASE`, `PRESS` and `REPEAT`. */
  function ActionDecode(v: Int32): (r: Result<Action, Int32>)
    ensures r.Ok? <==> exists a :: ActionCode(a) == v
    ensures r.Ok? ==> ActionCode(r.value) == v
    ensures r.Err? ==> r.error == v
  {
    if GLFW_RELEASE <= v <= GLFW_REPEAT then Ok(ActionOfCode(v)) else Err(v)
  }

  lemma ActionRoundTrip(a: Action)
    ensures ActionDecode(ActionCode(a)) == Ok(a)
  {
  }

  // ---------------------------------------------------------------- Platform

  /** `glfw3::Platform`. */
  datatype Platform = Any | Win32 | Cocoa | Wayland | X11 | Null

  function PlatformCode(p: Platform): Int32 {
    match p
    case Any => GLFW_ANY_PLATFORM
    case Win32 => GLFW_PLATFORM_WIN32
    case Cocoa => GLFW_PLATFORM_COCOA
    case Wayland => GLFW_PLATFORM_WAYLAND
    case X11 => GLFW_PLATFORM_X11
    case Null => GLFW_PLATFORM_NULL
  }

  /** `mem::transmute::<i32, Platform>` on a valid discriminant. */
  function PlatformOfCode(v: Int32): (p: Platform)
    requires GLFW_ANY_PLATFORM <= v <= GLFW_PLATFORM_NULL
    ensures PlatformCode(p) == v
  {
    if v == GLFW_ANY_PLATFORM then Any
    else if v == GLFW_PLATFORM_WIN32 then Win32
    else if v == GLFW_PLATFORM_COCOA then Cocoa
    else if v == GLFW_PLATFORM_WAYLAND then Wayland
    else if v == GLFW_PLATFORM_X11 then X11
    else Null
  }

  /** `Platform::try_from`: accepts the whole contiguous range from
      `GLFW_ANY_PLATFORM` to `GLFW_PLATFORM_NULL`, `Any` included. */
  function PlatformDecode(v: Int32): (r: Result<Platform, Int32>)
    ensures r.Ok? <==> exists p :: PlatformCode(p) == v
    ensures r.Ok? ==> PlatformCode(r.value) == v
    ensures r.Err? ==> r.error == v
  {
    if GLFW_ANY_PLATFORM <= v <= GLFW_PLATFORM_NULL then Ok(PlatformOfCode(v)) else Err(v)
  }

  lemma PlatformRoundTrip(p: Platform)
    ensures PlatformDecode(PlatformCode(p)) == Ok(p)
  {
  }

  /** `Glfw::get_platform`, given the value `glfwGetPlatform` returned. It
      recognises only the five concrete platforms; on anything else the
      source panics ("Unknown platform"), which is `None` here. */
  function GetPlatform(native: Int32): (r: Option<Platform>)
    ensures r.Some? <==> (exists p :: PlatformCode(p) == native) && native != GLFW_ANY_PLATFORM
    ensures r.Some? ==> PlatformCode(r.value) == native && r.value != Any
  {
    if native == PlatformCode(Win32) then Some(Win32)
    else if native == PlatformCode(Cocoa) then Some(Cocoa)
    else if native == PlatformCode(Wayland) then Some(Wayland)
    else if native == PlatformCode(X11) then Some(X11)
    else if native == PlatformCode(Null) then Some(Null)
    else
      assert forall p :: PlatformCode(p) == native ==> p == Any;
      None
  }

  /** `get_platform` and `Platform::try_from` agree on the concrete platforms,
      and differ only on `GLFW_ANY_PLATFORM`, which `try_from` accepts and
      `get_platform` panics on. */
  lemma GetPlatformAgreesWithDecode(v: Int32)
    ensures GetPlatform(v).Some? ==> PlatformDecode(v) == Ok(GetPlatform(v).value)
    ensures PlatformDecode(v).Ok? && v != GLFW_ANY_PLATFORM ==> GetPlatform(v) == Some(PlatformDecode(v).value)
    ensures PlatformDecode(GLFW_ANY_PLATFORM) == Ok(Any) && GetPlatform(GLFW_ANY_PLATFORM) == None
  {
    if GetPlatform(v).Some? {
      PlatformRoundTrip(GetPlatform(v).value);
    }
  }

  // ---------------------------------------------------------------- Modifiers

  /** `glfw3::Modifiers`, a `bitflags` set over an `i32`. The native `int` is
      carried as its 32-bit two's-complement pattern, on which the flag
      operations are exactly bit-vector operations. */
  datatype Modifiers = Modifiers(bits: bv32) {
    predicate Contains(flag: bv32) {
      bits & flag == flag
    }
  }

  /** The six named flags, in declaration order. */
  const ModifierFlags: seq<bv32> := [
    GLFW_MOD_SHIFT, GLFW_MOD_CONTROL, GLFW_MOD_ALT,
    GLFW_MOD_SUPER, GLFW_MOD_CAPS_LOCK, GLFW_MOD_NUM_LOCK
  ]

  /** `Modifiers::all().bits()`. */
  const AllModifierBits: bv32 :=
    GLFW_MOD_SHIFT | GLFW_MOD_CONTROL | GLFW_MOD_ALT | GLFW_MOD_SUPER | GLFW_MOD_CAPS_LOCK | GLFW_MOD_NUM_LOCK

  /** `Modifiers::from_bits_truncate`: keeps each named flag exactly when the
      input has it, and clears every other bit; so the result is a subset of
      the input. */
  function FromBitsTruncate(bits: bv32): (m: Modifiers)
    ensures m.bits & !bits == 0
    ensures m.bits & !AllModifierBits == 0
    ensures forall i :: 0 <= i < |ModifierFlags| ==> (m.Contains(ModifierFlags[i]) <==> bits & ModifierFlags[i] == ModifierFlags[i])
  {
    Modifiers(bits & AllModifierBits)
  }

  /** Truncating twice is truncating once. */
  lemma FromBitsTruncateIdempotent(bits: bv32)
    ensures FromBitsTruncate(FromBitsTruncate(bits).bits) == FromBitsTruncate(bits)
  {
  }
}
