/** Window events and what each native callback trampoline turns its
    arguments into (lib.rs and callbacks.rs hold the same seventeen
    trampolines; they are modelled once). A trampoline either builds exactly
    one event and hands it to `call_handler`, or logs a warning and drops the
    callback. */
module Events {
  import opened Ffi
  import Keys
  import Input
  import opened Windows

  /** A dropped file's path once it has passed `CStr::to_str`. */
  type Path = string

  /** `glfw3::WindowEvent`. */
  datatype WindowEvent =
    | Pos(xpos: Int32, ypos: Int32)
    | Size(width: Int32, height: Int32)
    | Close
    | Refresh
    | Focus(focused: bool)
    | Iconify(iconified: bool)
    | FramebufferSize(fbWidth: Int32, fbHeight: Int32)
    | MouseButton(button: Input.MouseButton, buttonAction: Input.Action, buttonMods: Input.Modifiers)
    | CursorPos(cursorX: F64, cursorY: F64)
    | CursorEnter(entered: bool)
    | Scroll(scrollX: F64, scrollY: F64)
    | Key(key: Keys.Key, scancode: Int32, keyAction: Input.Action, keyMods: Input.Modifiers)
    | Char(codepoint: Uint32)
    | CharModifiers(charCodepoint: Uint32, charMods: Input.Modifiers)
    | FileDrop(paths: seq<Path>)
    | Maximize(maximized: bool)
    | ContentScale(xscale: F32, yscale: F32)

  /** `(f64, WindowEvent)`: the event with the `glfwGetTime` reading taken
      when its trampoline ran. */
  type TimedEvent = (F64, WindowEvent)

  /** The arguments `call_handler` receives. */
  datatype Dispatch = Dispatch(window: WindowId, event: TimedEvent)

  /** The arguments the native library passes to each registered callback,
      besides the window. Modifier sets are the `int`'s bit pattern; each
      raw path of a file drop is given as the outcome of `CStr::to_str` on it. */
  datatype CallbackArgs =
    | KeyArgs(key: Int32, scancode: Int32, action: Int32, mods: bv32)
    | CharArgs(codepoint: Uint32)
    | CharModsArgs(codepoint: Uint32, mods: bv32)
    | DropArgs(rawPaths: seq<Option<Path>>)
    | ScrollArgs(xoffset: F64, yoffset: F64)
    | CursorPosArgs(cursorX: F64, cursorY: F64)
    | WindowPosArgs(xpos: Int32, ypos: Int32)
    | WindowSizeArgs(width: Int32, height: Int32)
    | CursorEnterArgs(entered: Int32)
    | MouseButtonArgs(button: Int32, action: Int32, mods: bv32)
    | WindowCloseArgs
    | WindowFocusArgs(focused: Int32)
    | WindowIconifyArgs(iconified: Int32)
    | WindowRefreshArgs
    | FramebufferSizeArgs(width: Int32, height: Int32)
    | ContentScaleArgs(xscale: F32, yscale: F32)
    | WindowMaximizeArgs(maximized: Int32)

  /** One native callback invocation: the window it is for, the time the
      trampoline reads, and the arguments. */
  datatype Fired = Fired(window: Ptr, time: F64, args: CallbackArgs)

  // ---------------------------------------------------------------- file drops

  /** `to_str`'s outcome for one raw path: the path when it is valid. */
  function ToStrOutcome(raw: Option<Path>): Option<Path> {
    raw
  }

  /** The paths that passed `to_str`, in their original order. */
  function ValidPaths(raw: seq<Option<Path>>): seq<Path> {
    FilterMap(raw, ToStrOutcome)
  }

  /** The drop trampoline's loop: push each valid path, skip (and log) each
      invalid one. */
  method CollectDropPaths(raw: seq<Option<Path>>) returns (filepaths: seq<Path>)
    ensures filepaths == ValidPaths(raw)
  {
    filepaths := [];
    var i := 0;
    while i < |raw|
      invariant 0 <= i <= |raw|
      invariant filepaths == ValidPaths(raw[..i])
    {
      assert raw[..i + 1][..i] == raw[..i];
      if raw[i].Some? {
        filepaths := filepaths + [raw[i].value];
      }
      i := i + 1;
    }
    assert raw[..|raw|] == raw;
  }

  /** The kept list is never longer than the number of paths received. */
  lemma ValidPathsLength(raw: seq<Option<Path>>)
    ensures |ValidPaths(raw)| <= |raw|
  {
    FilterMapLength(raw, ToStrOutcome);
  }

  /** A path is delivered exactly when it arrived valid: none is lost
      alongside an invalid one and none is invented. */
  lemma ValidPathsMembers(raw: seq<Option<Path>>, p: Path)
    ensures p in ValidPaths(raw) <==> Some(p) in raw
  {
    FilterMapMembers(raw, ToStrOutcome, p);
    if Some(p) in raw {
      var i :| 0 <= i < |raw| && raw[i] == Some(p);
      assert ToStrOutcome(raw[i]) == Some(p);
    }
  }

  /** Order is kept: the paths of a concatenation are those of each part,
      one after the other. */
  lemma ValidPathsAppend(a: seq<Option<Path>>, b: seq<Option<Path>>)
    ensures ValidPaths(a + b) == ValidPaths(a) + ValidPaths(b)
  {
    FilterMapAppend(a, b, ToStrOutcome);
  }

  // ---------------------------------------------------------------- the trampolines

  /** `key_callback`'s decision: decode the key and the action, truncate
      the modifiers, and build the event only when both decodes succeed. */
  function KeyEvent(key: Int32, scancode: Int32, action: Int32, mods: bv32): Option<WindowEvent> {
    var k, a := Keys.KeyDecode(key), Input.ActionDecode(action);
    if k.Ok? && a.Ok? then Some(Key(k.value, scancode, a.value, Input.FromBitsTruncate(mods))) else None
  }

  /** `mouse_button_callback`'s decision, with the same shape. */
  function MouseButtonEvent(button: Int32, action: Int32, mods: bv32): Option<WindowEvent> {
    var b, a := Input.MouseButtonDecode(button), Input.ActionDecode(action);
    if b.Ok? && a.Ok? then Some(MouseButton(b.value, a.value, Input.FromBitsTruncate(mods))) else None
  }

  /** What a trampoline puts in the event it dispatches, or `None` when it
      only logs. The key and mouse-button trampolines decode the key or
      button and the action, and truncate the modifiers; they dispatch only
      when both decodes succeed. The boolean trampolines read any non-zero
      `int` as true. Every other trampoline copies its arguments. */
  function TrampolineEvent(args: CallbackArgs): (e: Option<WindowEvent>)
    ensures e.None? ==> args.KeyArgs? || args.MouseButtonArgs?
  {
    match args
    case KeyArgs(key, scancode, action, mods) => KeyEvent(key, scancode, action, mods)
    case CharArgs(cp) => Some(Char(cp))
    case CharModsArgs(cp, mods) => Some(CharModifiers(cp, Input.FromBitsTruncate(mods)))
    case DropArgs(raw) => Some(FileDrop(ValidPaths(raw)))
    case ScrollArgs(x, y) => Some(Scroll(x, y))
    case CursorPosArgs(x, y) => Some(CursorPos(x, y))
    case WindowPosArgs(x, y) => Some(Pos(x, y))
    case WindowSizeArgs(w, h) => Some(Size(w, h))
    case CursorEnterArgs(entered) => Some(CursorEnter(entered != 0))
    case MouseButtonArgs(button, action, mods) => MouseButtonEvent(button, action, mods)
    case WindowCloseArgs => Some(Close)
    case WindowFocusArgs(focused) => Some(Focus(focused != 0))
    case WindowIconifyArgs(iconified) => Some(Iconify(iconified != 0))
    case WindowRefreshArgs => Some(Refresh)
    case FramebufferSizeArgs(w, h) => Some(FramebufferSize(w, h))
    case ContentScaleArgs(x, y) => Some(ContentScale(x, y))
    case WindowMaximizeArgs(maximized) => Some(Maximize(maximized != 0))
  }

  /** The `call_handler` a trampoline makes, if any: the event stamped with
      the time it read, for the window `WindowId(window as usize)`. */
  function Trampoline(f: Fired): (d: Option<Dispatch>)
    ensures d.Some? <==> TrampolineEvent(f.args).Some?
    ensures d.Some? ==> d.value.window.WindowPtr() == f.window && d.value.event.0 == f.time
                        && d.value.event.1 == TrampolineEvent(f.args).value
  {
    match TrampolineEvent(f.args)
    case None => None
    case Some(e) => Some(Dispatch(WindowIdOf(f.window), (f.time, e)))
  }

  /** The key trampoline dispatches exactly when both the key and the action
      decode; the event then carries the key and action whose discriminants
      were received, the truncated modifiers and the scancode unchanged. In
      each of the three other cases nothing is dispatched. */
  lemma KeyTrampoline(key: Int32, scancode: Int32, action: Int32, mods: bv32)
    ensures var e := TrampolineEvent(KeyArgs(key, scancode, action, mods));
      && (e.Some? <==> Keys.IsKeyVariant(key) && key != Keys.Unknown && 0 <= action <= 2)
      && (e.Some? ==> e.value.Key? && e.value.key as int == key && Input.ActionCode(e.value.keyAction) == action
                      && e.value.scancode == scancode && e.value.keyMods == Input.FromBitsTruncate(mods))
  {
    var k, a := Keys.KeyDecode(key), Input.ActionDecode(action);
    if k.Ok? && a.Ok? {
      assert Input.ActionCode(a.value) == action;
    }
    if 0 <= action <= 2 {
      Input.ActionRoundTrip(Input.ActionOfCode(action));
    }
  }

  /** The mouse-button trampoline dispatches exactly when both the button
      and the action decode, with the values whose discriminants were
      received and the truncated modifiers; otherwise it dispatches nothing. */
  lemma MouseButtonTrampoline(button: Int32, action: Int32, mods: bv32)
    ensures var e := TrampolineEvent(MouseButtonArgs(button, action, mods));
      && (e.Some? <==> GLFW_MOUSE_BUTTON_1 <= button <= GLFW_MOUSE_BUTTON_LAST && GLFW_RELEASE <= action <= GLFW_REPEAT)
      && (e.Some? ==> e.value.MouseButton? && Input.MouseButtonCode(e.value.button) == button
                      && Input.ActionCode(e.value.buttonAction) == action && e.value.buttonMods == Input.FromBitsTruncate(mods))
  {
    if GLFW_MOUSE_BUTTON_1 <= button <= GLFW_MOUSE_BUTTON_LAST {
      Input.MouseButtonRoundTrip(Input.MouseButtonOfCode(button));
    }
    if GLFW_RELEASE <= action <= GLFW_REPEAT {
      Input.ActionRoundTrip(Input.ActionOfCode(action));
    }
  }

  /** The drop trampoline always dispatches one `FileDrop`, whose list holds
      the valid paths in order: at most as many as were received, possibly
      none. */
  lemma DropTrampoline(raw: seq<Option<Path>>)
    ensures var e := TrampolineEvent(DropArgs(raw));
      && e.Some? && e.value.FileDrop?
      && |e.value.paths| <= |raw|
      && (forall p :: p in e.value.paths <==> Some(p) in raw)
  {
    ValidPathsLength(raw);
    forall p ensures p in ValidPaths(raw) <==> Some(p) in raw {
      ValidPathsMembers(raw, p);
    }
  }

  /** One valid and one invalid path: exactly the valid one is delivered. */
  lemma DropOneValidOneInvalid(p: Path)
    ensures TrampolineEvent(DropArgs([Some(p), None])) == Some(FileDrop([p]))
    ensures TrampolineEvent(DropArgs([None, Some(p)])) == Some(FileDrop([p]))
  {
    var a, b: seq<Option<Path>> := [Some(p), None], [None, Some(p)];
    var s, n: seq<Option<Path>> := [Some(p)], [None];
    assert a[..1] == s && s[..0] == [];
    assert b[..1] == n && n[..0] == [];
    assert FilterMap(s, ToStrOutcome) == [] + [p];
    assert FilterMap(n, ToStrOutcome) == [];
    assert ValidPaths(a) == [p];
    assert ValidPaths(b) == [p];
  }

  // The cursor-enter, focus, iconify and maximize trampolines map zero to
  // false and every other `int` to true.

  lemma CursorEnterTrampoline(v: Int32)
    ensures TrampolineEvent(CursorEnterArgs(v)) == Some(CursorEnter(v != GLFW_FALSE))
  {
  }

  lemma FocusTrampoline(v: Int32)
    ensures TrampolineEvent(WindowFocusArgs(v)) == Some(Focus(v != GLFW_FALSE))
  {
  }

  lemma IconifyTrampoline(v: Int32)
    ensures TrampolineEvent(WindowIconifyArgs(v)) == Some(Iconify(v != GLFW_FALSE))
  {
  }

  lemma MaximizeTrampoline(v: Int32)
    ensures TrampolineEvent(WindowMaximizeArgs(v)) == Some(Maximize(v != GLFW_FALSE))
  {
  }

  // ---------------------------------------------------------------- a run of callbacks

  /** The `call_handler` invocations a run of native callbacks produces, in
      the order the callbacks fired. */
  function Dispatches(fired: seq<Fired>): seq<Dispatch> {
    FilterMap(fired, Trampoline)
  }

  /** Each callback dispatches at most one event, so a run never dispatches
      more events than callbacks fired; every dispatch is the one some
      callback of the run produced. */
  lemma DispatchesFromCallbacks(fired: seq<Fired>, d: Dispatch)
    ensures |Dispatches(fired)| <= |fired|
    ensures d in Dispatches(fired) <==> exists i :: 0 <= i < |fired| && Trampoline(fired[i]) == Some(d)
  {
    FilterMapLength(fired, Trampoline);
    FilterMapMembers(fired, Trampoline, d);
  }
}
