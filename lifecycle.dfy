/** lib.rs: library start-up (`initialize`, `try_init`), the `Glfw` handle
    with window creation, monitor enumeration and event processing, and the
    `Monitor` handle. The hint loops of `initialize` and `create_window`
    share one definition, `HintWalk`. */
module Lifecycle {
  import opened Ffi
  import Input
  import opened Native
  import opened Termination
  import opened Windows
  import opened Events
  import opened Callbacks

  // ---------------------------------------------------------------- hint values

  datatype WaylandLibdecor = Prefer | Disable

  datatype AnglePlatformType = AngleNone | OpenGl | OpenGlEs | D3D9 | D3D11 | Vulkan | Metal

  /** `glfw3::InitHint`. */
  datatype InitHint =
    | Platform(platform: Input.Platform)
    | JoystickHatButtons(hatButtons: bool)
    | CocoaChdirResources(chdirResources: bool)
    | CocoaMenubar(menubar: bool)
    | WaylandLibdecorHint(libdecor: WaylandLibdecor)
    | X11XcbVulkanSurface(xcbVulkanSurface: bool)
    | AnglePlatformTypeHint(angle: AnglePlatformType)

  /** `glfw3::ClientApi`, whose discriminants are the native constants. */
  datatype ClientApi = OpenGlApi | OpenGlEsApi | NoApi

  function ClientApiCode(c: ClientApi): Int32 {
    match c
    case OpenGlApi => GLFW_OPENGL_API
    case OpenGlEsApi => GLFW_OPENGL_ES_API
    case NoApi => GLFW_NO_API
  }

  datatype ContextCreationApi = NativeContext | Egl | OsMesa

  datatype ContextRobustness = NoRobustness | NoResetNotification | LoseContextOnReset

  datatype ContextReleaseBehavior = AnyReleaseBehavior | Flush | NoReleaseBehavior

  /** `glfw3::WindowHint`. */
  datatype WindowHint =
    | Resizable(flag: bool)
    | Visible(flag: bool)
    | Decorated(flag: bool)
    | Focused(flag: bool)
    | AutoIconify(flag: bool)
    | Floating(flag: bool)
    | Maximized(flag: bool)
    | CenterCursor(flag: bool)
    | TransparentFramebuffer(flag: bool)
    | FocusOnShow(flag: bool)
    | ScaleToMonitor(flag: bool)
    | ScaleFramebuffer(flag: bool)
    | MousePassthrough(flag: bool)
    | PositionX(amount: Int32)
    | PositionY(amount: Int32)
    | RedBits(amount: Int32)
    | GreenBits(amount: Int32)
    | BlueBits(amount: Int32)
    | AlphaBits(amount: Int32)
    | StencilBits(amount: Int32)
    | AccumRedBits(amount: Int32)
    | AccumGreenBits(amount: Int32)
    | AccumBlueBits(amount: Int32)
    | AccumAlphaBits(amount: Int32)
    | AuxBuffers(amount: Int32)
    | Samples(amount: Int32)
    | RefreshRate(amount: Int32)
    | Stereo(flag: bool)
    | SrgbCapable(flag: bool)
    | Doublebuffer(flag: bool)
    | ClientApiHint(clientApi: ClientApi)
    | ContextCreationApiHint(creationApi: ContextCreationApi)
    | ContextVersionMajor(amount: Int32)
    | ContextVersionMinor(amount: Int32)
    | ContextRobustnessHint(robustness: ContextRobustness)
    | ContextReleaseBehaviorHint(releaseBehavior: ContextReleaseBehavior)

  // ---------------------------------------------------------------- the hint walk

  /** What a hint loop did: the `(hint, value)` pairs it passed to the native
      setter, in order, and the hint whose pair was rejected, with the error,
      if the loop stopped early. */
  datatype Walk<H> = Walk(forwarded: seq<HintPair>, failure: Option<(H, Error)>)

  /** A hint loop over `hs`: `select` gives the native pair of a hint the
      wrapper forwards (and `None` for one it ignores), `reject` the error the
      native side reports for a forwarded pair. The loop stops at the first
      rejected pair (the `?` on `get_error`). */
  function HintWalk<H>(hs: seq<H>, select: H -> Option<HintPair>,
                       reject: HintPair -> Option<Error>): Walk<H>
  {
    if hs == [] then Walk([], None)
    else
      var w, h := HintWalk(hs[..|hs| - 1], select, reject), hs[|hs| - 1];
      if w.failure.Some? || select(h).None? then w
      else
        var pair := select(h).value;
        Walk(w.forwarded + [pair], if reject(pair).Some? then Some((h, reject(pair).value)) else None)
  }

  /** A hint the loop goes past: ignored, or forwarded and accepted. */
  ghost predicate Accepted<H>(h: H, select: H -> Option<HintPair>,
                              reject: HintPair -> Option<Error>)
  {
    select(h).None? || reject(select(h).value).None?
  }

  /** Once the loop has stopped, later hints change nothing. */
  lemma {:induction false} WalkStops<H>(hs: seq<H>, k: nat, select: H -> Option<HintPair>,
                                        reject: HintPair -> Option<Error>)
    requires k <= |hs| && HintWalk(hs[..k], select, reject).failure.Some?
    ensures HintWalk(hs, select, reject) == HintWalk(hs[..k], select, reject)
  {
    if k < |hs| {
      var init := hs[..|hs| - 1];
      assert init[..k] == hs[..k];
      WalkStops(init, k, select, reject);
    } else {
      assert hs[..k] == hs;
    }
  }

  /** The loop fails exactly when some hint is rejected, and then it fails
      at the FIRST rejected hint, reporting that hint with the native error,
      after forwarding the selected pairs up to and including it. Otherwise
      it forwards the pair of every selected hint, in order. */
  lemma {:induction false} WalkOutcome<H>(hs: seq<H>, select: H -> Option<HintPair>,
                                          reject: HintPair -> Option<Error>)
    ensures HintWalk(hs, select, reject).failure.None? <==>
            forall i :: 0 <= i < |hs| ==> Accepted(hs[i], select, reject)
    ensures HintWalk(hs, select, reject).failure.None? ==>
            HintWalk(hs, select, reject).forwarded == FilterMap(hs, select)
    ensures HintWalk(hs, select, reject).failure.Some? ==>
            exists i :: 0 <= i < |hs| && FirstRejected(hs, i, select, reject)
              && HintWalk(hs, select, reject) == Walk(FilterMap(hs[..i + 1], select),
                                                      Some((hs[i], reject(select(hs[i]).value).value)))
  {
    if hs != [] {
      var n := |hs| - 1;
      var init, h := hs[..n], hs[n];
      WalkOutcome(init, select, reject);
      assert forall i :: 0 <= i < n ==> init[i] == hs[i];
      var w := HintWalk(init, select, reject);
      if w.failure.Some? {
        var i :| 0 <= i < n && FirstRejected(init, i, select, reject)
          && w == Walk(FilterMap(init[..i + 1], select), Some((init[i], reject(select(init[i]).value).value)));
        assert init[..i + 1] == hs[..i + 1];
        assert FirstRejected(hs, i, select, reject);
      } else if !Accepted(h, select, reject) {
        assert hs[..n + 1] == hs;
        assert FirstRejected(hs, n, select, reject);
      }
    }
  }

  /** Hint `i` is the first one the native side rejects. */
  ghost predicate FirstRejected<H>(hs: seq<H>, i: nat, select: H -> Option<HintPair>,
                                   reject: HintPair -> Option<Error>)
    requires i < |hs|
  {
    && (forall j :: 0 <= j < i ==> Accepted(hs[j], select, reject))
    && !Accepted(hs[i], select, reject)
  }

  /** Every pair the loop forwards is the pair of some hint of `hs`. */
  lemma ForwardedFromHints<H>(hs: seq<H>, select: H -> Option<HintPair>,
                              reject: HintPair -> Option<Error>, pair: HintPair)
    requires pair in HintWalk(hs, select, reject).forwarded
    ensures exists i :: 0 <= i < |hs| && select(hs[i]) == Some(pair)
  {
    WalkOutcome(hs, select, reject);
    var w := HintWalk(hs, select, reject);
    if w.failure.Some? {
      var i :| 0 <= i < |hs| && FirstRejected(hs, i, select, reject)
        && w == Walk(FilterMap(hs[..i + 1], select), Some((hs[i], reject(select(hs[i]).value).value)));
      FilterMapMembers(hs[..i + 1], select, pair);
      var j :| 0 <= j < i + 1 && select(hs[..i + 1][j]) == Some(pair);
      assert hs[..i + 1][j] == hs[j];
    } else {
      FilterMapMembers(hs, select, pair);
    }
  }

  /** The native hint loop itself: forwards each selected hint and returns at
      the first one the native side rejects. */
  method ApplyHints<H>(native: Library, target: HintTarget, hs: seq<H>, select: H -> Option<HintPair>)
    returns (failure: Option<(H, Error)>)
    modifies native
    ensures failure == HintWalk(hs, select, native.HintError(target)).failure
    ensures native.calls == old(native.calls) + HintCalls(target, HintWalk(hs, select, native.HintError(target)).forwarded)
  {
    var forwarded: seq<HintPair> := [];
    var i := 0;
    while i < |hs|
      invariant 0 <= i <= |hs|
      invariant HintWalk(hs[..i], select, native.HintError(target)) == Walk(forwarded, None)
      invariant native.calls == old(native.calls) + HintCalls(target, forwarded)
    {
      assert hs[..i + 1][..i] == hs[..i];
      var s := select(hs[i]);
      if s.Some? {
        var err := native.SetHint(target, s.value.0, s.value.1);
        assert HintCalls(target, forwarded + [s.value]) == HintCalls(target, forwarded) + [HintCall(target, s.value.0, s.value.1)];
        forwarded := forwarded + [s.value];
        if err.Some? {
          WalkStops(hs, i + 1, select, native.HintError(target));
          return Some((hs[i], err.value));
        }
      }
      i := i + 1;
    }
    assert hs[..i] == hs;
    failure := None;
  }

  // ---------------------------------------------------------------- initialize

  /** `initialize` forwards `Platform` hints only, as the `GLFW_PLATFORM`
      init hint with the platform's discriminant. */
  function InitHintCall(h: InitHint): Option<HintPair> {
    match h
    case Platform(p) => Some((GLFW_PLATFORM, Input.PlatformCode(p)))
    case _ => None
  }

  /** `InitHint::default_hints`, in source order. */
  const DefaultInitHints: seq<InitHint> := [
    Platform(Input.Any),
    JoystickHatButtons(true),
    AnglePlatformTypeHint(AngleNone),
    CocoaChdirResources(true),
    CocoaMenubar(true),
    WaylandLibdecorHint(Prefer),
    X11XcbVulkanSurface(true)
  ]

  /** The walk `initialize` makes: the defaults, then the caller's hints. */
  function InitWalk(native: Library, hints: seq<InitHint>): Walk<InitHint> {
    HintWalk(DefaultInitHints + hints, InitHintCall, native.initHintError)
  }

  /** Of the seven default hints only the first is forwarded: the platform
      is reset to `GLFW_ANY_PLATFORM` before the caller's hints. */
  lemma DefaultsForwardAnyPlatform()
    ensures FilterMap(DefaultInitHints, InitHintCall) == [(GLFW_PLATFORM, GLFW_ANY_PLATFORM)]
  {
    var d := DefaultInitHints;
    assert d == d[..1] + d[1..];
    FilterMapAppend(d[..1], d[1..], InitHintCall);
    assert d[..1][..0] == [];
    FilterMapNone(d[1..], InitHintCall);
  }

  /** The pairs `initialize` forwards are the default platform followed by
      the caller's `Platform` hints in their order. */
  lemma DefaultPlatformFirst(hints: seq<InitHint>)
    ensures FilterMap(DefaultInitHints + hints, InitHintCall)
            == [(GLFW_PLATFORM, GLFW_ANY_PLATFORM)] + FilterMap(hints, InitHintCall)
  {
    DefaultsForwardAnyPlatform();
    FilterMapAppend(DefaultInitHints, hints, InitHintCall);
  }

  /** Without a caller `Platform` hint, the default `GLFW_ANY_PLATFORM` is the
      only pair forwarded. */
  lemma NoCallerPlatformKeepsAny(hints: seq<InitHint>)
    requires forall j :: 0 <= j < |hints| ==> !hints[j].Platform?
    ensures FilterMap(DefaultInitHints + hints, InitHintCall) == [(GLFW_PLATFORM, GLFW_ANY_PLATFORM)]
  {
    DefaultPlatformFirst(hints);
    FilterMapNone(hints, InitHintCall);
  }

  /** When the caller gives a `Platform` hint, the last one given is the last
      pair forwarded, and wins. */
  lemma CallerPlatformWins(hints: seq<InitHint>, i: nat)
    requires i < |hints| && hints[i].Platform?
    requires forall j :: i < j < |hints| ==> !hints[j].Platform?
    ensures var f := FilterMap(DefaultInitHints + hints, InitHintCall);
            |f| > 0 && f[|f| - 1] == (GLFW_PLATFORM, Input.PlatformCode(hints[i].platform))
  {
    DefaultPlatformFirst(hints);
    var front, back := hints[..i + 1], hints[i + 1..];
    assert hints == front + back;
    FilterMapAppend(front, back, InitHintCall);
    assert forall j :: 0 <= j < |back| ==> back[j] == hints[i + 1 + j];
    FilterMapNone(back, InitHintCall);
  }

  /** Every pair `initialize` forwards is a `GLFW_PLATFORM` hint. */
  lemma InitForwardsOnlyPlatform(native: Library, hints: seq<InitHint>, pair: HintPair)
    requires pair in InitWalk(native, hints).forwarded
    ensures pair.0 == GLFW_PLATFORM
  {
    ForwardedFromHints(DefaultInitHints + hints, InitHintCall, native.initHintError, pair);
  }

  /** `InitError` (its `Poisoned` case belongs to the lock and is not modelled). */
  datatype InitError = Hint(hint: InitHint, error: Error) | Init(error: Error)

  /** `TryInitError`. */
  datatype TryInitError = InitFailed(initError: InitError) | WouldBlock

  /** The error a failed `glfwInit` is reported with. */
  function InitFailure(native: Library): (e: Error)
    ensures native.initError.Some? ==> e == native.initError.value
    ensures native.initError.None? ==> e == UnknownError
  {
    if native.initError.Some? then native.initError.value else UnknownError
  }

  /** The contract of `initialize`, given the native answers and the calls
      logged before it started. Each error path frees the lock (the guard or
      the token is dropped on the early return); when the monitor callback
      cannot be registered after a successful `glfwInit`, the token is
      dropped, so `glfwTerminate` runs. */
  ghost predicate InitOutcome(hints: seq<InitHint>, lock: InitLock, native: Library,
                              before: seq<Call>, r: Result<Glfw, InitError>)
    reads lock, native
    reads if r.Ok? then {r.value, r.value.terminate} else {}
  {
    var w := InitWalk(native, hints);
    var hinted := before + HintCalls(InitHints, w.forwarded);
    if w.failure.Some? then
      && r == Err(Hint(w.failure.value.0, w.failure.value.1))
      && native.calls == hinted && !lock.held
    else if !native.initSucceeds then
      && r == Err(InitError.Init(InitFailure(native)))
      && native.calls == hinted + [Call.Init] && !lock.held
    else if native.monitorCallbackError.Some? then
      && r == Err(InitError.Init(native.monitorCallbackError.value))
      && native.calls == hinted + [Call.Init, Call.SetMonitorCallback, Call.Terminate] && !lock.held
    else
      && r.Ok? && !r.value.dropped && r.value.share == 0
      && r.value.terminate.lock == lock && r.value.terminate.native == native
      && r.value.terminate.holders == {0} && r.value.terminate.strong == 1
      && native.calls == hinted + [Call.Init, Call.SetMonitorCallback] && lock.held
  }

  /** `initialize(hints, init_guard)`. */
  method Initialize(hints: seq<InitHint>, lock: InitLock, native: Library) returns (r: Result<Glfw, InitError>)
    requires lock.held
    modifies lock, native
    ensures InitOutcome(hints, lock, native, old(native.calls), r)
    ensures r.Ok? ==> fresh(r.value) && fresh(r.value.terminate) && r.value.Valid()
  {
    var failure := ApplyHints(native, InitHints, DefaultInitHints + hints, InitHintCall);
    if failure.Some? {
      lock.Unlock();
      return Err(Hint(failure.value.0, failure.value.1));
    }
    var ok := native.Init();
    if !ok {
      lock.Unlock();
      return Err(InitError.Init(InitFailure(native)));
    }
    var terminate := new Terminate(lock, native);
    var glfw := new Glfw(terminate, 0);
    var err := native.SetMonitorCallback();
    if err.Some? {
      glfw.Drop();
      return Err(InitError.Init(err.value));
    }
    return Ok(glfw);
  }

  /** `Glfw::try_init`: `WouldBlock`, with nothing called, when the lock is
      taken; otherwise exactly `initialize`. */
  method TryInit(hints: seq<InitHint>, lock: InitLock, native: Library) returns (r: Result<Glfw, TryInitError>)
    modifies lock, native
    ensures old(lock.held) ==> r == Err(WouldBlock) && lock.held && native.calls == old(native.calls)
    ensures !old(lock.held) ==> !(r.Err? && r.error.WouldBlock?)
    ensures !old(lock.held) && r.Ok? ==> InitOutcome(hints, lock, native, old(native.calls), Ok(r.value))
    ensures !old(lock.held) && r.Err? ==> InitOutcome(hints, lock, native, old(native.calls), Err(r.error.initError))
    ensures r.Ok? ==> fresh(r.value) && fresh(r.value.terminate) && r.value.Valid()
  {
    var acquired := lock.TryLock();
    if !acquired {
      return Err(WouldBlock);
    }
    var s := Initialize(hints, lock, native);
    match s
    case Ok(glfw) => r := Ok(glfw);
    case Err(e) => r := Err(InitFailed(e));
  }

  // ---------------------------------------------------------------- Glfw

  /** `create_window` forwards `ClientApi` hints only, as `GLFW_CLIENT_API`
      with the API's discriminant. */
  function WindowHintCall(h: WindowHint): Option<HintPair> {
    match h
    case ClientApiHint(c) => Some((GLFW_CLIENT_API, ClientApiCode(c)))
    case _ => None
  }

  /** The walk `create_window` makes over the caller's window hints. */
  function WindowWalk(native: Library, hints: seq<WindowHint>): Walk<WindowHint> {
    HintWalk(hints, WindowHintCall, native.windowHintError)
  }

  /** Every pair `create_window` forwards is a `GLFW_CLIENT_API` hint whose
      value is one of the three client APIs. */
  lemma WindowForwardsOnlyClientApi(native: Library, hints: seq<WindowHint>, pair: HintPair)
    requires pair in WindowWalk(native, hints).forwarded
    ensures pair.0 == GLFW_CLIENT_API
    ensures pair.1 in {GLFW_OPENGL_API, GLFW_OPENGL_ES_API, GLFW_NO_API}
  {
    ForwardedFromHints(hints, WindowHintCall, native.windowHintError, pair);
  }

  /** `CreateWindowError`. */
  datatype CreateWindowError = HintRejected(hint: WindowHint, error: Error) | CreateFailed(error: Error)

  /** How `create_window` ends: a window, an error, or the panic of
      `CString::new` on a title holding a NUL character. */
  datatype CreateOutcome = Created(window: Window) | Failed(error: CreateWindowError) | Panicked

  /** The monitor pointer `create_window` passes: the monitor's handle, or null. */
  function MonitorPtr(monitor: Option<Monitor>): (p: Ptr)
    ensures monitor.None? ==> p == NULL
    ensures monitor.Some? ==> p == monitor.value.ptr
  {
    if monitor.Some? then monitor.value.ptr else NULL
  }

  /** The share pointer `create_window` passes: the window's handle, or null. */
  function SharePtr(shareWith: Option<Window>): (p: Ptr)
    ensures shareWith.None? ==> p == NULL
    ensures shareWith.Some? ==> p == shareWith.value.ptr
  {
    if shareWith.Some? then shareWith.value.ptr else NULL
  }

  /** `glfw3::Glfw`: a share of the token. */
  class Glfw {
    const terminate: Terminate
    ghost const share: nat
    var dropped: bool

    ghost predicate Valid()
      reads this, terminate, terminate.lock
    {
      terminate.Valid() && (!dropped ==> share in terminate.holders)
    }

    constructor (terminate: Terminate, ghost share: nat)
      requires terminate.Valid() && share in terminate.holders
      ensures this.terminate == terminate && this.share == share && !dropped
      ensures Valid()
    {
      this.terminate := terminate;
      this.share := share;
      dropped := false;
    }

    /** Dropping the `Glfw` value drops its share of the token; `glfwTerminate`
        runs if it was the last one. */
    method Drop()
      requires Valid() && !dropped
      modifies this, terminate, terminate.lock, terminate.native
      ensures dropped && terminate.Valid()
      ensures terminate.holders == old(terminate.holders) - {share}
      ensures terminate.strong == old(terminate.strong) - 1
      ensures terminate.native.calls == old(terminate.native.calls)
        + (if terminate.strong == 0 then [Call.Terminate] else [])
      ensures terminate.lock.held <==> terminate.strong > 0
    {
      terminate.Release(share);
      dropped := true;
    }

    /** `create_window`: resets the window hints, forwards the caller's
        `ClientApi` hints (stopping at the first rejected one), converts the
        title, creates the window with the given monitor and share window (or
        null), and on success installs the callbacks and hands the new
        `Window` a fresh share of the token. A window pointer the native side
        returns together with an error is not destroyed. */
    method CreateWindow(hints: seq<WindowHint>, width: Int32, height: Int32, title: string,
                        monitor: Option<Monitor>, shareWith: Option<Window>) returns (r: CreateOutcome)
      requires Valid() && !dropped
      modifies terminate, terminate.native
      ensures Valid()
      ensures WindowWalk(terminate.native, hints).failure.Some? ==>
        && r == Failed(HintRejected(WindowWalk(terminate.native, hints).failure.value.0,
                                    WindowWalk(terminate.native, hints).failure.value.1))
        && terminate.native.calls == old(terminate.native.calls) + [Call.DefaultWindowHints]
             + HintCalls(WindowHints, WindowWalk(terminate.native, hints).forwarded)
      ensures WindowWalk(terminate.native, hints).failure.None? && '\0' in title ==>
        && r == Panicked
        && terminate.native.calls == old(terminate.native.calls) + [Call.DefaultWindowHints]
             + HintCalls(WindowHints, WindowWalk(terminate.native, hints).forwarded)
      ensures WindowWalk(terminate.native, hints).failure.None? && '\0' !in title ==>
        var (ptr, err) := terminate.native.createWindow(width, height, title, MonitorPtr(monitor), SharePtr(shareWith));
        var created := old(terminate.native.calls) + [Call.DefaultWindowHints]
          + HintCalls(WindowHints, WindowWalk(terminate.native, hints).forwarded)
          + [Call.CreateWindow(width, height, title, MonitorPtr(monitor), SharePtr(shareWith))];
        && (err.Some? ==> r == Failed(CreateFailed(err.value)) && terminate.native.calls == created)
        && (err.None? ==> r.Created? && r.window.ptr == ptr && terminate.native.calls == created + [Call.SetWindowCallbacks(ptr)])
      ensures r.Created? ==>
        && fresh(r.window) && r.window.terminate == terminate && !r.window.dropped && r.window.Valid()
        && r.window.share !in old(terminate.holders)
        && terminate.holders == old(terminate.holders) + {r.window.share}
        && terminate.strong == old(terminate.strong) + 1
      ensures !r.Created? ==> terminate.holders == old(terminate.holders) && terminate.strong == old(terminate.strong)
    {
      terminate.native.Record(Call.DefaultWindowHints);
      var failure := ApplyHints(terminate.native, WindowHints, hints, WindowHintCall);
      if failure.Some? {
        return Failed(HintRejected(failure.value.0, failure.value.1));
      }
      if '\0' in title {
        return Panicked;
      }
      var monitorPtr, sharePtr := MonitorPtr(monitor), SharePtr(shareWith);
      var ptr, err := terminate.native.CreateWindow(width, height, title, monitorPtr, sharePtr);
      if err.Some? {
        return Failed(CreateFailed(err.value));
      }
      terminate.native.Record(Call.SetWindowCallbacks(ptr));
      ghost var s := terminate.Clone();
      var window := new Window(ptr, terminate, s);
      return Created(window);
    }

    /** `get_monitors`: one `Monitor` per entry of the native array, in order,
        each with its own fresh share of the token. */
    method GetMonitors() returns (monitors: seq<Monitor>)
      requires Valid() && !dropped
      modifies terminate, terminate.native
      ensures Valid()
      ensures terminate.native.calls == old(terminate.native.calls) + [Call.GetMonitors]
      ensures |monitors| == |terminate.native.monitors|
      ensures forall i :: 0 <= i < |monitors| ==>
        && fresh(monitors[i]) && monitors[i].ptr == terminate.native.monitors[i]
        && monitors[i].terminate == terminate && !monitors[i].dropped
        && monitors[i].share in terminate.holders && monitors[i].share !in old(terminate.holders)
      ensures forall i, j :: 0 <= i < j < |monitors| ==> monitors[i].share != monitors[j].share
      ensures old(terminate.holders) <= terminate.holders
      ensures terminate.strong == old(terminate.strong) + |monitors|
    {
      terminate.native.Record(Call.GetMonitors);
      var ptrs := terminate.native.monitors;
      monitors := [];
      var i := 0;
      while i < |ptrs|
        invariant 0 <= i <= |ptrs| && |monitors| == i
        invariant Valid()
        invariant terminate.native.calls == old(terminate.native.calls) + [Call.GetMonitors]
        invariant old(terminate.holders) <= terminate.holders
        invariant terminate.strong == old(terminate.strong) + i
        invariant forall k :: 0 <= k < i ==>
          && fresh(monitors[k]) && monitors[k].ptr == ptrs[k]
          && monitors[k].terminate == terminate && !monitors[k].dropped
          && monitors[k].share in terminate.holders && monitors[k].share !in old(terminate.holders)
        invariant forall k, l :: 0 <= k < l < i ==> monitors[k].share != monitors[l].share
      {
        ghost var s := terminate.Clone();
        var m := new Monitor(ptrs[i], terminate, s);
        monitors := monitors + [m];
        i := i + 1;
      }
    }

    /** The body shared by the three event functions: install the handler,
        let the native call run (it fires `fired`, each through its
        trampoline), report the error it left, and drop the guard, which
        empties the slot on either path. */
    method ProcessEvents(slot: HandlerSlot, handler: EventHandler, callbackPtr: Ptr, call: Call,
                         fired: seq<Fired>, nativeError: Option<Error>) returns (r: Result<(), Error>)
      requires Valid() && !dropped
      modifies slot, terminate.native
      ensures slot.entry == None
      ensures slot.observed == old(slot.observed) + Received(Entry(handler, callbackPtr), Dispatches(fired))
      ensures terminate.native.calls == old(terminate.native.calls) + [call]
      ensures nativeError.Some? ==> r == Err(nativeError.value)
      ensures nativeError.None? ==> r == Ok(())
    {
      var guard := slot.SetHandler(handler, callbackPtr);
      terminate.native.Record(call);
      var i := 0;
      while i < |fired|
        invariant 0 <= i <= |fired|
        invariant slot.entry == Some(Entry(handler, callbackPtr))
        invariant slot.observed == old(slot.observed) + Received(Entry(handler, callbackPtr), Dispatches(fired[..i]))
        invariant terminate.native.calls == old(terminate.native.calls) + [call]
      {
        assert fired[..i + 1][..i] == fired[..i];
        ReceivedAppend(Entry(handler, callbackPtr), Dispatches(fired[..i]), Dispatches(fired[i..i + 1]));
        slot.RunTrampoline(fired[i]);
        i := i + 1;
      }
      assert fired[..i] == fired;
      r := if nativeError.Some? then Err(nativeError.value) else Ok(());
      guard.Drop();
    }

    /** `poll_events`. */
    method PollEvents(slot: HandlerSlot, handler: EventHandler, callbackPtr: Ptr,
                      fired: seq<Fired>, nativeError: Option<Error>) returns (r: Result<(), Error>)
      requires Valid() && !dropped
      modifies slot, terminate.native
      ensures slot.entry == None
      ensures slot.observed == old(slot.observed) + Received(Entry(handler, callbackPtr), Dispatches(fired))
      ensures terminate.native.calls == old(terminate.native.calls) + [Call.PollEvents]
      ensures nativeError.Some? ==> r == Err(nativeError.value)
      ensures nativeError.None? ==> r == Ok(())
    {
      r := ProcessEvents(slot, handler, callbackPtr, Call.PollEvents, fired, nativeError);
    }

    /** `wait_events`. */
    method WaitEvents(slot: HandlerSlot, handler: EventHandler, callbackPtr: Ptr,
                      fired: seq<Fired>, nativeError: Option<Error>) returns (r: Result<(), Error>)
      requires Valid() && !dropped
      modifies slot, terminate.native
      ensures slot.entry == None
      ensures slot.observed == old(slot.observed) + Received(Entry(handler, callbackPtr), Dispatches(fired))
      ensures terminate.native.calls == old(terminate.native.calls) + [Call.WaitEvents]
      ensures nativeError.Some? ==> r == Err(nativeError.value)
      ensures nativeError.None? ==> r == Ok(())
    {
      r := ProcessEvents(slot, handler, callbackPtr, Call.WaitEvents, fired, nativeError);
    }

    /** `wait_events_timeout`; the timeout is the already converted seconds. */
    method WaitEventsTimeout(timeout: F64, slot: HandlerSlot, handler: EventHandler, callbackPtr: Ptr,
                             fired: seq<Fired>, nativeError: Option<Error>) returns (r: Result<(), Error>)
      requires Valid() && !dropped
      modifies slot, terminate.native
      ensures slot.entry == None
      ensures slot.observed == old(slot.observed) + Received(Entry(handler, callbackPtr), Dispatches(fired))
      ensures terminate.native.calls == old(terminate.native.calls) + [Call.WaitEventsTimeout(timeout)]
      ensures nativeError.Some? ==> r == Err(nativeError.value)
      ensures nativeError.None? ==> r == Ok(())
    {
      r := ProcessEvents(slot, handler, callbackPtr, Call.WaitEventsTimeout(timeout), fired, nativeError);
    }
  }

  /** `glfw3::Monitor`: the native handle and a share of the token. */
  class Monitor {
    const ptr: Ptr
    const terminate: Terminate
    ghost const share: nat
    var dropped: bool

    ghost predicate Valid()
      reads this, terminate, terminate.lock
    {
      terminate.Valid() && (!dropped ==> share in terminate.holders)
    }

    constructor (ptr: Ptr, terminate: Terminate, ghost share: nat)
      requires terminate.Valid() && share in terminate.holders
      ensures this.ptr == ptr && this.terminate == terminate && this.share == share && !dropped
      ensures Valid()
    {
      this.ptr := ptr;
      this.terminate := terminate;
      this.share := share;
      dropped := false;
    }

    /** Dropping a `Monitor` drops its share of the token only; the native
        monitor is owned by the library. */
    method Drop()
      requires Valid() && !dropped
      modifies this, terminate, terminate.lock, terminate.native
      ensures dropped && terminate.Valid()
      ensures terminate.holders == old(terminate.holders) - {share}
      ensures terminate.strong == old(terminate.strong) - 1
      ensures terminate.native.calls == old(terminate.native.calls)
        + (if terminate.strong == 0 then [Call.Terminate] else [])
      ensures terminate.lock.held <==> terminate.strong > 0
    {
      terminate.Release(share);
      dropped := true;
    }
  }
}
