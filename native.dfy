/** The native GLFW library as the wrapper sees it. The native entry points
    the wrapper calls are recorded in `calls`, in order, with two exceptions:
    the `glfwGetError` that follows a call is folded into that call's answer,
    and the `glfwGetTime` of a trampoline arrives as the time of the fired
    callback. What the native side answers (the error reported right after a
    call, the window pointer `glfwCreateWindow` returns, ...) is given by fixed
    oracles chosen when the library value is created. Nothing about GLFW's own
    behaviour is modelled beyond these answers. */
module Native {
  import opened Ffi

  /** A call into the native library. */
  datatype Call =
    | InitHint(hint: Int32, value: Int32)
    | Init
    | SetMonitorCallback
    | Terminate
    | DefaultWindowHints
    | WindowHint(hint: Int32, value: Int32)
    | CreateWindow(width: Int32, height: Int32, title: string, monitor: Ptr, share: Ptr)
    | SetWindowCallbacks(window: Ptr)
    | DestroyWindow(window: Ptr)
    | GetMonitors
    | PollEvents
    | WaitEvents
    | WaitEventsTimeout(timeout: F64)

  /** A `(hint, value)` pair as passed to a native hint setter. */
  type HintPair = (Int32, Int32)

  /** Which native hint setter a hint goes to. */
  datatype HintTarget = InitHints | WindowHints

  class Library {
    /** Error reported after `glfwInitHint(hint, value)`, if any. */
    const initHintError: HintPair -> Option<Error>
    /** Whether `glfwInit` returns `GLFW_TRUE`. */
    const initSucceeds: bool
    /** Error reported after a failed `glfwInit`, if any. */
    const initError: Option<Error>
    /** Error reported after `glfwSetMonitorCallback`, if any. */
    const monitorCallbackError: Option<Error>
    /** Error reported after `glfwWindowHint(hint, value)`, if any. */
    const windowHintError: HintPair -> Option<Error>
    /** The pointer `glfwCreateWindow` returns and the error reported after it. */
    const createWindow: (Int32, Int32, string, Ptr, Ptr) -> (Ptr, Option<Error>)
    /** The monitor array `glfwGetMonitors` hands out. */
    const monitors: seq<Ptr>

    /** The native calls made so far, oldest first. */
    var calls: seq<Call>

    constructor (initHintError: HintPair -> Option<Error>, initSucceeds: bool,
                 initError: Option<Error>, monitorCallbackError: Option<Error>,
                 windowHintError: HintPair -> Option<Error>,
                 createWindow: (Int32, Int32, string, Ptr, Ptr) -> (Ptr, Option<Error>),
                 monitors: seq<Ptr>)
      ensures this.initHintError == initHintError && this.initSucceeds == initSucceeds
      ensures this.initError == initError && this.monitorCallbackError == monitorCallbackError
      ensures this.windowHintError == windowHintError && this.createWindow == createWindow
      ensures this.monitors == monitors
      ensures calls == []
    {
      this.initHintError := initHintError;
      this.initSucceeds := initSucceeds;
      this.initError := initError;
      this.monitorCallbackError := monitorCallbackError;
      this.windowHintError := windowHintError;
      this.createWindow := createWindow;
      this.monitors := monitors;
      calls := [];
    }

    /** The error oracle of the hint setter `target`. */
    function HintError(target: HintTarget): HintPair -> Option<Error> {
      match target
      case InitHints => initHintError
      case WindowHints => windowHintError
    }

    /** `glfwInitHint` or `glfwWindowHint`, followed by `glfwGetError`. */
    method SetHint(target: HintTarget, hint: Int32, value: Int32) returns (err: Option<Error>)
      modifies this
      ensures calls == old(calls) + [HintCall(target, hint, value)]
      ensures err == HintError(target)((hint, value))
    {
      calls := calls + [HintCall(target, hint, value)];
      err := HintError(target)((hint, value));
    }

    /** `glfwInit`; `ok` is whether it returned `GLFW_TRUE`. */
    method Init() returns (ok: bool)
      modifies this
      ensures calls == old(calls) + [Call.Init] && ok == initSucceeds
    {
      calls := calls + [Call.Init];
      ok := initSucceeds;
    }

    /** `glfwSetMonitorCallback`, followed by `glfwGetError`. */
    method SetMonitorCallback() returns (err: Option<Error>)
      modifies this
      ensures calls == old(calls) + [Call.SetMonitorCallback] && err == monitorCallbackError
    {
      calls := calls + [Call.SetMonitorCallback];
      err := monitorCallbackError;
    }

    /** Any other call whose answer the wrapper does not inspect. */
    method Record(c: Call)
      modifies this
      ensures calls == old(calls) + [c]
    {
      calls := calls + [c];
    }

    /** `glfwCreateWindow`, followed by `glfwGetError`. */
    method CreateWindow(width: Int32, height: Int32, title: string, monitor: Ptr, share: Ptr)
      returns (window: Ptr, err: Option<Error>)
      modifies this
      ensures calls == old(calls) + [Call.CreateWindow(width, height, title, monitor, share)]
      ensures (window, err) == createWindow(width, height, title, monitor, share)
    {
      calls := calls + [Call.CreateWindow(width, height, title, monitor, share)];
      window, err := createWindow(width, height, title, monitor, share).0, createWindow(width, height, title, monitor, share).1;
    }
  }

  /** The call a hint setter makes. */
  function HintCall(target: HintTarget, hint: Int32, value: Int32): Call {
    match target
    case InitHints => Call.InitHint(hint, value)
    case WindowHints => Call.WindowHint(hint, value)
  }

  /** The calls made for a sequence of forwarded `(hint, value)` pairs. */
  function HintCalls(target: HintTarget, forwarded: seq<HintPair>): (cs: seq<Call>)
    ensures |cs| == |forwarded|
    ensures forall i :: 0 <= i < |forwarded| ==> cs[i] == HintCall(target, forwarded[i].0, forwarded[i].1)
  {
    seq(|forwarded|, i requires 0 <= i < |forwarded| => HintCall(target, forwarded[i].0, forwarded[i].1))
  }
}
