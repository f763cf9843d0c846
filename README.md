# glfw3 safe wrapper — a Dafny model of its core

`glfw3` is a thin safe Rust wrapper over the native GLFW 3.4 library. This
project models the wrapper's own logic, that is, the parts that are not just
a call into C:

- **Decoders.** These turn native integers into Rust enums: `Key`,
  `MouseButton`, `Action` and `Platform` `try_from`.
- **`get_platform`.** It maps the native platform value to a `Platform`.
- **Modifier truncation.** `Modifiers::from_bits_truncate` clears unknown bits.
- **The seventeen trampolines.** These are the callbacks GLFW calls during
  event processing. Each one builds one window event and hands it to the
  active handler, or logs a warning and drops the callback.
- **The `HANDLER` slot.** It holds the handler of the running `poll_events`
  call. `set_handler` fills it and returns an `UnsetHandlerGuard`, and the
  guard's drop clears it.
- **Library lifecycle.**
  - `initialize` and `try_init` walk the default and caller init hints.
  - `create_window` walks the caller's window hints.
  - `get_monitors` builds `Monitor` values.
  - The reference-counted `Terminate` token is shared by `Glfw`, every
    `Window` and every `Monitor`. It runs `glfwTerminate` and releases the
    `INIT` lock when the last holder is dropped.
  - `Window` destroys its native handle on drop unless the handle is null.

The native library is represented by the class `Native.Library`:

- It logs the native calls the wrapper makes, in order (`calls`). Two kinds
  are not logged as calls of their own. The `glfwGetError` that follows a
  call is folded into that call's answer. The `glfwGetTime` each trampoline
  makes arrives as the `time` of the fired callback (`Events.Fired`).
- Its answers are fixed oracles chosen when it is created. These are:
  - the error reported after each init hint, and after each window hint;
  - whether `glfwInit` succeeds, and the error reported after a failed one;
  - the error reported after `glfwSetMonitorCallback`;
  - the window pointer `glfwCreateWindow` returns, and the error reported
    after it;
  - the monitor array `glfwGetMonitors` hands out.
- Event processing is different. The callbacks GLFW fires during one
  `poll_events` / `wait_events` call, and the error it leaves behind, are
  parameters of that call.

Modules, one per file:

| module | file |
|---|---|
| `Ffi` | `ffi.dfy` |
| `Keys` | `keys.dfy` |
| `Input` | `input.dfy` |
| `Native` | `native.dfy` |
| `Termination` | `terminate.dfy` |
| `Windows` | `window.dfy` |
| `Events` | `events.dfy` |
| `Callbacks` | `callbacks.dfy` |
| `Lifecycle` | `lifecycle.dfy` |

### Representation choices

- **`Key`.** It is `#[repr(i32)]` and `try_from` is a `transmute`, so a key is
  its discriminant. `Keys.Key` is the subset of `Int32` made of the 121
  discriminants, each with a named constant.
- **Trampolines.** They appear twice in the source: `lib.rs:930-1153` and
  `callbacks.rs:68-291`, identical apart from the module qualifier:
  `lib.rs` calls `callbacks::call_handler` where `callbacks.rs` calls
  `call_handler`. They are modelled once,
  and the rows below cite `callbacks.rs`.
- **`Window` and `WindowId`.** These follow the split-out `window.rs`, which
  has the null check in `Drop`. `lib.rs:389-443` has an older copy without
  the check.
- **Hints.** The code forwards only `InitHint::Platform` and
  `WindowHint::ClientApi`. Every other hint is accepted and ignored, not
  applied, and the model follows the code.
- **Rc ownership.** `Terminate` keeps the `Rc`'s strong count. Alongside it
  is a ghost set of live holder ids, one per `Glfw`, `Window` or `Monitor`.

## Model

Paths are relative to the repository root.

| member | source | states |
|---|---|---|
| Keys.KeyDecode | crates/glfw3/src/lib.rs:754-780 | `Key::try_from(v)` is `Ok` exactly when `v` is the discriminant of a `Key` variant other than `Unknown`, and then yields that variant. Otherwise it is `Err(v)` with the input unchanged. |
| Keys.KeyTryFrom | crates/glfw3/src/lib.rs:757-779 | The loop over the 13-range table, which returns at the first range containing the value, computes exactly `KeyDecode`. |
| Keys.KeyRangesHoldVariants | crates/glfw3/src/lib.rs:617-772 | Every integer in one of the 13 ranges is the discriminant of some variant, and never that of `Unknown`. So the `transmute` is sound. |
| Keys.VariantsInKeyRanges | crates/glfw3/src/lib.rs:617-772 | Every variant except `Unknown` lies in one of the 13 ranges. No key is unreachable. |
| Keys.KeyRangesMatchVariants | crates/glfw3/src/lib.rs:617-772 | An integer is in the range table if and only if it is a discriminant other than `Unknown`. |
| Keys.KeyDecodeRoundTrip | crates/glfw3/src/lib.rs:617-780 | Decoding the discriminant of any variant other than `Unknown` yields that variant. |
| Keys.KeyUnknownRejected | crates/glfw3/src/lib.rs:751-780 | `GLFW_KEY_UNKNOWN` (-1) is rejected with `Err(-1)`, even though `Key::Unknown` exists. |
| Input.MouseButtonOfCode | crates/glfw3/src/lib.rs:791-814 | The `transmute` of a value in `[MOUSE_BUTTON_1, MOUSE_BUTTON_LAST]` is the button whose discriminant is that value. |
| Input.MouseButtonDecode | crates/glfw3/src/lib.rs:805-814 | Accepts exactly the eight discriminants 0..7, returning the button with that discriminant. Rejects everything else with `Err(v)`. |
| Input.MouseButtonRoundTrip | crates/glfw3/src/lib.rs:791-814 | Decoding a button's discriminant yields that button. |
| Input.ActionOfCode | crates/glfw3/src/lib.rs:870-885 | The `transmute` of `RELEASE`, `PRESS` or `REPEAT` is the action with that discriminant. |
| Input.ActionDecode | crates/glfw3/src/lib.rs:876-885 | Accepts exactly `[RELEASE, REPEAT]` with the matching action. Rejects everything else with `Err(v)`. |
| Input.ActionRoundTrip | crates/glfw3/src/lib.rs:870-885 | Decoding an action's discriminant yields that action. |
| Input.PlatformOfCode | crates/glfw3/src/lib.rs:97-118 | The `transmute` of a value in `ANY..NULL` is the platform with that discriminant. |
| Input.PlatformDecode | crates/glfw3/src/lib.rs:108-118 | Accepts exactly the contiguous range `GLFW_ANY_PLATFORM..GLFW_PLATFORM_NULL`, `Any` included. Rejects everything else with `Err(v)`. |
| Input.PlatformRoundTrip | crates/glfw3/src/lib.rs:97-118 | Decoding a platform's discriminant yields that platform. |
| Input.GetPlatform | crates/glfw3/src/lib.rs:258-276 | `get_platform` returns a platform exactly when the native value is the discriminant of one of the five concrete platforms, and returns that platform. On anything else, `Any` included, it panics (`None`). |
| Input.GetPlatformAgreesWithDecode | crates/glfw3/src/lib.rs:258-276 | `get_platform` and `Platform::try_from` agree on every concrete platform. They differ only on `GLFW_ANY_PLATFORM`, which `try_from` accepts and `get_platform` rejects. |
| Input.FromBitsTruncate | crates/glfw3/src/lib.rs:855-866 | The result keeps each of the six named flags exactly when the input has it. It has no other bits, and it is a subset of the input's bits. |
| Input.FromBitsTruncateIdempotent | crates/glfw3/src/lib.rs:855-866 | Truncating twice equals truncating once. |
| Termination.InitLock.TryLock | crates/glfw3/src/lib.rs:236-240 | `INIT.try_lock()` succeeds exactly when the lock was free. Afterwards the lock is held. |
| Termination.InitLock.Unlock | crates/glfw3/src/lib.rs:54-60 | Dropping the `InitGuard` frees the lock. |
| Termination.Terminate.constructor | crates/glfw3/src/lib.rs:194-199 | `Rc::new(Terminate { _init_guard })` starts with one holder and takes over the held lock. |
| Termination.Terminate.Clone | crates/glfw3/src/lib.rs:311 | `Rc::clone` adds one holder, distinct from every live one. |
| Termination.Terminate.Release | crates/glfw3/src/lib.rs:67-76 | Dropping a holder lowers the count by one. The last drop calls `glfwTerminate`, whose error is only logged, then frees the lock. Any other drop calls nothing and keeps the lock. |
| Termination.Terminate.AliveWhileHeld | crates/glfw3/src/lib.rs:54-58 | While any holder is alive, the strong count is positive and the lock stays held. |
| Termination.Terminate.ReleaseWhileShared | crates/glfw3/src/lib.rs:54-76 | Dropping one handle while another is still alive does not call `glfwTerminate` and keeps the lock held. |
| Windows.WindowIdRoundTrip | crates/glfw3/src/window.rs:12-20 | `window_ptr` / `window_mut_ptr` of `WindowId(p as usize)` give back `p`, and the id of an id's pointer is that id. |
| Windows.Compare | crates/glfw3/src/window.rs:8-10 | The derived `Ord` on `WindowId` is exactly the order of the wrapped integer: equal, less or greater. |
| Windows.CompareAntisymmetric | crates/glfw3/src/window.rs:8-10 | Swapping the arguments swaps `Less` and `Greater`, and two pointers with the same id are the same pointer. |
| Windows.Window.constructor | crates/glfw3/src/window.rs:22-25 | A `Window` is its handle together with one live share of the `Terminate` token; it starts valid. |
| Windows.Window.Id | crates/glfw3/src/window.rs:28-30 | `window_id` is the handle's address as an integer. |
| Windows.Window.Drop | crates/glfw3/src/window.rs:47-57 | `glfwDestroyWindow` is called exactly when the handle is non-null, and no error is propagated. Then the window's share of the token is dropped. If that was the last share, `glfwTerminate` follows and the lock is freed. Drop runs at most once. |
| Events.CollectDropPaths | crates/glfw3/src/callbacks.rs:134-142 | The drop trampoline's loop pushes exactly the valid paths, in order. |
| Events.ValidPathsLength | crates/glfw3/src/callbacks.rs:128-146 | The path list is never longer than `count`. |
| Events.ValidPathsMembers | crates/glfw3/src/callbacks.rs:136-142 | A path is delivered if and only if it arrived valid. |
| Events.ValidPathsAppend | crates/glfw3/src/callbacks.rs:136-142 | Filtering keeps order: the paths of a concatenation are those of each part, one after the other. |
| Events.TrampolineEvent | crates/glfw3/src/callbacks.rs:68-271 | Only the key and mouse-button trampolines can drop a callback. Every other trampoline always builds an event. |
| Events.Trampoline | crates/glfw3/src/callbacks.rs:68-271 | A trampoline dispatches exactly when it builds an event. It then dispatches to `WindowId(window as usize)`, stamped with the time it read, and carries exactly the event the trampoline built. |
| Events.KeyTrampoline | crates/glfw3/src/callbacks.rs:74-108 | `key_callback` dispatches if and only if the key decodes (a non-`Unknown` discriminant) and the action is in `0..2`. The event then carries those values, the truncated modifiers and the unchanged scancode. In the three failure combinations it dispatches nothing. |
| Events.MouseButtonTrampoline | crates/glfw3/src/callbacks.rs:194-227 | `mouse_button_callback` dispatches if and only if the button is in `0..7` and the action in `0..2`, carrying the decoded values and the truncated modifiers. Otherwise it dispatches nothing. |
| Events.DropTrampoline | crates/glfw3/src/callbacks.rs:128-146 | `drop_callback` always dispatches one `FileDrop`. It holds no more paths than were received, and exactly the valid ones. |
| Events.DropOneValidOneInvalid | crates/glfw3/src/callbacks.rs:136-142 | With one valid and one invalid path, in either order, exactly the valid path is delivered. |
| Events.CursorEnterTrampoline | crates/glfw3/src/callbacks.rs:188-192 | Zero is `false`; every other `int` is `true`. |
| Events.FocusTrampoline | crates/glfw3/src/callbacks.rs:235-239 | Zero is `false`; every other `int` is `true`. |
| Events.IconifyTrampoline | crates/glfw3/src/callbacks.rs:241-245 | Zero is `false`; every other `int` is `true`. |
| Events.MaximizeTrampoline | crates/glfw3/src/callbacks.rs:267-271 | Zero is `false`; every other `int` is `true`. |
| Events.DispatchesFromCallbacks | crates/glfw3/src/callbacks.rs:68-271 | A run of callbacks dispatches at most one event per callback. Every dispatch is the one some callback of the run produced. |
| Callbacks.HandlerSlot.constructor | crates/glfw3/src/callbacks.rs:14-16 | The slot starts empty. |
| Callbacks.HandlerSlot.SetHandler | crates/glfw3/src/callbacks.rs:40-66 | `set_handler` stores `Some((handler, ptr))`, overwriting any previous entry unchecked. It returns a guard bound to the slot. |
| Callbacks.HandlerSlot.CallHandler | crates/glfw3/src/callbacks.rs:30-38 | With an empty slot, `call_handler` returns `Some(event)` unchanged. With a handler installed, it returns exactly that handler's answer for `(window_id, event)`. It never changes the slot. |
| Callbacks.HandlerSlot.RunTrampoline | crates/glfw3/src/callbacks.rs:68-72 | A trampoline leaves the slot as it is, and the installed entry (handler and closure pointer) receives exactly the dispatch the trampoline makes; with no entry nothing is received. |
| Callbacks.UnsetHandlerGuard.Drop | crates/glfw3/src/callbacks.rs:22-28 | The guard's drop empties the slot unconditionally. |
| Callbacks.NestedInstall | crates/glfw3/src/callbacks.rs:22-61 | After a nested `set_handler` and the inner guard's drop, the slot is empty, not restored. A later `call_handler` passes the event through. |
| Lifecycle.WalkStops | crates/glfw3/src/lib.rs:183-191 | Once a hint is rejected (the `?`), later hints are neither forwarded nor inspected. |
| Lifecycle.WalkOutcome | crates/glfw3/src/lib.rs:183-191 | A hint loop fails if and only if some forwarded hint is rejected. It then fails at the first rejected hint, with that hint and its native error, after forwarding the selected pairs up to and including it. Otherwise it forwards the pair of every selected hint, in order. |
| Lifecycle.ForwardedFromHints | crates/glfw3/src/lib.rs:183-191 | Every forwarded pair is the translation of one of the hints. |
| Lifecycle.ApplyHints | crates/glfw3/src/lib.rs:183-191 | The hint loop shared by `initialize` and `create_window` (lines 293-301). It makes exactly the native hint calls of the walk, in order, and returns its failure. |
| Lifecycle.DefaultsForwardAnyPlatform | crates/glfw3/src/lib.rs:155-165 | Of the seven default hints only `Platform(Any)` is forwarded, as `(GLFW_PLATFORM, GLFW_ANY_PLATFORM)`. |
| Lifecycle.DefaultPlatformFirst | crates/glfw3/src/lib.rs:181-191 | For any caller hints, the forwarded pairs are the default platform followed by the caller's `Platform` hints in order. |
| Lifecycle.NoCallerPlatformKeepsAny | crates/glfw3/src/lib.rs:181-191 | Without a caller `Platform` hint, only the default `GLFW_ANY_PLATFORM` is forwarded. |
| Lifecycle.CallerPlatformWins | crates/glfw3/src/lib.rs:181-191 | The caller's last `Platform` hint is forwarded last, and wins. |
| Lifecycle.InitForwardsOnlyPlatform | crates/glfw3/src/lib.rs:183-191 | `initialize` forwards only `GLFW_PLATFORM` hints. |
| Lifecycle.InitFailure | crates/glfw3/src/lib.rs:174-179 | A failed `glfwInit` is reported with the native error, or with code -1, desc "Unknown error" when none is set. |
| Lifecycle.Initialize | crates/glfw3/src/lib.rs:181-207 | Hints are walked defaults first. The first rejected hint aborts with `InitError::Hint(hint, err)` and the lock freed. A failed `glfwInit` gives `InitError::Init`, with the lock freed and terminate not called. A monitor-callback error after a successful init drops the token, so `glfwTerminate` runs and the lock is freed. On success there is one fresh holder and the lock stays held. The native calls are exactly those. |
| Lifecycle.TryInit | crates/glfw3/src/lib.rs:236-242 | With the lock taken, `WouldBlock` is returned and nothing is called. Otherwise the result is exactly `initialize`'s. |
| Lifecycle.WindowForwardsOnlyClientApi | crates/glfw3/src/lib.rs:293-301 | `create_window` forwards only `GLFW_CLIENT_API` hints, with one of the three client-API constants. |
| Lifecycle.MonitorPtr | crates/glfw3/src/lib.rs:303 | No monitor means the null pointer; a monitor means its handle. |
| Lifecycle.SharePtr | crates/glfw3/src/lib.rs:304 | No share window means the null pointer; a share window means its handle. |
| Lifecycle.Glfw.constructor | crates/glfw3/src/lib.rs:194-199 | A `Glfw` holds a live share of the token; it starts valid. |
| Lifecycle.Glfw.Drop | crates/glfw3/src/lib.rs:62-76 | Dropping `Glfw` drops its share. The last share runs `glfwTerminate` and frees the lock. |
| Lifecycle.Glfw.CreateWindow | crates/glfw3/src/lib.rs:281-314 | `glfwDefaultWindowHints` comes first, then the `ClientApi` hints; the first rejection aborts with `CreateWindowError::Hint`. A NUL in the title panics. The create call then receives the monitor and share pointers, or null. A create error gives `CreateWindowError::CreateWindow`, with no destroy and no new holder. On success the callbacks are installed and the new `Window` gets one fresh share. |
| Lifecycle.Glfw.GetMonitors | crates/glfw3/src/lib.rs:317-332 | One `Monitor` per native array entry, in order. Each has its own fresh share, and the count rises by the number of monitors. |
| Lifecycle.Glfw.ProcessEvents | crates/glfw3/src/lib.rs:348-358 | Installs the caller's handler, makes the native call, and each dispatch of the fired callbacks is received, in firing order, by exactly the caller's handler and closure pointer. The native error is returned, and the slot is empty afterwards on both paths. |
| Lifecycle.Glfw.PollEvents | crates/glfw3/src/lib.rs:348-358 | `poll_events` is `ProcessEvents` with `glfwPollEvents`: the caller's handler receives every dispatch, in order. |
| Lifecycle.Glfw.WaitEvents | crates/glfw3/src/lib.rs:360-370 | `wait_events` is `ProcessEvents` with `glfwWaitEvents`: the caller's handler receives every dispatch, in order. |
| Lifecycle.Glfw.WaitEventsTimeout | crates/glfw3/src/lib.rs:372-386 | `wait_events_timeout` is `ProcessEvents` with `glfwWaitEventsTimeout(timeout)`: the caller's handler receives every dispatch, in order. |
| Lifecycle.Monitor.constructor | crates/glfw3/src/lib.rs:414-417 | A `Monitor` is its handle together with one live share of the token; it starts valid. |
| Lifecycle.Monitor.Drop | crates/glfw3/src/lib.rs:414-417 | Dropping a `Monitor` only drops its share. The last share runs `glfwTerminate` and frees the lock. |

## Left out

- **Native GLFW calls.** All of them are opaque; the model keeps only the call log and fixed answers:
  - `glfwInit`, the hint setters, `glfwCreateWindow`,
    `glfwDestroyWindow`, `glfwTerminate`, `glfwGetPlatform`;
  - `glfwGetMonitors`, `glfwPollEvents`/`WaitEvents`/`WaitEventsTimeout`,
    `glfwGetTime`;
  - the seventeen callback registrations in `set_window_callbacks`, recorded
    as one `SetWindowCallbacks` call.
- **The `INIT` mutex.** It is reduced to a held/free flag. Blocking in
  `Glfw::init` and the `Poisoned` error of `init`/`try_init` are
  concurrency, and are not modelled.
- **Thread-locality of `HANDLER`.** The model is sequential, so
  thread-locality does not arise.
- **`expect(GLFW_NOT_INITIALIZED)` after calls that cannot fail once
  initialized.** Examples are `glfwDefaultWindowHints` and
  `glfwGetMonitors`. These are treated as never failing, so their panic is
  not modelled.
- **Floating-point payloads.** Cursor positions, scroll offsets, content
  scales, timestamps and the `Duration` to `f64` conversion are carried as
  opaque bit patterns.
- **`CStr::to_str` validity.** Each raw dropped path arrives as the outcome
  of `to_str`. `to_string_lossy` on error descriptions is not modelled.
- **Logging.**
  - The `log::warn!` of dropped callbacks, invalid paths and failed
    destroy/terminate is not modelled.
  - `monitor_callback` only prints a monitor name; its registration is the
    `SetMonitorCallback` call.
- Callbacks.HandlerSlot.RunTrampoline: the handler's own state is not
  modelled. The `FnMut` closure is a pure function here. What it is
  handed is recorded, with the entry that received it, in the ghost
  `observed` log. Its answer is ignored, as
  every trampoline ignores it.
- Callbacks.HandlerSlot.CallHandler: reentrancy is not modelled. The
  `RefCell` borrow held while the handler runs means reentrant
  `set_handler` panics.
- **The type-erased closure pointer.** The raw-pointer and generic `handler::<F>`
  mechanics are reduced to "the slot holds a handler and a pointer".
- **Panics inside the handler.** The handler runs inside the `extern "C"`
  trampolines, and an unwind cannot cross that boundary: a panic there ends
  the process, so no guard drop runs and there is nothing to model.
- Lifecycle.Glfw.CreateWindow: the panic in `CString::new` is an
  outcome, not an unwinding. A native window pointer returned with an
  error is leaked, as in the source.
- **`drop_callback` with a negative `count`.** The paths are given as a
  sequence, so a negative count cannot arise.
- **`MonitorId` and `Monitor::get_name`.** `MonitorId` is only an identity cast,
  the same as `WindowId`. `get_name` is a native name lookup. The file
  `crates/glfw3/src/monitor.rs` is not part of this model.
- **Other `Glfw` and `Window` pass-throughs.** These are
  `make_context_current` and `swap_buffers`, each a single native call
  followed by `get_error`; `get_error` itself, which is the `glfwGetError`
  call and its conversion to an `Error`; and `get_version` and
  `platform_supported`, each a single native query that does not consult
  `get_error`.
- **The examples and the `glfw3-sys` crate.** These are bindings, build
  glue and demo programs.
