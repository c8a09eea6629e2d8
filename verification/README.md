# Mouse hook tracker — Dafny model

This project models the core of `MouseTracker`, a WPF component that installs two
Windows mouse hooks and republishes the pointer position as two deduplicated
streams:

- the **global** channel, a low-level hook (`WH_MOUSE_LL`, id 14) that sees
  every mouse event on the desktop;
- the **local** channel, a thread-scoped hook (`WH_MOUSE`, id 7) that sees only
  events bound for the tracker's own thread.

The model has two parts.

1. **Dispatch.** Each hook callback (`MouseHookProcLL`, `MouseHookProc`) takes
   a hook code and a decoded position. It emits the position to the channel's
   observers only when the code is not negative, a move handler is subscribed,
   and the position differs from the channel's last emitted one. It then
   always forwards the event to the next hook. Over a stream of invocations,
   this gives the `Dedup` function of module `Streams`. That function is
   characterised independently: a sample is reported exactly when it differs
   from the sample just before it.
2. **Lifecycle.** `HookLL`/`UnHookLL` (global) and `Hook`/`UnHook` (local)
   install and remove the hooks. `ToggleMouseHook` runs them in pairs and flips
   the `Hooked` flag. The operating system is a parameter:
   - what `SetWindowsHookEx` and `UnhookWindowsHookEx` answer, together with
     the last Win32 error code, is passed in as a reply;
   - every call made into the OS is recorded in a log;
   - a thrown `Win32Exception` becomes `Outcome.Win32Error(code)` and ends the
     toggle.

State is immutable. A `Tracker` holds two `Slot`s, one per channel. Each slot
holds:
- the hook handle, where 0 means not installed;
- whether the hook procedure delegate is held;
- how many times the channel's move handler is subscribed to its static event;
- the last emitted position.

The tracker also holds `hooked`.

Modules: `Points` (positions and the dispatch filter), `Streams` (the filter
over a stream), `Lifecycle` (state and the lifecycle calls), `Dispatch` (the
callbacks and their effect log), and `LifecycleProperties` (multi-call
properties).

### Behaviour of the code worth knowing

- **No rollback.** When the local install fails after the low-level install
  succeeded, the low-level hook stays installed and its handler stays
  subscribed. `ToggleMouseHook` states this. `RetryAfterPartialFailure` shows
  what it costs: a retry overwrites the live low-level handle, which is then
  never unhooked, and the global handler stays subscribed once too often.
- **Errors on removal.** When a removal fails, `Hooked` does not change. If
  `UnHookLL` fails, `UnHook` is not attempted. So one toggle off does not
  always reach the unhooked state.
- **Initial last position.** The last emitted position starts at the default
  point (0,0). So a first sample at (0,0) is never emitted.
- **Forwarding handle.** Both callbacks forward with the low-level handle
  `hHookLL`. This includes the thread-local callback.
- **Repeated subscriptions.** The move event is a multicast delegate. Raising
  it runs the handler once per subscription. After the retry above, the
  global handler is subscribed twice and receives each emitted point twice.

## Model

| member | source | states |
|---|---|---|
| Points.ShouldEmit | MouseTracker.cs:305 | A sample is emitted exactly when it is a different point from the last emitted one, in x or in y. |
| Streams.Dedup | MouseTracker.cs:305-310 | The reported stream is no longer than the input. Its first point differs from the starting last point. No two consecutive reported points are equal. |
| Streams.DedupIsSubsequence | MouseTracker.cs:303-310 | Every reported point is an input sample, taken at strictly increasing positions. Nothing is fabricated or reordered. |
| Streams.PositionsAreChanges | MouseTracker.cs:305-310 | The sample at index i is reported exactly when it differs from the sample before it, or from the starting last point when i = 0. |
| Streams.DedupEndsAtLastSample | MouseTracker.cs:305-310 | After a stream, the last reported point is the stream's final sample, whether or not that sample was reported. Nothing is reported if and only if every sample equals the starting point. |
| Streams.DedupKeepsCleanStream | MouseTracker.cs:305-310 | A stream with no adjacent repeats whose head differs from the last point passes through unchanged. |
| Streams.DedupIdempotent | MouseTracker.cs:305-310 | Filtering an already filtered stream again changes nothing. |
| Streams.DedupDropsLeadingOrigin | MouseTracker.cs:22-23 | Because the last position starts at (0,0), a leading (0,0) sample never changes the output, and the first reported point is never (0,0). |
| Streams.DedupBurstExample | MouseTracker.cs:305-310 | The burst (10,10),(10,10),(20,10),(20,10),(20,15) reports (10,10),(20,10),(20,15). |
| Lifecycle.HookId | MouseTracker.cs:58-63 | The global channel installs with id 14 (`WH_MOUSE_LL`) and the local channel with id 7 (`WH_MOUSE`). |
| Lifecycle.HookLL | MouseTracker.cs:178-197 | It makes one install call with id 14. It succeeds exactly when the stored handle is non-zero. A failure stores handle 0 and carries the OS error code. Only success adds exactly one global subscription. The procedure is held in every case. The local channel and `Hooked` do not change. |
| Lifecycle.UnHookLL | MouseTracker.cs:199-223 | With handle 0 it is a no-op that makes no call. Otherwise it makes one unhook call with the handle. It clears the handle and drops the procedure even when the call fails. It fails exactly when the OS call fails, carrying the OS code and keeping the subscription. Success removes one subscription. Nothing else changes. |
| Lifecycle.Hook | MouseTracker.cs:225-246 | Same as HookLL, for the local channel with id 7. The global channel does not change. |
| Lifecycle.UnHook | MouseTracker.cs:248-272 | Same as UnHookLL, for the local channel. The global channel does not change. |
| Lifecycle.ToggleMouseHook | MouseTracker.cs:162-176 | It succeeds exactly when both calls of the branch complete, and only then does `Hooked` flip. For each of the six cases it gives the exact channel states and OS call log. Both installs succeed: both handles are stored, procedures held, one subscription added each. The low-level install fails: the local install is not attempted. The local install fails: the low-level handle and its subscription stay. Both removals complete: each live handle is unhooked once, cleared and unsubscribed. The low-level unhook fails: the local channel is not touched. The local unhook fails: the completed low-level removal stays, and the local handle is cleared but its subscription kept. |
| Dispatch.MouseHookProcLL | MouseTracker.cs:294-316 | It raises the global event exactly when nCode >= 0, a handler is subscribed and the point moved. The raise runs the handler once per subscription. The last position becomes the sample only then, and is otherwise unchanged. It forwards exactly once, last, with hHookLL and the unchanged nCode, wParam and lParam. Nothing else changes. |
| Dispatch.MouseHookProc | MouseTracker.cs:318-340 | The same for the local channel. It forwards the unchanged event exactly once with hHookLL, not hHook. |
| Dispatch.RunForwardsEverySample | MouseTracker.cs:294-340 | Over any stream of invocations on either channel, there is exactly one forwarding call per invocation, in order. Each carries hHookLL and that invocation's unchanged nCode, wParam and lParam. |
| Dispatch.ForwardsForEach | MouseTracker.cs:315 | The expected forwarding call at index k passes sample k on unchanged: its nCode, wParam and lParam, with the given handle. This is what `RunForwardsEverySample` compares against. |
| Dispatch.RunNotifiesDedup | MouseTracker.cs:296-311 | Over any stream, a subscribed channel raises its event with exactly `Dedup` of its samples with nCode >= 0, starting from its last position. An unsubscribed channel raises nothing. The other channel is never raised. |
| Dispatch.RunRaisesToEveryHandler | MouseTracker.cs:307 | Over any stream, every raise of the channel's event runs its handler once per subscription the channel had at the start. |
| Dispatch.RunMovesOnlyLast | MouseTracker.cs:305-310 | Over any stream, the only state that changes is the channel's last position, and only while it is subscribed. It ends at the last accepted sample. |
| Dispatch.FreshGlobalStream | MouseTracker.cs:22 | From the default last position, a subscribed global channel reports `Dedup` from (0,0), and its first report is never (0,0). |
| LifecycleProperties.ConsistencyIsInvariant | MouseTracker.cs:178-272 | A live stored handle implies a held procedure and at least one subscription. This holds initially and is kept by every toggle, whatever the OS answers, and by every callback. |
| LifecycleProperties.ToggleTwiceRestores | MouseTracker.cs:162-176 | From unhooked, with every OS call succeeding, two toggles both succeed. `Hooked` ends false, both handles are 0, both procedures are dropped and subscriptions are back to their start. The OS log is install LL, install local, unhook each installed handle once. |
| LifecycleProperties.InitialRoundTrip | MouseTracker.cs:44-47 | From the constructed tracker, a succeeding on/off pair returns exactly to the constructed state. |
| LifecycleProperties.RetryAfterPartialFailure | MouseTracker.cs:164-168 | After a local install failure, retrying and then toggling off succeed. The first low-level handle is never unhooked, and the global handler stays subscribed one extra time. |
| LifecycleProperties.FailedUnhookLeavesHandlerSubscribed | MouseTracker.cs:199-223 | A failed low-level unhook keeps `Hooked` true with the handle cleared. The next toggle unhooks only the local hook and succeeds, and the global handler stays subscribed. |

## Left out

- Decoding of the hook structures (`Marshal.PtrToStructure`) and the P/Invoke declarations. The callbacks receive the decoded position as an input. A decode failure cannot be expressed.
- The value returned by `CallNextHookEx`, which the callbacks pass back to the OS unchanged. The model records the forwarding call and all four of its arguments, but not its answer. `wParam` and `lParam` are opaque integers, and the decoded position is a separate input.
- `GetCursorPos` / `GetCursorPosition` and the `Debug.Print` mismatch check in `OnLocalMouseMove`. These are diagnostic I/O only.
- The WPF dependency properties (`GlobalPosition`, `LocalPosition`, `Hooked` as a bound property), `MouseMoveEventArgs` and `RelayCommand`. The observer is modelled as a `Notify(channel, point, handlers)` effect. `handlers` is how many times the handler runs for that raise.
- `GetCurrentThreadId` and the thread scope of the hooks. Only the hook id distinguishes the two channels.
- `Win32Exception`, beyond the integer error code it carries.
- Callback re-entrancy, message-pump timing and concurrent toggles. The model is sequential.
- More than one `MouseTracker` instance. The handles and events are static in the source. The model has one tracker, and its handler is the only one ever subscribed to each event. It may be subscribed several times.
- Procedures of orphaned hooks. `procHeld` describes only the procedure behind the stored handle. A hook whose handle was overwritten (see `RetryAfterPartialFailure`) stays registered after its delegate was replaced. The model cannot show that the delegate was released.
