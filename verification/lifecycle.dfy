/** The hook lifecycle of the mouse tracker: installing and removing the
    low-level (system-wide) and the thread-local mouse hooks, and the single
    toggle that drives both. The operating system is a parameter: every call
    into it is recorded in a log, and its answers are supplied as replies. */
module Lifecycle {
  import opened Points

  /** The hook identifiers of the Windows SDK passed at install time. */
  const WH_MOUSE_LL: int := 14
  const WH_MOUSE: int := 7

  /** The two interception channels. The global channel is the low-level
      hook; the local channel is the thread-scoped mouse hook. */
  datatype Channel = Global | Local

  /** The hook identifier a channel is installed with. */
  function HookId(c: Channel): (id: int)
    ensures id == WH_MOUSE_LL <==> c == Global
    ensures id == WH_MOUSE <==> c == Local
  {
    match c
    case Global => WH_MOUSE_LL
    case Local => WH_MOUSE
  }

  /** A call into the operating system's hook API. */
  datatype OsCall = SetWindowsHookEx(idHook: int) | UnhookWindowsHookEx(hook: int)

  /** What the install call answered: a handle (0 on failure) and the last
      error code it left behind. */
  datatype InstallReply = InstallReply(handle: int, lastError: int)

  /** What the unhook call answered: its result (0 on failure) and the last
      error code it left behind. */
  datatype UnhookReply = UnhookReply(result: int, lastError: int)

  /** The operating system's answers to the calls one toggle may make. */
  datatype Replies = Replies(installLL: InstallReply, install: InstallReply,
                             unhookLL: UnhookReply, unhook: UnhookReply)

  /** A completed call, or the error code of the exception it threw. */
  datatype Outcome = Ok | Win32Error(code: int)

  /** The state of one channel: its hook handle (0 when not installed),
      whether the hook procedure delegate is held, how many times the
      channel's move handler is subscribed to its event, and the last
      position the channel emitted. */
  datatype Slot = Slot(handle: int, procHeld: bool, subscriptions: nat, last: Point)

  /** A channel that was never installed. */
  const Fresh: Slot := Slot(0, false, 0, Origin)

  /** The whole tracker: the global and local channels and the `Hooked` flag. */
  datatype Tracker = Tracker(global: Slot, local: Slot, hooked: bool)
  {
    /** The state of channel `c`. */
    function Of(c: Channel): Slot
    {
      match c
      case Global => global
      case Local => local
    }

    /** This tracker with channel `c` replaced by `s`. */
    function With(c: Channel, s: Slot): (t: Tracker)
      ensures t.Of(c) == s
      ensures t.Of(Other(c)) == Of(Other(c))
      ensures t.hooked == hooked
    {
      match c
      case Global => this.(global := s)
      case Local => this.(local := s)
    }
  }

  /** The tracker as constructed: nothing installed, not hooked. */
  const Initial: Tracker := Tracker(Fresh, Fresh, false)

  /** The channel that is not `c`. */
  function Other(c: Channel): (o: Channel)
    ensures o != c
  {
    match c
    case Global => Local
    case Local => Global
  }

  /** Removes one subscription of the move handler. Removing a handler that
      is not subscribed leaves the event unchanged. */
  function Unsubscribe(n: nat): nat
  {
    if n == 0 then 0 else n - 1
  }

  /** The result of one lifecycle call: the new state, how it completed, and
      the calls it made into the operating system, in order. */
  datatype Step = Step(tracker: Tracker, outcome: Outcome, calls: seq<OsCall>)

  /** Shared body of `HookLL` and `Hook`: hold a fresh procedure, install it,
      and subscribe the move handler only when the install succeeded. */
  function Install(t: Tracker, c: Channel, reply: InstallReply): Step
  {
    var held := t.Of(c).(procHeld := true, handle := reply.handle);
    if reply.handle == 0 then
      Step(t.With(c, held), Win32Error(reply.lastError), [SetWindowsHookEx(HookId(c))])
    else
      Step(t.With(c, held.(subscriptions := held.subscriptions + 1)), Ok, [SetWindowsHookEx(HookId(c))])
  }

  /** Shared body of `UnHookLL` and `UnHook`: nothing to do without a handle;
      otherwise unhook, clear the handle and drop the procedure whatever the
      answer, and unsubscribe the move handler only when the unhook worked. */
  function Remove(t: Tracker, c: Channel, reply: UnhookReply): Step
  {
    var s := t.Of(c);
    if s.handle == 0 then
      Step(t, Ok, [])
    else
      var cleared := s.(handle := 0, procHeld := false);
      if reply.result == 0 then
        Step(t.With(c, cleared), Win32Error(reply.lastError), [UnhookWindowsHookEx(s.handle)])
      else
        Step(t.With(c, cleared.(subscriptions := Unsubscribe(s.subscriptions))), Ok, [UnhookWindowsHookEx(s.handle)])
  }

  /** Installs the low-level hook. It succeeds exactly when the operating
      system hands back a non-zero handle; the handle is stored either way,
      so a failure leaves it 0. Only success subscribes the global handler,
      exactly once. A failure carries the operating system's error code.
      The procedure is held in every case, and nothing else changes. */
  function HookLL(t: Tracker, reply: InstallReply): (r: Step)
    ensures r.calls == [SetWindowsHookEx(WH_MOUSE_LL)]
    ensures r.outcome.Ok? <==> r.tracker.global.handle != 0
    ensures r.tracker.global.handle == reply.handle
    ensures r.outcome.Win32Error? ==> r.outcome.code == reply.lastError
    ensures r.tracker.global.subscriptions
         == t.global.subscriptions + (if r.outcome.Ok? then 1 else 0)
    ensures r.tracker.global.procHeld
    ensures r.tracker.global.last == t.global.last
    ensures r.tracker.local == t.local && r.tracker.hooked == t.hooked
  {
    Install(t, Global, reply)
  }

  /** Removes the low-level hook. Without a handle it is a successful no-op
      that calls nothing. Otherwise it unhooks once, and clears the handle and
      drops the procedure whether or not the unhook worked; a failure throws
      the operating system's error code and leaves the handler subscribed,
      success unsubscribes it once. Nothing else changes. */
  function UnHookLL(t: Tracker, reply: UnhookReply): (r: Step)
    ensures t.global.handle == 0 ==> r == Step(t, Ok, [])
    ensures t.global.handle != 0 ==>
      && r.calls == [UnhookWindowsHookEx(t.global.handle)]
      && r.tracker.global.handle == 0
      && !r.tracker.global.procHeld
    ensures r.outcome.Win32Error? <==> t.global.handle != 0 && reply.result == 0
    ensures r.outcome.Win32Error? ==>
      r.outcome.code == reply.lastError && r.tracker.global.subscriptions == t.global.subscriptions
    ensures r.outcome.Ok? && t.global.handle != 0 ==>
      r.tracker.global.subscriptions == Unsubscribe(t.global.subscriptions)
    ensures r.tracker.global.last == t.global.last
    ensures r.tracker.local == t.local && r.tracker.hooked == t.hooked
  {
    Remove(t, Global, reply)
  }

  /** Installs the thread-local hook; the same contract as `HookLL`, on the
      local channel with the local hook identifier. */
  function Hook(t: Tracker, reply: InstallReply): (r: Step)
    ensures r.calls == [SetWindowsHookEx(WH_MOUSE)]
    ensures r.outcome.Ok? <==> r.tracker.local.handle != 0
    ensures r.tracker.local.handle == reply.handle
    ensures r.outcome.Win32Error? ==> r.outcome.code == reply.lastError
    ensures r.tracker.local.subscriptions
         == t.local.subscriptions + (if r.outcome.Ok? then 1 else 0)
    ensures r.tracker.local.procHeld
    ensures r.tracker.local.last == t.local.last
    ensures r.tracker.global == t.global && r.tracker.hooked == t.hooked
  {
    Install(t, Local, reply)
  }

  /** Removes the thread-local hook; the same contract as `UnHookLL`, on the
      local channel. */
  function UnHook(t: Tracker, reply: UnhookReply): (r: Step)
    ensures t.local.handle == 0 ==> r == Step(t, Ok, [])
    ensures t.local.handle != 0 ==>
      && r.calls == [UnhookWindowsHookEx(t.local.handle)]
      && r.tracker.local.handle == 0
      && !r.tracker.local.procHeld
    ensures r.outcome.Win32Error? <==> t.local.handle != 0 && reply.result == 0
    ensures r.outcome.Win32Error? ==>
      r.outcome.code == reply.lastError && r.tracker.local.subscriptions == t.local.subscriptions
    ensures r.outcome.Ok? && t.local.handle != 0 ==>
      r.tracker.local.subscriptions == Unsubscribe(t.local.subscriptions)
    ensures r.tracker.local.last == t.local.last
    ensures r.tracker.global == t.global && r.tracker.hooked == t.hooked
  {
    Remove(t, Local, reply)
  }

  /** Runs `first`, then `second` on its state unless `first` threw; flips
      `Hooked` only when both completed. An error thrown by either call ends
      the toggle with that error and keeps whatever the calls already did. */
  function Sequence(t: Tracker, first: Tracker -> Step, second: Tracker -> Step): Step
  {
    var a := first(t);
    if a.outcome.Win32Error? then a
    else
      var b := second(a.tracker);
      if b.outcome.Win32Error? then Step(b.tracker, b.outcome, a.calls + b.calls)
      else Step(b.tracker.(hooked := !t.hooked), Ok, a.calls + b.calls)
  }

  /** A channel after a successful install that returned handle `h`. */
  function InstalledAs(s: Slot, h: int): Slot
  {
    s.(handle := h, procHeld := true, subscriptions := s.subscriptions + 1)
  }

  /** A channel after its removal completed: unchanged without a handle,
      otherwise cleared and unsubscribed once. */
  function RemovedFrom(s: Slot): Slot
  {
    if s.handle == 0 then s else s.(handle := 0, procHeld := false, subscriptions := Unsubscribe(s.subscriptions))
  }

  /** The unhook call a removal of channel state `s` makes, if any. */
  function UnhookCalls(s: Slot): seq<OsCall>
  {
    if s.handle == 0 then [] else [UnhookWindowsHookEx(s.handle)]
  }

  /** Toggles both hooks. From unhooked it installs the low-level hook, then
      the local one; from hooked it removes the low-level hook, then the local
      one. `Hooked` flips exactly when both calls complete, an error ends the
      toggle before the second call, and nothing is rolled back: the first
      call's effect persists when the second one fails. */
  function ToggleMouseHook(t: Tracker, os: Replies): (r: Step)
    ensures r.outcome.Ok? <==>
      if !t.hooked then os.installLL.handle != 0 && os.install.handle != 0
      else (t.global.handle == 0 || os.unhookLL.result != 0) && (t.local.handle == 0 || os.unhook.result != 0)
    ensures r.tracker.hooked == (if r.outcome.Ok? then !t.hooked else t.hooked)
    // Both installs succeed.
    ensures !t.hooked && r.outcome.Ok? ==>
      && r.calls == [SetWindowsHookEx(WH_MOUSE_LL), SetWindowsHookEx(WH_MOUSE)]
      && r.tracker.global == InstalledAs(t.global, os.installLL.handle)
      && r.tracker.local == InstalledAs(t.local, os.install.handle)
    // The low-level install fails: the local hook is not attempted.
    ensures !t.hooked && os.installLL.handle == 0 ==>
      && r.outcome == Win32Error(os.installLL.lastError)
      && r.calls == [SetWindowsHookEx(WH_MOUSE_LL)]
      && r.tracker.global == t.global.(handle := 0, procHeld := true)
      && r.tracker.local == t.local
    // The local install fails after the low-level one worked: no rollback.
    ensures !t.hooked && os.installLL.handle != 0 && os.install.handle == 0 ==>
      && r.outcome == Win32Error(os.install.lastError)
      && r.calls == [SetWindowsHookEx(WH_MOUSE_LL), SetWindowsHookEx(WH_MOUSE)]
      && r.tracker.global == InstalledAs(t.global, os.installLL.handle)
      && r.tracker.local == t.local.(handle := 0, procHeld := true)
    // Both removals complete.
    ensures t.hooked && r.outcome.Ok? ==>
      && r.calls == UnhookCalls(t.global) + UnhookCalls(t.local)
      && r.tracker.global == RemovedFrom(t.global)
      && r.tracker.local == RemovedFrom(t.local)
    // Removing the low-level hook fails: the local hook is not touched.
    ensures t.hooked && t.global.handle != 0 && os.unhookLL.result == 0 ==>
      && r.outcome == Win32Error(os.unhookLL.lastError)
      && r.calls == [UnhookWindowsHookEx(t.global.handle)]
      && r.tracker.global == t.global.(handle := 0, procHeld := false)
      && r.tracker.local == t.local
    // Removing the local hook fails after the low-level removal completed.
    ensures t.hooked && (t.global.handle == 0 || os.unhookLL.result != 0)
            && t.local.handle != 0 && os.unhook.result == 0 ==>
      && r.outcome == Win32Error(os.unhook.lastError)
      && r.calls == UnhookCalls(t.global) + [UnhookWindowsHookEx(t.local.handle)]
      && r.tracker.global == RemovedFrom(t.global)
      && r.tracker.local == t.local.(handle := 0, procHeld := false)
  {
    if !t.hooked then
      Sequence(t, (s: Tracker) => HookLL(s, os.installLL), (s: Tracker) => Hook(s, os.install))
    else
      Sequence(t, (s: Tracker) => UnHookLL(s, os.unhookLL), (s: Tracker) => UnHook(s, os.unhook))
  }
}
