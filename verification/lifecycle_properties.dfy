/** Properties of the toggle over several calls: the invariant it keeps, the
    balanced round trip when the operating system cooperates, and what the
    absence of rollback leaves behind when it does not. */
module LifecycleProperties {
  import opened Points
  import opened Lifecycle
  import opened Dispatch

  /** A channel whose stored handle is live holds its procedure and has its
      move handler subscribed at least once. */
  predicate SlotConsistent(s: Slot)
  {
    s.handle != 0 ==> s.procHeld && s.subscriptions >= 1
  }

  predicate Consistent(t: Tracker)
  {
    SlotConsistent(t.global) && SlotConsistent(t.local)
  }

  /** The constructed tracker is consistent, every toggle keeps it so
      whatever the operating system answers, and so does every callback. */
  lemma ConsistencyIsInvariant(t: Tracker, os: Replies, c: Channel, sample: Sample)
    requires Consistent(t)
    ensures Consistent(Initial)
    ensures Consistent(ToggleMouseHook(t, os).tracker)
    ensures Consistent(Invoke(t, c, sample).tracker)
  {
  }

  /** Replies under which every call of a toggle on/off pair succeeds. */
  predicate Cooperative(on: Replies, off: Replies)
  {
    on.installLL.handle != 0 && on.install.handle != 0 && off.unhookLL.result != 0 && off.unhook.result != 0
  }

  /** Two toggles from the unhooked state with every call succeeding: both
      report success, `Hooked` is false again, both handles are 0 and both
      procedures dropped, the subscriptions are back where they started, and
      every handle installed is unhooked exactly once, in order. */
  lemma ToggleTwiceRestores(t: Tracker, on: Replies, off: Replies)
    requires !t.hooked
    requires Cooperative(on, off)
    ensures ToggleMouseHook(t, on).outcome == Ok
    ensures ToggleMouseHook(ToggleMouseHook(t, on).tracker, off).outcome == Ok
    ensures var u := ToggleMouseHook(ToggleMouseHook(t, on).tracker, off).tracker;
      && !u.hooked
      && u.global == t.global.(handle := 0, procHeld := false)
      && u.local == t.local.(handle := 0, procHeld := false)
    ensures ToggleMouseHook(t, on).calls + ToggleMouseHook(ToggleMouseHook(t, on).tracker, off).calls
         == [SetWindowsHookEx(WH_MOUSE_LL), SetWindowsHookEx(WH_MOUSE),
             UnhookWindowsHookEx(on.installLL.handle), UnhookWindowsHookEx(on.install.handle)]
  {
  }

  /** From the constructed tracker, an on/off pair with every call
      succeeding returns it to its constructed state: no handle, no held
      procedure, no subscription, not hooked. */
  lemma InitialRoundTrip(on: Replies, off: Replies)
    requires Cooperative(on, off)
    ensures ToggleMouseHook(ToggleMouseHook(Initial, on).tracker, off).tracker == Initial
  {
  }

  /** What the missing rollback costs. The first toggle installs the
      low-level hook with handle `h1` and then fails on the local hook; the
      second installs again, overwriting `h1` with `h2`; the third removes
      both hooks. Every later call succeeds, yet `h1` is never unhooked and
      the global handler stays subscribed once more than before. The hook
      `h1` also stays registered with the operating system after the second
      toggle replaced the procedure delegate it calls; the per-channel
      `procHeld` flag describes only the stored handle and cannot show
      that. */
  lemma RetryAfterPartialFailure(t: Tracker, h1: int, h2: int, h3: int, code: int, err: int, off: UnhookReply)
    requires !t.hooked
    requires h1 != 0 && h2 != 0 && h3 != 0 && h1 != h2 && h1 != h3
    requires off.result != 0
    ensures var first := ToggleMouseHook(t, Replies(InstallReply(h1, 0), InstallReply(0, code), off, off));
      var second := ToggleMouseHook(first.tracker, Replies(InstallReply(h2, 0), InstallReply(h3, 0), off, off));
      var third := ToggleMouseHook(second.tracker, Replies(InstallReply(0, err), InstallReply(0, err), off, off));
      && first.outcome == Win32Error(code) && !first.tracker.hooked
      && first.tracker.global.handle == h1
      && second.outcome == Ok && second.tracker.hooked
      && third.outcome == Ok && !third.tracker.hooked
      && third.tracker.global.handle == 0 && third.tracker.local.handle == 0
      && third.tracker.global.subscriptions == t.global.subscriptions + 1
      && third.tracker.local.subscriptions == t.local.subscriptions
      && UnhookWindowsHookEx(h1) !in first.calls + second.calls + third.calls
  {
  }

  /** A failed low-level unhook keeps `Hooked` true with the low-level
      handle already cleared. The next toggle then skips the low-level
      unhook, removes the local hook and reports success, so the tracker
      ends unhooked with the global handler still subscribed. */
  lemma FailedUnhookLeavesHandlerSubscribed(t: Tracker, code: int, ok: UnhookReply, any: InstallReply)
    requires t.hooked && t.global.handle != 0 && t.local.handle != 0
    requires ok.result != 0
    ensures var first := ToggleMouseHook(t, Replies(any, any, UnhookReply(0, code), ok));
      var second := ToggleMouseHook(first.tracker, Replies(any, any, ok, ok));
      && first.outcome == Win32Error(code) && first.tracker.hooked
      && first.tracker.global.handle == 0 && first.tracker.local.handle == t.local.handle
      && second.outcome == Ok && !second.tracker.hooked
      && second.calls == [UnhookWindowsHookEx(t.local.handle)]
      && second.tracker.global.subscriptions == t.global.subscriptions
      && second.tracker.local.subscriptions == Unsubscribe(t.local.subscriptions)
  {
  }
}
