/** The two hook callbacks. Each one filters its decoded sample against the
    channel's last emitted position, notifies the channel's observers when the
    position changed, and always passes the event on to the next hook. */
module Dispatch {
  import opened Points
  import opened Streams
  import opened Lifecycle

  /** One callback invocation as the operating system delivers it: the hook
      code, the two message parameters (`lParam` points at the event
      structure), and the position decoded from that structure. */
  datatype Sample = Sample(nCode: int, wParam: int, lParam: int, at: Point)

  /** What a callback does that can be seen from outside: raise the channel's
      move event with a position, which runs its subscribed handler
      `handlers` times (once per subscription of the multicast delegate), or
      pass the event to the next hook with a given handle, hook code and
      message parameters. */
  datatype Effect =
    | Notify(channel: Channel, at: Point, handlers: nat)
    | CallNext(hook: int, nCode: int, wParam: int, lParam: int)

  /** The call that passes `sample` on to the next hook, unchanged, with
      handle `hook`. */
  function ForwardOf(hook: int, sample: Sample): Effect
  {
    CallNext(hook, sample.nCode, sample.wParam, sample.lParam)
  }

  /** Every raise of channel `c`'s event among `effects` runs its handler
      `n` times. */
  predicate RaisesTo(effects: seq<Effect>, c: Channel, n: nat)
  {
    || |effects| == 0
    || (&& (effects[0].Notify? && effects[0].channel == c ==> effects[0].handlers == n)
        && RaisesTo(effects[1..], c, n))
  }

  /** The state after a callback and the effects it produced, in order. */
  datatype Callback = Callback(tracker: Tracker, effects: seq<Effect>)

  /** The positions notified to channel `c`, in order. */
  function Notified(c: Channel, effects: seq<Effect>): seq<Point>
  {
    if |effects| == 0 then []
    else
      var head := if effects[0].Notify? && effects[0].channel == c then [effects[0].at] else [];
      head + Notified(c, effects[1..])
  }

  /** The forwarding calls among `effects`, in order. */
  function Forwarded(effects: seq<Effect>): (calls: seq<Effect>)
    ensures forall k :: 0 <= k < |calls| ==> calls[k].CallNext?
  {
    if |effects| == 0 then []
    else (if effects[0].CallNext? then [effects[0]] else []) + Forwarded(effects[1..])
  }

  lemma NotifiedAppend(c: Channel, a: seq<Effect>, b: seq<Effect>)
    ensures Notified(c, a + b) == Notified(c, a) + Notified(c, b)
  {
    if |a| > 0 {
      assert (a + b)[1..] == a[1..] + b;
    } else {
      assert a + b == b;
    }
  }

  lemma {:induction false} RaisesToAppend(a: seq<Effect>, b: seq<Effect>, c: Channel, n: nat)
    requires RaisesTo(a, c, n) && RaisesTo(b, c, n)
    ensures RaisesTo(a + b, c, n)
    decreases |a|
  {
    if |a| == 0 {
      assert a + b == b;
    } else {
      assert (a + b)[1..] == a[1..] + b;
      RaisesToAppend(a[1..], b, c, n);
    }
  }

  lemma ForwardedAppend(a: seq<Effect>, b: seq<Effect>)
    ensures Forwarded(a + b) == Forwarded(a) + Forwarded(b)
  {
    if |a| > 0 {
      assert (a + b)[1..] == a[1..] + b;
    } else {
      assert a + b == b;
    }
  }

  /** Whether a sample is emitted on a channel in state `s`: the hook code is
      not negative, a move handler is subscribed, and the position moved. */
  predicate Emits(s: Slot, sample: Sample)
  {
    sample.nCode >= 0 && s.subscriptions > 0 && ShouldEmit(sample.at, s.last)
  }

  /** The effects of one invocation: an optional notification, then the one
      forwarding call. */
  function CallEffects(c: Channel, emit: bool, at: Point, handlers: nat, forward: Effect): seq<Effect>
  {
    (if emit then [Notify(c, at, handlers)] else []) + [forward]
  }

  lemma CallEffectsSplit(c: Channel, emit: bool, at: Point, handlers: nat, forward: Effect)
    requires forward.CallNext?
    ensures Notified(c, CallEffects(c, emit, at, handlers, forward)) == (if emit then [at] else [])
    ensures Notified(Other(c), CallEffects(c, emit, at, handlers, forward)) == []
    ensures Forwarded(CallEffects(c, emit, at, handlers, forward)) == [forward]
    ensures RaisesTo(CallEffects(c, emit, at, handlers, forward), c, handlers)
  {
    var e := CallEffects(c, emit, at, handlers, forward);
    assert [forward][1..] == [];
    assert Notified(c, [forward]) == [] && Notified(Other(c), [forward]) == [];
    assert Forwarded([forward]) == [forward];
    if emit {
      assert e[1..] == [forward];
    } else {
      assert e == [forward];
    }
  }

  /** Shared body of both callbacks: filter the sample on channel `c`,
      raise the event and record the position when it is emitted, then
      forward the event with `forwardHandle`. */
  function Deliver(t: Tracker, c: Channel, sample: Sample, forwardHandle: int): (r: Callback)
    ensures Notified(c, r.effects) == (if Emits(t.Of(c), sample) then [sample.at] else [])
    ensures Notified(Other(c), r.effects) == []
    ensures RaisesTo(r.effects, c, t.Of(c).subscriptions)
    ensures Forwarded(r.effects) == [ForwardOf(forwardHandle, sample)]
  {
    var s := t.Of(c);
    var emit := Emits(s, sample);
    var forward := ForwardOf(forwardHandle, sample);
    CallEffectsSplit(c, emit, sample.at, s.subscriptions, forward);
    Callback(if emit then t.With(c, s.(last := sample.at)) else t,
             CallEffects(c, emit, sample.at, s.subscriptions, forward))
  }

  /** The low-level hook callback. A sample is emitted exactly when its hook
      code is not negative, a global handler is subscribed, and it differs
      from the last emitted global position; only then does the last
      position become the sample. A raise runs the handler once per
      subscription. Every invocation forwards the unchanged event exactly
      once, with the low-level handle, as its final effect. Nothing else
      changes. */
  function MouseHookProcLL(t: Tracker, sample: Sample): (r: Callback)
    ensures Notified(Global, r.effects) == (if Emits(t.global, sample) then [sample.at] else [])
    ensures Notified(Local, r.effects) == []
    ensures RaisesTo(r.effects, Global, t.global.subscriptions)
    ensures r.tracker.global.last == (if Emits(t.global, sample) then sample.at else t.global.last)
    ensures Forwarded(r.effects) == [ForwardOf(t.global.handle, sample)]
    ensures |r.effects| > 0 && r.effects[|r.effects| - 1] == ForwardOf(t.global.handle, sample)
    ensures r.tracker == t.(global := t.global.(last := r.tracker.global.last))
  {
    Deliver(t, Global, sample, t.global.handle)
  }

  /** The thread-local hook callback; the same filter on the local channel.
      It forwards with the LOW-LEVEL handle, not the local one. */
  function MouseHookProc(t: Tracker, sample: Sample): (r: Callback)
    ensures Notified(Local, r.effects) == (if Emits(t.local, sample) then [sample.at] else [])
    ensures Notified(Global, r.effects) == []
    ensures RaisesTo(r.effects, Local, t.local.subscriptions)
    ensures r.tracker.local.last == (if Emits(t.local, sample) then sample.at else t.local.last)
    ensures Forwarded(r.effects) == [ForwardOf(t.global.handle, sample)]
    ensures |r.effects| > 0 && r.effects[|r.effects| - 1] == ForwardOf(t.global.handle, sample)
    ensures r.tracker == t.(local := t.local.(last := r.tracker.local.last))
  {
    Deliver(t, Local, sample, t.global.handle)
  }

  /** The callback of channel `c`: it touches nothing but that channel's
      last position, and forwards with the low-level handle. */
  function Invoke(t: Tracker, c: Channel, sample: Sample): (r: Callback)
    ensures Notified(c, r.effects) == (if Emits(t.Of(c), sample) then [sample.at] else [])
    ensures Notified(Other(c), r.effects) == []
    ensures RaisesTo(r.effects, c, t.Of(c).subscriptions)
    ensures Forwarded(r.effects) == [ForwardOf(t.global.handle, sample)]
    ensures r.tracker == t.With(c, t.Of(c).(last := if Emits(t.Of(c), sample) then sample.at else t.Of(c).last))
  {
    match c
    case Global => MouseHookProcLL(t, sample)
    case Local => MouseHookProc(t, sample)
  }

  /** A stream of callback invocations on channel `c`, one after another. */
  function Run(t: Tracker, c: Channel, samples: seq<Sample>): Callback
    decreases |samples|
  {
    if |samples| == 0 then Callback(t, [])
    else
      var first := Invoke(t, c, samples[0]);
      var rest := Run(first.tracker, c, samples[1..]);
      Callback(rest.tracker, first.effects + rest.effects)
  }

  /** The positions of the samples whose hook code is not negative: the ones
      the callback looks at. */
  function Accepted(samples: seq<Sample>): (points: seq<Point>)
    ensures |points| <= |samples|
  {
    if |samples| == 0 then []
    else (if samples[0].nCode >= 0 then [samples[0].at] else []) + Accepted(samples[1..])
  }

  /** The forwarding calls a stream of invocations is expected to make: one
      per sample, passing that sample's event on unchanged with handle
      `hook`. */
  function ForwardsFor(hook: int, samples: seq<Sample>): (calls: seq<Effect>)
    ensures |calls| == |samples|
    decreases |samples|
  {
    if |samples| == 0 then [] else [ForwardOf(hook, samples[0])] + ForwardsFor(hook, samples[1..])
  }

  /** The expected call at index `k` passes on sample `k`. */
  lemma {:induction false} ForwardsForEach(hook: int, samples: seq<Sample>)
    ensures forall k :: 0 <= k < |samples| ==> ForwardsFor(hook, samples)[k] == ForwardOf(hook, samples[k])
    decreases |samples|
  {
    if |samples| > 0 {
      ForwardsForEach(hook, samples[1..]);
      forall k | 1 <= k < |samples|
        ensures ForwardsFor(hook, samples)[k] == ForwardOf(hook, samples[k])
      {
        assert samples[k] == samples[1..][k - 1];
      }
    }
  }

  /** Over any stream of invocations, the forwarding calls are exactly one
      per invocation, in order, each passing that invocation's event on
      unchanged with the low-level handle, whichever channel it is and
      whether or not it emitted. */
  lemma {:induction false} RunForwardsEverySample(t: Tracker, c: Channel, samples: seq<Sample>)
    ensures Forwarded(Run(t, c, samples).effects) == ForwardsFor(t.global.handle, samples)
    decreases |samples|
  {
    if |samples| > 0 {
      var first := Invoke(t, c, samples[0]);
      var tail := samples[1..];
      var rest := Run(first.tracker, c, tail);
      assert Run(t, c, samples).effects == first.effects + rest.effects;
      RunForwardsEverySample(first.tracker, c, tail);
      ForwardedAppend(first.effects, rest.effects);
    }
  }

  /** Replacing a channel twice keeps only the second replacement. */
  lemma WithTwice(t: Tracker, c: Channel, a: Slot, b: Slot)
    ensures t.With(c, a).With(c, b) == t.With(c, b)
  {
  }

  /** Where a subscribed channel's last position ends after a stream is the
      same whether seen from before or after the first sample. */
  lemma FirstStepLast(slot: Slot, samples: seq<Sample>)
    requires |samples| > 0 && slot.subscriptions > 0
    ensures LastAfter(if Emits(slot, samples[0]) then samples[0].at else slot.last, Accepted(samples[1..]))
         == LastAfter(slot.last, Accepted(samples))
  {
    var s := samples[0];
    var acc := Accepted(samples[1..]);
    if s.nCode >= 0 {
      assert Accepted(samples) == [s.at] + acc;
    } else {
      assert Accepted(samples) == acc;
    }
  }

  /** Over any stream of invocations, only channel `c`'s last position
      changes, and only while its handler is subscribed; it ends at the last
      accepted sample. */
  lemma {:induction false} RunMovesOnlyLast(t: Tracker, c: Channel, samples: seq<Sample>)
    ensures Run(t, c, samples).tracker
         == t.With(c, t.Of(c).(last := if t.Of(c).subscriptions > 0
                                       then LastAfter(t.Of(c).last, Accepted(samples))
                                       else t.Of(c).last))
    decreases |samples|
  {
    if |samples| > 0 {
      var tail := samples[1..];
      var first := Invoke(t, c, samples[0]);
      var slot := t.Of(c);
      var mid := first.tracker.Of(c).last;
      var final := if slot.subscriptions > 0 then LastAfter(slot.last, Accepted(samples)) else slot.last;
      assert Run(t, c, samples).tracker == Run(first.tracker, c, tail).tracker;
      assert first.tracker == t.With(c, slot.(last := mid));
      RunMovesOnlyLast(first.tracker, c, tail);
      if slot.subscriptions > 0 {
        FirstStepLast(slot, samples);
      }
      WithTwice(t, c, slot.(last := mid), slot.(last := final));
    }
  }

  /** Over any stream of invocations, channel `c` notifies exactly the
      deduplicated stream of its accepted samples when its handler is
      subscribed, and nothing otherwise; the other channel is never
      notified. */
  lemma {:induction false} RunNotifiesDedup(t: Tracker, c: Channel, samples: seq<Sample>)
    ensures Notified(c, Run(t, c, samples).effects)
         == if t.Of(c).subscriptions > 0 then Dedup(t.Of(c).last, Accepted(samples)) else []
    ensures Notified(Other(c), Run(t, c, samples).effects) == []
    decreases |samples|
  {
    if |samples| > 0 {
      var s := samples[0];
      var tail := samples[1..];
      var first := Invoke(t, c, s);
      var rest := Run(first.tracker, c, tail);
      var slot := t.Of(c);
      var acc := Accepted(tail);
      RunNotifiesDedup(first.tracker, c, tail);
      NotifiedAppend(c, first.effects, rest.effects);
      NotifiedAppend(Other(c), first.effects, rest.effects);
      assert first.tracker.Of(c).subscriptions == slot.subscriptions;
      if s.nCode >= 0 {
        assert Accepted(samples) == [s.at] + acc;
        assert ([s.at] + acc)[1..] == acc;
      } else {
        assert Accepted(samples) == acc;
      }
    }
  }

  /** Over any stream of invocations, every raise of channel `c`'s event
      runs its handler once per subscription: subscribed twice, the handler
      receives each reported point twice in a row. */
  lemma {:induction false} RunRaisesToEveryHandler(t: Tracker, c: Channel, samples: seq<Sample>)
    ensures RaisesTo(Run(t, c, samples).effects, c, t.Of(c).subscriptions)
    decreases |samples|
  {
    if |samples| > 0 {
      var first := Invoke(t, c, samples[0]);
      var rest := Run(first.tracker, c, samples[1..]);
      assert Run(t, c, samples).effects == first.effects + rest.effects;
      assert first.tracker.Of(c).subscriptions == t.Of(c).subscriptions;
      RunRaisesToEveryHandler(first.tracker, c, samples[1..]);
      RaisesToAppend(first.effects, rest.effects, c, t.Of(c).subscriptions);
    }
  }

  /** Fed from a freshly constructed tracker with the handler subscribed,
      the global channel reports the deduplicated stream starting from the
      default position (0,0), so a leading (0,0) sample is never reported. */
  lemma FreshGlobalStream(t: Tracker, samples: seq<Sample>)
    requires t.global.last == Origin && t.global.subscriptions > 0
    ensures Notified(Global, Run(t, Global, samples).effects) == Dedup(Origin, Accepted(samples))
    ensures |Notified(Global, Run(t, Global, samples).effects)| > 0 ==>
      Notified(Global, Run(t, Global, samples).effects)[0] != Origin
  {
    RunNotifiesDedup(t, Global, samples);
  }
}
