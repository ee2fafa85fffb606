/** The trailing-edge debounce the minimap puts in front of `render` on
    resize, as a state machine over two events: the debounced function is
    called at time `t`, or the pending timer fires at time `t`. Times are
    milliseconds read from the clock; the clock itself is a parameter. */
module Debounce {

  import opened Wrappers

  /** `timer` is the pending timeout, if any, holding the time it was asked
      to fire at; `timestamp` is the time of the latest call. */
  datatype Debouncer = Debouncer(wait: int, immediate: bool, timer: Option<int>, timestamp: int)

  /** A fresh debouncer: no timer pending, no call seen yet. */
  function Idle(wait: int, immediate: bool): (d: Debouncer)
    ensures d.timer == None && d.wait == wait && d.immediate == immediate
  {
    Debouncer(wait, immediate, None, 0)
  }

  /** The new state and whether the wrapped function ran. */
  datatype Step = Step(next: Debouncer, invoked: bool)

  /** The debounced function is called at time `now`: the timestamp moves to
      `now`, a timer is started only if none is pending, and the wrapped
      function runs at once only in `immediate` mode with no timer pending. */
  function Call(d: Debouncer, now: int): (s: Step)
    ensures s.next.timestamp == now
    ensures s.next.wait == d.wait && s.next.immediate == d.immediate
    ensures d.timer.Some? ==> s.next.timer == d.timer
    ensures d.timer.None? ==> s.next.timer == Some(now + d.wait)
    ensures s.invoked <==> d.immediate && d.timer.None?
  {
    var callNow := d.immediate && d.timer.None?;
    var timer := if d.timer.None? then Some(now + d.wait) else d.timer;
    Step(d.(timer := timer, timestamp := now), callNow)
  }

  /** Less than `wait` has passed since the latest call (and the clock has
      not gone back past it). */
  predicate TooSoon(d: Debouncer, now: int) {
    0 <= now - d.timestamp < d.wait
  }

  /** The pending timer fires at time `now`. Too soon after the latest call
      it is started again for the rest of the quiet period, which ends
      `wait` after that call; otherwise it is cleared and, unless in
      `immediate` mode, the wrapped function runs. */
  function Fire(d: Debouncer, now: int): (s: Step)
    requires d.timer.Some?
    ensures s.next.timestamp == d.timestamp
    ensures s.next.wait == d.wait && s.next.immediate == d.immediate
    ensures TooSoon(d, now) ==> s.next.timer == Some(d.timestamp + d.wait)
    ensures !TooSoon(d, now) ==> s.next.timer == None
    ensures s.invoked <==> !d.immediate && !TooSoon(d, now)
  {
    var last := now - d.timestamp;
    if last < d.wait && last >= 0 then
      Step(d.(timer := Some(now + (d.wait - last))), false)
    else
      Step(d.(timer := None), !d.immediate)
  }

  datatype Event = CallAt(t: int) | FireAt(t: int)

  /** One event. A timer event with no timer pending cannot happen; it is
      read as leaving the state alone. */
  function Apply(d: Debouncer, e: Event): Step {
    match e
    case CallAt(t) => Call(d, t)
    case FireAt(t) => if d.timer.Some? then Fire(d, t) else Step(d, false)
  }

  /** The final state after a run of events, and how many times the wrapped
      function ran. */
  datatype Outcome = Outcome(last: Debouncer, invocations: nat)

  function Run(d: Debouncer, events: seq<Event>): Outcome
    decreases |events|
  {
    if |events| == 0 then Outcome(d, 0)
    else
      var s := Apply(d, events[0]);
      var rest := Run(s.next, events[1..]);
      Outcome(rest.last, rest.invocations + (if s.invoked then 1 else 0))
  }

  lemma {:induction false} RunAppend(d: Debouncer, a: seq<Event>, b: seq<Event>)
    ensures Run(d, a + b).last == Run(Run(d, a).last, b).last
    ensures Run(d, a + b).invocations == Run(d, a).invocations + Run(Run(d, a).last, b).invocations
    decreases |a|
  {
    if |a| == 0 {
      assert a + b == b;
    } else {
      assert (a + b)[0] == a[0];
      assert (a + b)[1..] == a[1..] + b;
      RunAppend(Apply(d, a[0]).next, a[1..], b);
    }
  }

  /** A burst: calls at non-decreasing times and timer events that each come
      less than `wait` after the latest call, `latest` being the time of the
      call before the burst. */
  predicate Burst(events: seq<Event>, wait: int, latest: int)
    decreases |events|
  {
    if |events| == 0 then true
    else match events[0]
      case CallAt(t) => latest <= t && Burst(events[1..], wait, t)
      case FireAt(t) => latest <= t < latest + wait && Burst(events[1..], wait, latest)
  }

  /** The time of the last call in a burst (`latest` if it has none). */
  function LastCall(events: seq<Event>, latest: int): int
    decreases |events|
  {
    if |events| == 0 then latest
    else match events[0]
      case CallAt(t) => LastCall(events[1..], t)
      case FireAt(_) => LastCall(events[1..], latest)
  }

  /** During a burst with a timer pending, the trailing-edge debouncer never
      runs the wrapped function: the one timer keeps being restarted and the
      timestamp follows the calls. */
  lemma {:induction false} BurstNeverInvokes(d: Debouncer, events: seq<Event>)
    requires !d.immediate && d.timer.Some?
    requires Burst(events, d.wait, d.timestamp)
    ensures Run(d, events).invocations == 0
    ensures Run(d, events).last.timer.Some?
    ensures Run(d, events).last.timestamp == LastCall(events, d.timestamp)
    ensures Run(d, events).last.wait == d.wait && !Run(d, events).last.immediate
    decreases |events|
  {
    if |events| > 0 {
      var s := Apply(d, events[0]);
      BurstNeverInvokes(s.next, events[1..]);
    }
  }

  /** A burst of calls during which every timer event comes less than `wait`
      after the latest call, followed by a timer event at least `wait` after
      the last call, runs the wrapped function exactly once, at that last
      timer event, and leaves no timer pending. */
  lemma BurstCollapsesToOneInvocation(wait: int, first: int, burst: seq<Event>, fireAt: int)
    requires Burst(burst, wait, first)
    requires fireAt >= LastCall(burst, first) + wait
    ensures var o := Run(Idle(wait, false), [CallAt(first)] + burst + [FireAt(fireAt)]);
      o.invocations == 1 && o.last.timer == None
  {
    var d0 := Idle(wait, false);
    var d1 := Call(d0, first).next;
    RunAppend(d0, [CallAt(first)], burst);
    assert Run(d0, [CallAt(first)]).last == d1 by {
      assert [CallAt(first)][1..] == [];
    }
    BurstNeverInvokes(d1, burst);
    RunAppend(d0, [CallAt(first)] + burst, [FireAt(fireAt)]);
    var d2 := Run(d0, [CallAt(first)] + burst).last;
    assert [FireAt(fireAt)][1..] == [];
    assert !TooSoon(d2, fireAt);
  }

  /** Leading-edge mode, for completeness: a call with no timer pending runs
      the function at once, and a timer firing never does. */
  lemma ImmediateRunsOnlyOnCall(d: Debouncer, now: int)
    requires d.immediate
    ensures d.timer.None? ==> Call(d, now).invoked
    ensures d.timer.Some? ==> !Fire(d, now).invoked
  {
  }
}
