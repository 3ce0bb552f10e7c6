/** The asynchronous control monitor of one agent: a stop latch with a freshness
    bound and at most one read outstanding. */
module ControlMonitor {
  import opened Wrappers

  /** control_poll_seconds and control_max_age_seconds, as validated. */
  datatype Settings = Settings(enabled: bool, poll: int, maxAge: int)

  predicate Validated(s: Settings) {
    1 <= s.poll <= s.maxAge
  }

  /** How a completed read came back. */
  datatype Reply = Answer(stop: bool) | Failure

  /** submissions logs when each control read was handed to the executor. */
  datatype State = State(stopped: bool, observedAt: int, nextPoll: int, pending: bool, submissions: seq<int>)

  predicate Consistent(s: State) {
    s.pending ==> s.submissions != []
  }

  function SubmittedAt(s: State): int
    requires s.submissions != []
  {
    s.submissions[|s.submissions| - 1]
  }

  function Begin(cfg: Settings, now: int): State {
    State(!cfg.enabled, now, 0, false, [])
  }

  /** A completed read: a good one dates the observation from its submission. */
  function Collect(s: State, done: Option<Reply>): (t: State)
    requires Consistent(s)
  {
    if !s.pending || done.None? then s
    else if done.value.Failure? then s.(pending := false)
    else s.(pending := false, stopped := s.stopped || done.value.stop, observedAt := SubmittedAt(s))
  }

  function Ticked(cfg: Settings, s: State, now: int, done: Option<Reply>): (t: State)
    requires Consistent(s)
  {
    var t := Collect(s, done);
    var u := if now - t.observedAt >= cfg.maxAge then t.(stopped := true) else t;
    if !u.pending && now >= u.nextPoll
    then u.(pending := true, submissions := u.submissions + [now], nextPoll := now + cfg.poll) else u
  }

  class ControlMonitor {
    const settings: Settings
    var stopped: bool
    var observedAt: int
    var submittedAt: Option<int>
    var nextPoll: int
    var pending: bool
    ghost var submissions: seq<int>

    ghost predicate Valid()
      reads this
    {
      && Consistent(View())
      && (submittedAt.Some? <==> submissions != [])
      && (submittedAt.Some? ==> submittedAt.value == SubmittedAt(View()))
    }

    ghost function View(): State
      reads this
    {
      State(stopped, observedAt, nextPoll, pending, submissions)
    }

    constructor (settings: Settings, now: int)
      ensures Valid() && View() == Begin(settings, now) && this.settings == settings
    {
      this.settings := settings;
      stopped := !settings.enabled;
      observedAt := now;
      submittedAt := None;
      nextPoll := 0;
      pending := false;
      submissions := [];
    }

    /** done is the pending read's result, if it has completed by now. */
    method Tick(now: int, done: Option<Reply>) returns (r: bool)
      requires Valid()
      modifies this
      ensures Valid() && View() == Ticked(settings, old(View()), now, done) && r == stopped
    {
      if pending && done.Some? {
        match done.value {
          case Answer(stop) =>
            stopped := stopped || stop;
            observedAt := submittedAt.value;
          case Failure =>
        }
        pending := false;
      }
      if now - observedAt >= settings.maxAge {
        stopped := true;
      }
      if !pending && now >= nextPoll {
        submittedAt := Some(now);
        submissions := submissions + [now];
        pending := true;
        nextPoll := now + settings.poll;
      }
      r := stopped;
    }
  }

  // ----- Runs: any tick times, any delays, any failures -----

  datatype Event = Event(now: int, done: Option<Reply>)

  function Run(cfg: Settings, start: int, events: seq<Event>): (s: State)
    ensures Consistent(s)
  {
    if events == [] then Begin(cfg, start)
    else
      var e := events[|events| - 1];
      Ticked(cfg, Run(cfg, start, events[..|events| - 1]), e.now, e.done)
  }

  /** The clock never goes back, and is past the executor's epoch. */
  predicate Clocked(start: int, events: seq<Event>) {
    && (forall e | e in events :: start <= e.now)
    && forall i, j | 0 <= i < j < |events| :: events[i].now <= events[j].now
  }

  /** The read collected from state s was not submitted after the stop and yet
      answered that there is none. */
  predicate Honest(s: State, done: Option<Reply>, T: int)
    requires Consistent(s)
  {
    s.pending && SubmittedAt(s) >= T && done.Some? && done.value.Answer? ==> done.value.stop
  }

  predicate HonestAt(cfg: Settings, start: int, events: seq<Event>, T: int, k: nat)
    requires k < |events|
  {
    Honest(Run(cfg, start, events[..k]), events[k].done, T)
  }

  /** A stop is in force from time T on: a read submitted no earlier cannot come
      back with an answer that misses it. */
  predicate StopFrom(cfg: Settings, start: int, events: seq<Event>, T: int) {
    forall k | 0 <= k < |events| :: HonestAt(cfg, start, events, T, k)
  }

  lemma StopFromPrefix(cfg: Settings, start: int, events: seq<Event>, T: int)
    requires events != [] && StopFrom(cfg, start, events, T)
    ensures StopFrom(cfg, start, events[..|events| - 1], T)
  {
    var before := events[..|events| - 1];
    forall k | 0 <= k < |before| ensures HonestAt(cfg, start, before, T, k) {
      assert HonestAt(cfg, start, events, T, k);
      assert before[..k] == events[..k];
    }
  }

  lemma TickSeesNothing(cfg: Settings, s: State, e: Event, T: int)
    requires Consistent(s) && (s.stopped || s.observedAt <= T) && Honest(s, e.done, T)
    ensures var t := Ticked(cfg, s, e.now, e.done);
      && (t.stopped || t.observedAt <= T)
      && (e.now >= T + cfg.maxAge ==> t.stopped)
  {
  }

  /** While it has not stopped, everything it has observed predates the stop. */
  lemma {:induction false} UnstoppedSawNothing(cfg: Settings, start: int, events: seq<Event>, T: int)
    requires start <= T && StopFrom(cfg, start, events, T)
    ensures var s := Run(cfg, start, events); s.stopped || s.observedAt <= T
    ensures events != [] && events[|events| - 1].now >= T + cfg.maxAge ==> Run(cfg, start, events).stopped
  {
    if events != [] {
      var n := |events| - 1;
      StopFromPrefix(cfg, start, events, T);
      UnstoppedSawNothing(cfg, start, events[..n], T);
      assert HonestAt(cfg, start, events, T, n);
      TickSeesNothing(cfg, Run(cfg, start, events[..n]), events[n], T);
    }
  }

  /** Bounded stop latency: with a stop in force from T, placed after construction,
      no tick at or after T + maxAge returns unstopped, whatever the delays. */
  lemma BoundedStop(cfg: Settings, start: int, events: seq<Event>, T: int)
    requires events != [] && start <= T && StopFrom(cfg, start, events, T)
    requires events[|events| - 1].now >= T + cfg.maxAge
    ensures Run(cfg, start, events).stopped
  {
    UnstoppedSawNothing(cfg, start, events, T);
  }

  /** The bound is tight: for every setting and every T a stop can go unnoticed by a
      tick one second before it. */
  lemma BoundIsTight(cfg: Settings, T: int)
    requires Validated(cfg) && cfg.enabled && 0 <= T
    ensures var events := [Event(T, None), Event(T + cfg.maxAge - 1, None)];
      && Clocked(T, events) && StopFrom(cfg, T, events, T)
      && !Run(cfg, T, events).stopped
  {
    var events := [Event(T, None), Event(T + cfg.maxAge - 1, None)];
    assert events[..1] == [events[0]] && [events[0]][..0] == [];
    assert Run(cfg, T, [events[0]]) == Ticked(cfg, Begin(cfg, T), T, None);
    forall k | 0 <= k < |events| ensures HonestAt(cfg, T, events, T, k) {
      assert events[k].done == None;
    }
  }

  /** A stop is final. */
  lemma {:induction false} StopIsFinal(cfg: Settings, start: int, events: seq<Event>, k: nat)
    requires k <= |events| && Run(cfg, start, events[..k]).stopped
    ensures Run(cfg, start, events).stopped
    decreases |events|
  {
    if k == |events| {
      assert events[..k] == events;
    } else {
      assert events[..|events| - 1][..k] == events[..k];
      StopIsFinal(cfg, start, events[..|events| - 1], k);
    }
  }

  // ----- When it stops, exactly -----

  /** The submission time of the last read answered in the first k events. */
  function LastGood(cfg: Settings, start: int, events: seq<Event>, k: nat): int
    requires k <= |events|
  {
    if k == 0 then start
    else
      var s := Run(cfg, start, events[..k - 1]);
      if s.pending && events[k - 1].done.Some? && events[k - 1].done.value.Answer? then SubmittedAt(s)
      else LastGood(cfg, start, events, k - 1)
  }

  predicate TickStops(cfg: Settings, start: int, events: seq<Event>, k: nat)
    requires k < |events|
  {
    || (Run(cfg, start, events[..k]).pending && events[k].done == Some(Answer(true)))
    || events[k].now - LastGood(cfg, start, events, k + 1) >= cfg.maxAge
  }

  lemma {:induction false} LastGoodPrefix(cfg: Settings, start: int, events: seq<Event>, k: nat)
    requires k < |events|
    ensures LastGood(cfg, start, events[..|events| - 1], k) == LastGood(cfg, start, events, k)
  {
    var before := events[..|events| - 1];
    if k > 0 {
      assert before[..k - 1] == events[..k - 1] && before[k - 1] == events[k - 1];
      LastGoodPrefix(cfg, start, events, k - 1);
    }
  }

  lemma {:induction false} ObservedIsLastGood(cfg: Settings, start: int, events: seq<Event>)
    ensures Run(cfg, start, events).observedAt == LastGood(cfg, start, events, |events|)
  {
    if events != [] {
      var before := events[..|events| - 1];
      ObservedIsLastGood(cfg, start, before);
      LastGoodPrefix(cfg, start, events, |events| - 1);
    }
  }

  /** It has stopped if and only if it began disabled, or some tick collected a stop
      or found the last answered read, dated from its submission, too old. */
  lemma {:induction false} StopsExactly(cfg: Settings, start: int, events: seq<Event>)
    ensures Run(cfg, start, events).stopped
      <==> !cfg.enabled || exists k | 0 <= k < |events| :: TickStops(cfg, start, events, k)
  {
    if events != [] {
      var before, n := events[..|events| - 1], |events| - 1;
      StopsExactly(cfg, start, before);
      ObservedIsLastGood(cfg, start, events);
      forall k | 0 <= k < n ensures TickStops(cfg, start, before, k) == TickStops(cfg, start, events, k) {
        assert before[..k] == events[..k];
        if k + 1 <= n { LastGoodPrefix(cfg, start, events, k + 1); }
      }
      assert Run(cfg, start, events).stopped <==> Run(cfg, start, before).stopped || TickStops(cfg, start, events, n);
      if exists k | 0 <= k < n :: TickStops(cfg, start, before, k) {
        var k :| 0 <= k < n && TickStops(cfg, start, before, k);
        assert TickStops(cfg, start, events, k);
      }
    }
  }

  // ----- Reads -----

  predicate Spaced(cfg: Settings, s: State) {
    && (forall i | 0 < i < |s.submissions| :: s.submissions[i] >= s.submissions[i - 1] + cfg.poll)
    && (s.submissions != [] ==> s.nextPoll == SubmittedAt(s) + cfg.poll)
  }

  /** A tick submits at most one read, a poll interval after the last one at the
      earliest, and none while one is outstanding. */
  lemma OneReadOutstanding(cfg: Settings, s: State, now: int, done: Option<Reply>)
    requires Consistent(s) && Spaced(cfg, s)
    ensures var t := Ticked(cfg, s, now, done);
      && Spaced(cfg, t)
      && (t.submissions == s.submissions
          || (t.submissions == s.submissions + [now] && t.pending && (s.pending ==> done.Some?)))
  {
    var t := Ticked(cfg, s, now, done);
    if t.submissions != s.submissions {
      assert t.submissions == s.submissions + [now];
    }
  }

  lemma {:induction false} ReadsAreSpaced(cfg: Settings, start: int, events: seq<Event>)
    ensures Spaced(cfg, Run(cfg, start, events))
  {
    if events != [] {
      var n := |events| - 1;
      ReadsAreSpaced(cfg, start, events[..n]);
      OneReadOutstanding(cfg, Run(cfg, start, events[..n]), events[n].now, events[n].done);
    }
  }
}
