/** The heartbeat gate before a handoff: the successor must show enough distinct fresh
    heartbeats, spaced by the heartbeat interval, before the deadline. */
module HeartbeatGate {
  import opened Wrappers

  /** readiness_required_heartbeats, heartbeat_interval_seconds,
      readiness_poll_seconds, readiness_timeout_seconds */
  datatype Settings = Settings(required: int, interval: int, poll: int, timeout: int)

  predicate Validated(s: Settings) {
    s.interval >= 1 && s.poll >= 1 && s.timeout >= 0
  }

  /** The successor's state row: whether every identity field is as approved, and
      its heartbeat. */
  datatype Beat = Beat(approved: bool, number: int, at: int)

  datatype StackStatus = Missing | Failed | InProgress | Created

  /** What one poll finds: the lease renewed or not, the stack, the row, the time at
      which the row is judged. */
  datatype Poll = Poll(renewed: bool, stack: StackStatus, row: Option<Beat>, now: int)

  function Freshness(s: Settings): int {
    if s.interval >= s.poll then s.interval * 3 else s.poll * 3
  }

  predicate Eligible(s: Settings, b: Beat, now: int) {
    b.approved && 0 <= now - b.at <= Freshness(s)
  }

  datatype Outcome = Ready(beat: Beat) | Disappeared | StackFailed | LeaseLost | TimedOut

  /** The beats that count, from eligible ones in the order they were read: the
      first, then each that differs from the last counted one and is at least an
      interval later. */
  function Counted(s: Settings, beats: seq<Beat>): seq<Beat> {
    if beats == [] then []
    else
      var c, b := Counted(s, beats[..|beats| - 1]), beats[|beats| - 1];
      if c == [] || (b.number != c[|c| - 1].number && b.at - c[|c| - 1].at >= s.interval) then c + [b] else c
  }

  predicate Enough(s: Settings, count: nat) {
    count >= 1 && count >= s.required
  }

  /** The eligible beats of the first n polls. */
  function Observed(s: Settings, polls: nat -> Poll, n: nat): seq<Beat> {
    if n == 0 then []
    else
      var p := polls(n - 1);
      Observed(s, polls, n - 1)
        + (if p.renewed && p.stack == Created && p.row.Some? && Eligible(s, p.row.value, p.now)
           then [p.row.value] else [])
  }

  /** The beats counted in the first n polls. */
  function CountedIn(s: Settings, polls: nat -> Poll, n: nat): seq<Beat> {
    Counted(s, Observed(s, polls, n))
  }

  predicate Counts(s: Settings, c: seq<Beat>, p: Poll) {
    && p.renewed && p.stack == Created && p.row.Some? && Eligible(s, p.row.value, p.now)
    && (c == [] || (p.row.value.number != c[|c| - 1].number && p.row.value.at - c[|c| - 1].at >= s.interval))
  }

  lemma CountStep(s: Settings, polls: nat -> Poll, n: nat)
    ensures CountedIn(s, polls, n + 1) ==
      CountedIn(s, polls, n) + if Counts(s, CountedIn(s, polls, n), polls(n)) then [polls(n).row.value] else []
  {
    var beats, p := Observed(s, polls, n), polls(n);
    if p.renewed && p.stack == Created && p.row.Some? && Eligible(s, p.row.value, p.now) {
      assert (beats + [p.row.value])[..|beats|] == beats;
    } else {
      assert beats + [] == beats;
    }
  }

  /** What the loop remembers of the counted beats: the last one and their number. */
  function Tally(c: seq<Beat>): (Option<Beat>, nat) {
    (if c == [] then None else Some(c[|c| - 1]), |c|)
  }

  lemma TallyStep(s: Settings, c: seq<Beat>, p: Poll)
    ensures Counts(s, c, p) ==> Tally(c + [p.row.value]) == (Some(p.row.value), |c| + 1)
    ensures c + [] == c
  {
  }

  lemma {:induction false} ClockAdvances(s: Settings, start: int, clock: nat -> int, n: nat)
    requires start <= clock(0) && forall k: nat :: clock(k + 1) >= clock(k) + s.poll
    ensures clock(n) >= start + n * s.poll
  {
    if n > 0 {
      ClockAdvances(s, start, clock, n - 1);
      assert n * s.poll == (n - 1) * s.poll + s.poll;
      assert clock(n - 1 + 1) >= clock(n - 1) + s.poll;
    }
  }

  lemma NonNegative(x: int, poll: int)
    requires poll >= 1
    ensures x >= 0 ==> x * poll >= 0
  {
  }

  lemma FactorBound(n: int, q: int, poll: int)
    requires poll >= 1 && n * poll < q * poll + poll
    ensures n <= q
  {
    assert (n - q - 1) * poll == n * poll - q * poll - poll;
    NonNegative(n - q - 1, poll);
  }

  lemma QuotientBound(timeout: int, poll: int)
    requires poll >= 1
    ensures timeout < (timeout / poll) * poll + poll
  {
  }

  lemma PollsFit(s: Settings, start: int, clock: nat -> int, n: nat)
    requires Validated(s) && start <= clock(0) && forall k: nat :: clock(k + 1) >= clock(k) + s.poll
    requires clock(n) <= start + s.timeout
    ensures n <= s.timeout / s.poll
  {
    ClockAdvances(s, start, clock, n);
    QuotientBound(s.timeout, s.poll);
    FactorBound(n, s.timeout / s.poll, s.poll);
  }

  /** A poll after which the wait goes on: the lease held, the stack neither gone nor
      failed. */
  predicate Undisturbed(p: Poll) {
    p.renewed && p.stack != Missing && p.stack != Failed
  }

  /** Each of the first n polls was in time and left the wait going on. */
  ghost predicate WentOn(s: Settings, start: int, clock: nat -> int, polls: nat -> Poll, n: nat) {
    forall k: nat | k < n :: Continues(s, start, clock, polls, k)
  }

  predicate Continues(s: Settings, start: int, clock: nat -> int, polls: nat -> Poll, k: nat) {
    clock(k) <= start + s.timeout && Undisturbed(polls(k)) && !Enough(s, |CountedIn(s, polls, k + 1)|)
  }

  /** Why a wait of n polls ends without a successor, in terms of the last poll. */
  predicate Explains(outcome: Outcome, last: Poll) {
    match outcome
    case LeaseLost => !last.renewed
    case Disappeared => last.renewed && last.stack == Missing
    case StackFailed => last.renewed && last.stack == Failed
    case Ready(b) => Undisturbed(last) && last.stack == Created && last.row == Some(b)
    case TimedOut => Undisturbed(last)
  }

  lemma WaitGoesOn(s: Settings, start: int, clock: nat -> int, polls: nat -> Poll, n: nat, prior: Option<Beat>,
                   accepted: nat)
    requires n > 0 && WentOn(s, start, clock, polls, n - 1)
    requires clock(n - 1) <= start + s.timeout && Undisturbed(polls(n - 1))
    requires (prior, accepted) == Tally(CountedIn(s, polls, n)) && !Enough(s, accepted)
    ensures WentOn(s, start, clock, polls, n)
  {
    assert n - 1 + 1 == n;
    assert Continues(s, start, clock, polls, n - 1);
  }

  /** wait_for_healthy_successor. The k-th poll happens at clock(k). */
  method WaitForHealthySuccessor(s: Settings, start: int, clock: nat -> int, polls: nat -> Poll)
    returns (outcome: Outcome, n: nat)
    requires Validated(s)
    requires start <= clock(0) && forall k: nat :: clock(k + 1) >= clock(k) + s.poll
    ensures n <= s.timeout / s.poll + 1
    ensures outcome.Ready? <==> Enough(s, |CountedIn(s, polls, n)|)
    ensures outcome == TimedOut ==> clock(n) > start + s.timeout
    ensures outcome != TimedOut ==> n > 0 && clock(n - 1) <= start + s.timeout
    ensures n > 0 ==> Explains(outcome, polls(n - 1))
    ensures n > 0 ==> WentOn(s, start, clock, polls, n - 1)
  {
    var deadline := start + s.timeout;
    ghost var bound := s.timeout / s.poll;
    var prior: Option<Beat> := None;
    var accepted: nat := 0;
    n := 0;
    while clock(n) <= deadline
      invariant n <= bound + 1
      invariant !Enough(s, accepted) && (prior, accepted) == Tally(CountedIn(s, polls, n))
      invariant WentOn(s, start, clock, polls, n) && (n > 0 ==> Undisturbed(polls(n - 1)))
      decreases bound + 1 - n
    {
      var p := polls(n);
      PollsFit(s, start, clock, n);
      CountStep(s, polls, n);
      TallyStep(s, CountedIn(s, polls, n), p);
      n := n + 1;
      if !p.renewed { return LeaseLost, n; }
      if p.stack == Missing { return Disappeared, n; }
      if p.stack == Failed { return StackFailed, n; }
      if p.stack == Created && p.row.Some? && Eligible(s, p.row.value, p.now) {
        var state := p.row.value;
        if prior.None? {
          prior, accepted := Some(state), 1;
          if s.required <= 1 { return Ready(state), n; }
        } else if state.number != prior.value.number {
          var elapsed := state.at - prior.value.at;
          if elapsed >= s.interval {
            prior, accepted := Some(state), accepted + 1;
            if accepted >= s.required { return Ready(state), n; }
          }
        }
      }
      WaitGoesOn(s, start, clock, polls, n, prior, accepted);
    }
    outcome := TimedOut;
  }

  // ----- What the counted beats are -----

  predicate Spaced(s: Settings, b: Beat, c: Beat) {
    b.number != c.number && c.at - b.at >= s.interval
  }

  predicate Chain(s: Settings, beats: seq<Beat>) {
    forall i | 0 < i < |beats| :: Spaced(s, beats[i - 1], beats[i])
  }

  lemma {:induction false} CountedIsChain(s: Settings, beats: seq<Beat>)
    ensures Chain(s, Counted(s, beats)) && forall b | b in Counted(s, beats) :: b in beats
  {
    if beats != [] { CountedIsChain(s, beats[..|beats| - 1]); }
  }

  lemma {:induction false} ChainSpan(s: Settings, c: seq<Beat>, i: nat)
    requires Chain(s, c) && i < |c| && s.interval >= 1
    ensures c[i].at - c[0].at >= i * s.interval
    ensures forall j | 0 <= j < i :: c[j].at < c[i].at
  {
    if i > 0 {
      ChainSpan(s, c, i - 1);
      assert Spaced(s, c[i - 1], c[i]);
      assert i * s.interval == (i - 1) * s.interval + s.interval;
    }
  }

  /** Ready means: the required number of heartbeats was read, each eligible when it
      was read, all distinct, neighbours at least an interval apart, so the first and
      the last at least (required - 1) intervals apart. */
  lemma ReadyMeansHealthy(s: Settings, polls: nat -> Poll, n: nat)
    requires Validated(s) && Enough(s, |CountedIn(s, polls, n)|)
    ensures var c := CountedIn(s, polls, n);
      && |c| >= s.required && Chain(s, c)
      && (forall i, j | 0 <= i < j < |c| :: c[i] != c[j] && c[i].at < c[j].at)
      && c[|c| - 1].at - c[0].at >= (|c| - 1) * s.interval
      && (forall b | b in c :: exists k: nat :: k < n && ShownBy(s, polls(k), b))
  {
    var c := CountedIn(s, polls, n);
    CountedIsChain(s, Observed(s, polls, n));
    forall j | 0 <= j < |c| ensures forall i | 0 <= i < j :: c[i].at < c[j].at { ChainSpan(s, c, j); }
    ChainSpan(s, c, |c| - 1);
    forall b | b in c ensures exists k: nat :: k < n && ShownBy(s, polls(k), b) { ObservedExactly(s, polls, n, b); }
  }

  /** The poll found this heartbeat in a row with every identity as approved, of a
      created stack, under a held lease, not from the future and at most three of the
      longer interval old. */
  predicate ShownBy(s: Settings, p: Poll, b: Beat) {
    && p.renewed && p.stack == Created && p.row == Some(b) && b.approved
    && b.at <= p.now && p.now - b.at <= 3 * (if s.poll > s.interval then s.poll else s.interval)
  }

  /** The heartbeats that may count are exactly those the polls showed. */
  lemma {:induction false} ObservedExactly(s: Settings, polls: nat -> Poll, n: nat, b: Beat)
    ensures b in Observed(s, polls, n) <==> exists k: nat :: k < n && ShownBy(s, polls(k), b)
  {
    if n > 0 {
      ObservedExactly(s, polls, n - 1, b);
      assert ShownBy(s, polls(n - 1), b) <==> b in Observed(s, polls, n)[|Observed(s, polls, n - 1)|..];
    }
  }

  // ----- And no chain is missed -----

  /** Increasing positions. */
  predicate Picks(idx: seq<nat>, n: nat) {
    (forall i | 0 <= i < |idx| :: idx[i] < n) && forall i, j | 0 <= i < j < |idx| :: idx[i] < idx[j]
  }

  function Picked(beats: seq<Beat>, idx: seq<nat>): seq<Beat>
    requires Picks(idx, |beats|)
  {
    seq(|idx|, i requires 0 <= i < |idx| => beats[idx[i]])
  }

  /** One heartbeat number, one heartbeat, and they are read in order. */
  predicate Genuine(beats: seq<Beat>) {
    forall i, j | 0 <= i < j < |beats| ::
      beats[i].at <= beats[j].at && (beats[i].number == beats[j].number ==> beats[i].at == beats[j].at)
  }

  lemma LastCounted(s: Settings, beats: seq<Beat>)
    requires Genuine(beats) && Counted(s, beats) != []
    ensures var c := Counted(s, beats);
      forall i | 0 <= i < |beats| :: beats[i].at <= beats[|beats| - 1].at && c[|c| - 1].at <= beats[|beats| - 1].at
  {
    CountedIsChain(s, beats);
    var c := Counted(s, beats);
    assert c[|c| - 1] in beats;
  }

  /** Counting greedily is optimal: among beats read in order no spaced chain is
      longer than the counted one. */
  lemma {:induction false} NoLongerChain(s: Settings, beats: seq<Beat>, idx: seq<nat>)
    requires Validated(s) && Genuine(beats) && Picks(idx, |beats|) && Chain(s, Picked(beats, idx))
    ensures var c := Counted(s, beats);
      && |idx| <= |c|
      && (idx != [] && |idx| == |c| ==> c[|c| - 1].at <= beats[idx[|idx| - 1]].at)
    decreases |beats|
  {
    if idx != [] {
      assert idx[0] < |beats|;
      var n := |beats| - 1;
      var before := beats[..n];
      if idx[|idx| - 1] < n {
        assert Picked(before, idx) == Picked(beats, idx);
        NoLongerChain(s, before, idx);
      } else {
        var rest := idx[..|idx| - 1];
        assert Picked(before, rest) == Picked(beats, idx)[..|rest|];
        NoLongerChain(s, before, rest);
        LastPicked(s, beats, idx);
      }
    }
  }

  lemma DistinctNumbers(beats: seq<Beat>, k: nat, n: nat)
    requires Genuine(beats) && k < n < |beats| && beats[k].at < beats[n].at
    ensures beats[k].number != beats[n].number
  {
  }

  lemma ChainEnd(s: Settings, beats: seq<Beat>, idx: seq<nat>)
    requires Picks(idx, |beats|) && Chain(s, Picked(beats, idx)) && |idx| >= 2
    ensures Spaced(s, beats[idx[|idx| - 2]], beats[idx[|idx| - 1]])
  {
    var i := |idx| - 1;
    assert Spaced(s, Picked(beats, idx)[i - 1], Picked(beats, idx)[i]);
  }

  lemma LastPicked(s: Settings, beats: seq<Beat>, idx: seq<nat>)
    requires Validated(s) && Genuine(beats) && Picks(idx, |beats|) && Chain(s, Picked(beats, idx))
    requires idx != [] && idx[|idx| - 1] == |beats| - 1
    requires var n, rest, c := |beats| - 1, idx[..|idx| - 1], Counted(s, beats[..|beats| - 1]);
      |rest| <= |c| && (rest != [] && |rest| == |c| ==> c[|c| - 1].at <= beats[rest[|rest| - 1]].at)
    ensures var c := Counted(s, beats); |idx| <= |c| && (|idx| == |c| ==> c[|c| - 1].at <= beats[|beats| - 1].at)
  {
    var n := |beats| - 1;
    var before, rest := beats[..n], idx[..|idx| - 1];
    var c := Counted(s, before);
    CountedIsChain(s, beats);
    if |rest| == |c| && c != [] {
      ChainEnd(s, beats, idx);
      CountedIsChain(s, before);
      assert c[|c| - 1] in before;
      var k :| 0 <= k < n && before[k] == c[|c| - 1];
      DistinctNumbers(beats, k, n);
    }
    LastCounted(s, beats);
  }

  /** The gate opens exactly when it should: within the first n polls some spaced
      chain of eligible heartbeats is long enough if and only if the counted one is. */
  lemma GateIsExact(s: Settings, polls: nat -> Poll, n: nat)
    requires Validated(s) && Genuine(Observed(s, polls, n))
    ensures var beats := Observed(s, polls, n);
      Enough(s, |Counted(s, beats)|) <==>
        exists idx: seq<nat> :: Picks(idx, |beats|) && Chain(s, Picked(beats, idx)) && Enough(s, |idx|)
  {
    var beats := Observed(s, polls, n);
    if Enough(s, |Counted(s, beats)|) {
      var idx := CountedPicks(s, beats);
    }
    if idx: seq<nat> :| Picks(idx, |beats|) && Chain(s, Picked(beats, idx)) && Enough(s, |idx|) {
      NoLongerChain(s, beats, idx);
    }
  }

  lemma {:induction false} CountedPicks(s: Settings, beats: seq<Beat>) returns (idx: seq<nat>)
    ensures Picks(idx, |beats|) && Picked(beats, idx) == Counted(s, beats) && Chain(s, Picked(beats, idx))
  {
    idx := [];
    if beats != [] {
      var n := |beats| - 1;
      var before := CountedPicks(s, beats[..n]);
      idx := before;
      if Counted(s, beats) != Counted(s, beats[..n]) {
        idx := before + [n];
        assert Picked(beats, idx) == Picked(beats[..n], before) + [beats[n]];
      } else {
        assert Picked(beats, idx) == Picked(beats[..n], before);
      }
    }
    CountedIsChain(s, beats);
  }
}
