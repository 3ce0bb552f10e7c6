/** The launching half of an agent's gateway, step by step against the shared store,
    with everybody else's steps in between. Whatever they are, the agent only takes
    steps of the protocol, so every property of its runs applies to this code. */
module FamilyGateway {
  import opened Wrappers
  import opened Paths
  import opened Lineage
  import opened Lifecycle
  import opened Family
  import opened FamilyGrowth
  import opened FamilyLaunch
  import opened FamilyTransactions

  /** A step of somebody else: not of an agent's launch threads, though EC2 may
      decide their calls. */
  predicate Foreign(me: Inst, a: Action) {
    a.Launching? && a.launch.e.parent == me ==> a.launch.Make? || a.launch.Refuse?
  }

  predicate AllForeign(me: Inst, actions: seq<Action>) {
    forall a | a in actions :: Foreign(me, a)
  }

  /** What EC2 decided stays decided. */
  predicate OutcomesKept(l: Launch, l1: Launch) {
    forall n | n in l.outcomes :: n in l1.outcomes && l1.outcomes[n] == l.outcomes[n]
  }

  predicate SameThread(w: World, w1: World, e: Edge) {
    && LaunchAt(w1, e).calls == LaunchAt(w, e).calls && LaunchAt(w1, e).thread == LaunchAt(w, e).thread
    && OutcomesKept(LaunchAt(w, e), LaunchAt(w1, e))
  }

  lemma OutcomeKeepsThread(w: World, a: LaunchStep, w1: World, c: Config)
    requires (a.Make? || a.Refuse?) && NextLaunch(c, w, a) == Some(w1)
    ensures SameThread(w, w1, a.e)
  {
  }

  lemma ForeignKeepsThread(c: Config, w: World, a: Action, w1: World, e: Edge)
    requires Foreign(e.parent, a) && Next(c, w, a) == Some(w1) && RequestInv(w.request)
    ensures SameThread(w, w1, e)
  {
    match a
    case Launching(step) =>
      if step.e == e {
        OutcomeKeepsThread(w, step, w1, c);
      } else {
        OtherLaunchesStay(c, w, step, w1, e);
      }
    case Acts(step) => AgentStepGrows(c, w, step, w1);
    case Cleaning(step) => CleanupStepGrows(c, w, step, w1);
    case Outside(step) => OutsideStepGrows(c, w, step, w1);
  }

  lemma OtherLaunchesStay(c: Config, w: World, a: LaunchStep, w1: World, e: Edge)
    requires NextLaunch(c, w, a) == Some(w1) && e != a.e
    ensures LaunchAt(w1, e) == LaunchAt(w, e)
  {
    if a.Intend? {
      IntendKeepsOthers(c, w, a.e, w1, e);
    } else if ReceiptStep(a) {
      ReceiptStepGrows(c, w, a, w1);
      ReceiptKeepsOthers(w, w1, a.e, e);
    } else {
      ThreadStepFrame(c, w, a, w1);
    }
  }

  lemma ReceiptKeepsOthers(w: World, w1: World, d: Edge, e: Edge)
    requires ReceiptFrame(w, w1, d) && e != d
    ensures LaunchAt(w1, e) == LaunchAt(w, e)
  {
  }

  lemma IntendKeepsOthers(c: Config, w: World, d: Edge, w1: World, e: Edge)
    requires DoIntend(c, w, d) == Some(w1) && e != d
    ensures LaunchAt(w1, e) == LaunchAt(w, e)
  {
  }

  lemma OwnCalls(c: Config, w: World, a: LaunchStep, w1: World)
    requires NextLaunch(c, w, a) == Some(w1)
    ensures LaunchAt(w1, a.e).calls == LaunchAt(w, a.e).calls + if a.CallEc2? then 1 else 0
  {
  }

  lemma OwnOutcomes(c: Config, w: World, a: LaunchStep, w1: World)
    requires NextLaunch(c, w, a) == Some(w1)
    ensures OutcomesKept(LaunchAt(w, a.e), LaunchAt(w1, a.e))
  {
    if !a.Make? && !a.Refuse? { OnlyEc2Decides(c, w, a, w1); }
  }

  lemma OnlyEc2Decides(c: Config, w: World, a: LaunchStep, w1: World)
    requires NextLaunch(c, w, a) == Some(w1) && !a.Make? && !a.Refuse?
    ensures LaunchAt(w1, a.e).outcomes == LaunchAt(w, a.e).outcomes
  {
  }

  lemma RunExtends(c: Config, start: World, trace: seq<Action>, a: Action)
    requires Run(c, start, trace).Some?
    ensures Run(c, start, trace + [a]) == Next(c, Run(c, start, trace).value, a)
  {
    assert (trace + [a])[..|trace|] == trace;
  }

  /** The shared store, and the run that led to it. */
  class Table {
    const config: Config
    ghost const start: World
    var w: World
    ghost var trace: seq<Action>

    ghost predicate Valid()
      reads this
    {
      Initial(config, start) && Run(config, start, trace) == Some(w)
    }

    constructor (config: Config, start: World)
      requires Initial(config, start)
      ensures Valid() && w == start && trace == [] && this.config == config
    {
      this.config, this.start, w, trace := config, start, start, [];
    }

    /** One atomic step, if its conditions hold. */
    method Attempt(a: Action) returns (ok: bool)
      requires Valid()
      modifies this
      ensures Valid() && RequestInv(old(w).request)
      ensures ok <==> Next(config, old(w), a).Some?
      ensures w == if ok then Next(config, old(w), a).value else old(w)
    {
      RunIsSafe(config, start, trace);
      var next := Next(config, w, a);
      ok := next.Some?;
      if ok {
        RunExtends(config, start, trace, a);
        w := next.value;
        trace := trace + [a];
      }
    }
  }

  datatype Answer = LaunchedAs(x: Inst) | Transient | Violation

  /** The durable row says that x was launched at e, settled. */
  predicate SettledAs(w: World, e: Edge, x: Inst) {
    var s := RowsAt(w, EdgePath(e)).submission;
    s.Some? && s.value.token == e && s.value.settled && s.value.instance == Some(x)
  }

  /** Both writes of record_child go through: the submission is e's own and names no
      other instance than x. */
  predicate WritesDue(c: Config, w: World, e: Edge, x: Inst) {
    && BooksOpen(c, w) && EdgePath(e) in w.rows && w.rows[EdgePath(e)].submission.Some?
    && var s := w.rows[EdgePath(e)].submission.value; s.token == e && (s.instance.None? || s.instance == Some(x))
  }

  lemma SettleSettles(c: Config, w: World, e: Edge, w1: World)
    requires DoSettle(c, w, e) == Some(w1)
    ensures SettledAs(w1, e, LaunchAt(w, e).thread.inst) && LaunchAt(w1, e).thread == Resting
  {
  }

  lemma RecordRecords(c: Config, w: World, e: Edge, w1: World)
    requires DoRecord(c, w, e) == Some(w1)
    ensures LaunchAt(w1, e).thread == Inventoried(LaunchAt(w, e).thread.inst)
  {
  }

  /** The durable row says that the last request at e was refused by a throttle. */
  predicate RejectedAs(w: World, e: Edge) {
    var s := RowsAt(w, EdgePath(e)).submission;
    s.Some? && s.value.token == e && s.value.rejected && s.value.instance.None?
  }

  predicate ThrottledAt(l: Launch, n: nat) {
    l.calls == n + 1 && n in l.outcomes && l.outcomes[n] == Throttled
  }

  lemma RejectionIsRecorded(c: Config, w: World, e: Edge, w1: World)
    requires DoRecordThrottle(c, w, e, true) == Some(w1)
    ensures RejectedAs(w1, e) && LaunchAt(w1, e).thread == Resting
  {
  }

  lemma HeardWasThrottled(w: World, e: Edge, w1: World)
    requires DoHear(w, e, Throttled) == Some(w1)
    ensures var l := LaunchAt(w, e);
      l.thread.Waiting? && l.thread.call in l.outcomes && l.outcomes[l.thread.call] == Throttled
    ensures LaunchAt(w1, e).outcomes == LaunchAt(w, e).outcomes
  {
  }

  lemma CalledIsWaiting(w: World, e: Edge, w1: World)
    requires DoCall(w, e) == Some(w1)
    ensures LaunchAt(w1, e).thread == Waiting(LaunchAt(w, e).calls)
  {
  }

  /** What one step of somebody else, if it can be taken, makes of w. */
  function After(c: Config, w: World, a: Action): World {
    var w1 := Next(c, w, a);
    if w1.Some? then w1.value else w
  }

  class FamilyGateway {
    const me: Inst
    const table: Table
    const others: nat -> seq<Action>      // what happens before this agent's n-th step
    const visible: nat -> Option<Inst>    // what its n-th token lookup finds
    const answered: nat -> bool           // whether it hears that its n-th step was written
    var clock: nat

    ghost predicate Valid()
      reads this, table
    {
      table.Valid() && forall n :: AllForeign(me, others(n))
    }

    constructor (me: Inst, table: Table, others: nat -> seq<Action>, visible: nat -> Option<Inst>,
                 answered: nat -> bool)
      requires table.Valid() && forall n :: AllForeign(me, others(n))
      ensures Valid() && this.me == me && this.table == table
    {
      this.me, this.table, this.others, this.visible, this.answered := me, table, others, visible, answered;
      clock := 0;
    }

    /** Nobody else steps in before any of the next n steps. */
    ghost predicate Alone(from: nat, n: nat) {
      forall k | from <= k < from + n :: others(k) == []
    }

    /** Everybody else's steps; this agent's launch threads stay where they are. */
    method Interfere(ghost e: Edge)
      requires Valid() && e.parent == me
      modifies this`clock, table
      ensures Valid() && SameThread(old(table.w), table.w, e) && clock == old(clock) + 1
      ensures others(old(clock)) == [] ==> table.w == old(table.w)
      ensures |others(old(clock))| == 1 ==> table.w == After(table.config, old(table.w), others(old(clock))[0])
    {
      var actions := others(clock);
      clock := clock + 1;
      for i := 0 to |actions|
        invariant Valid() && SameThread(old(table.w), table.w, e) && clock == old(clock) + 1
        invariant i == 0 ==> table.w == old(table.w)
        invariant i == 1 ==> table.w == After(table.config, old(table.w), actions[0])
      {
        ghost var before := table.w;
        assert Foreign(me, actions[i]);
        var ok := table.Attempt(actions[i]);
        if ok { ForeignKeepsThread(table.config, before, actions[i], table.w, e); }
      }
    }

    /** One of its own steps at edge e, after whatever the others do. */
    method Do(step: LaunchStep) returns (ok: bool, ghost mid: World)
      requires Valid() && step.e.parent == me
      modifies this`clock, table
      ensures Valid() && SameThread(old(table.w), mid, step.e) && clock == old(clock) + 1
      ensures others(old(clock)) == [] ==> mid == old(table.w)
      ensures |others(old(clock))| == 1 ==> mid == After(table.config, old(table.w), others(old(clock))[0])
      ensures ok <==> NextLaunch(table.config, mid, step).Some?
      ensures table.w == if ok then NextLaunch(table.config, mid, step).value else mid
      ensures LaunchAt(table.w, step.e).calls
              == LaunchAt(old(table.w), step.e).calls + if ok && step.CallEc2? then 1 else 0
      ensures OutcomesKept(LaunchAt(old(table.w), step.e), LaunchAt(table.w, step.e))
    {
      Interfere(step.e);
      mid := table.w;
      ok := table.Attempt(Launching(step));
      if ok {
        OwnCalls(table.config, mid, step, table.w);
        OwnOutcomes(table.config, mid, step, table.w);
      }
    }

    /** An exception unwinds the launch: its thread is gone. */
    method Fail(e: Edge, answer: Answer) returns (r: Answer)
      requires Valid() && e.parent == me
      modifies this`clock, table
      ensures Valid() && r == answer && LaunchAt(table.w, e).thread == Resting && clock == old(clock) + 1
      ensures LaunchAt(table.w, e).calls == LaunchAt(old(table.w), e).calls
      ensures OutcomesKept(LaunchAt(old(table.w), e), LaunchAt(table.w, e))
    {
      ghost var mid;
      var ok;
      ok, mid := Do(Lose(e));
      r := answer;
    }

    /** The resource record first, then the settled submission. */
    method RecordChild(e: Edge) returns (answer: Answer)
      requires Valid() && e.parent == me && LaunchAt(table.w, e).thread.Found?
      modifies this`clock, table
      ensures Valid() && LaunchAt(table.w, e).thread == Resting
      ensures LaunchAt(table.w, e).calls == LaunchAt(old(table.w), e).calls
      ensures answer.LaunchedAs? ==>
        answer.x == LaunchAt(old(table.w), e).thread.inst && SettledAs(table.w, e, answer.x)
      ensures answer != Violation
      ensures
        Alone(old(clock), 2) && WritesDue(table.config, old(table.w), e, LaunchAt(old(table.w), e).thread.inst) ==>
        answer == LaunchedAs(LaunchAt(old(table.w), e).thread.inst)
    {
      RecordsExactly(table.config, table.w, e);
      var x := LaunchAt(table.w, e).thread.inst;
      var ok;
      ghost var mid;
      ok, mid := Do(RecordResource(e));
      if !ok {
        answer := Fail(e, Transient);
        return;
      }
      RecordRecords(table.config, mid, e, table.w);
      SettlesExactly(table.config, table.w, e);
      ok, mid := Do(Settle(e));
      if !ok {
        answer := Fail(e, Transient);
        return;
      }
      SettleSettles(table.config, mid, e, table.w);
      answer := LaunchedAs(x);
    }

    /** The fenced rejection receipt, until a write is heard to have succeeded; one
        that took effect unheard is written again. Never another launch. */
    method RecordRejection(e: Edge) returns (answer: Answer, tries: nat)
      requires Valid() && e.parent == me
      modifies this`clock, table
      ensures Valid() && LaunchAt(table.w, e).thread == Resting
      ensures LaunchAt(table.w, e).calls == LaunchAt(old(table.w), e).calls
      ensures OutcomesKept(LaunchAt(old(table.w), e), LaunchAt(table.w, e))
      ensures (answer == Transient && 1 <= tries <= 8 && RejectedAs(table.w, e)) || (answer == Violation && tries == 8)
      ensures others(old(clock)) == [] && answered(old(clock)) && RejectionDue(table.config, old(table.w), e) ==>
        tries == 1 && answer == Transient
    {
      RejectsExactly(table.config, table.w, e, true);
      tries := 0;
      while tries < 8
        invariant Valid() && tries <= 8 && LaunchAt(table.w, e).calls == LaunchAt(old(table.w), e).calls
        invariant OutcomesKept(LaunchAt(old(table.w), e), LaunchAt(table.w, e))
        invariant tries == 0 ==> table.w == old(table.w) && clock == old(clock)
        invariant tries > 0 ==>
          !(others(old(clock)) == [] && answered(old(clock)) && RejectionDue(table.config, old(table.w), e))
      {
        var heard := answered(clock);
        tries := tries + 1;
        var ok;
        ghost var mid;
        ok, mid := Do(RecordThrottle(e, heard));
        if ok && heard {
          RejectionIsRecorded(table.config, mid, e, table.w);
          return Transient, tries;
        }
      }
      answer := Fail(e, Violation);
    }

    /** With call n open at w, EC2 makes the instance before its answer is heard, and
        nobody else steps in. */
    ghost predicate Makes(from: nat, w: World, e: Edge, n: nat) {
      && n !in LaunchAt(w, e).outcomes && MadeBy(e, n) !in w.ec2
      && others(from) == [Launching(Make(e, n))] && Alone(from + 1, 3)
    }

    /** EC2 refuses it by a throttle, and nobody else steps in. */
    ghost predicate Refuses(from: nat, w: World, e: Edge, n: nat) {
      && n !in LaunchAt(w, e).outcomes
      && others(from) == [Launching(Refuse(e, n, true))] && others(from + 1) == [] && answered(from + 1)
    }

    /** RunInstances, once, and what its answer leads to. If the answer was a throttle
        the rejection is on record before this returns, or the agent gives up. */
    method SubmitChild(e: Edge) returns (answer: Answer, throttled: bool)
      requires Valid() && e.parent == me
      modifies this`clock, table
      ensures Valid() && LaunchAt(table.w, e).thread == Resting
      ensures LaunchAt(table.w, e).calls <= LaunchAt(old(table.w), e).calls + 1
      ensures answer.LaunchedAs? ==> !throttled && SettledAs(table.w, e, answer.x)
      ensures throttled ==>
        && ThrottledAt(LaunchAt(table.w, e), LaunchAt(old(table.w), e).calls)
        && (answer == Violation || (answer == Transient && RejectedAs(table.w, e)))
      ensures !throttled ==> answer != Violation
      ensures Requests(old(clock), old(table.w), e, table.w, answer, throttled)
    {
      throttled := false;
      var ok;
      ghost var mid;
      ok, mid := Do(CallEc2(e));
      if !ok {
        answer := Fail(e, Transient);
        return;
      }
      CalledIsWaiting(mid, e, table.w);
      answer, throttled := HearAnswer(e, LaunchAt(mid, e).calls);
    }

    /** With a permit and nobody else stepping in, the request is issued, and what EC2
        answers is acted on. */
    ghost predicate Requests(from: nat, w: World, e: Edge, w1: World, answer: Answer, throttled: bool)
      reads table
    {
      var l := LaunchAt(w, e);
      others(from) == [] && l.thread == Permit ==>
        && LaunchAt(w1, e).calls == l.calls + 1
        && (Makes(from + 1, w, e, l.calls) && Unnamed(table.config, w, e) ==> answer == LaunchedAs(MadeBy(e, l.calls)))
        && (Refuses(from + 1, w, e, l.calls) && Unnamed(table.config, w, e) ==> throttled && answer == Transient)
    }

    lemma RequestsAfter(from: nat, w: World, mid: World, e: Edge, w1: World, answer: Answer, throttled: bool)
      requires Alone(from, 2) ==> Permitted(table.config, w, e, mid)
      requires Requests(from + 1, mid, e, w1, answer, throttled)
      requires throttled && answer == Transient ==> RejectedAs(w1, e)
      ensures Submits(from, w, e, true, w1, answer)
    {
      if Alone(from, 2) { assert others(from + 1) == []; }
    }

    /** The answer to call n: a throttle, an instance, or nothing that can be used. */
    method HearAnswer(e: Edge, ghost n: nat) returns (answer: Answer, throttled: bool)
      requires Valid() && e.parent == me
      requires LaunchAt(table.w, e).thread == Waiting(n) && LaunchAt(table.w, e).calls == n + 1
      modifies this`clock, table
      ensures Valid() && LaunchAt(table.w, e).thread == Resting && LaunchAt(table.w, e).calls == n + 1
      ensures answer.LaunchedAs? ==> !throttled && SettledAs(table.w, e, answer.x)
      ensures throttled ==>
        && ThrottledAt(LaunchAt(table.w, e), n)
        && (answer == Violation || (answer == Transient && RejectedAs(table.w, e)))
      ensures !throttled ==> answer != Violation
      ensures Makes(old(clock), old(table.w), e, n) && Unnamed(table.config, old(table.w), e) ==>
        answer == LaunchedAs(MadeBy(e, n))
      ensures Refuses(old(clock), old(table.w), e, n) && Unnamed(table.config, old(table.w), e) ==>
        throttled && answer == Transient
    {
      throttled := HearRefusal(e, n);
      if throttled {
        var tries;
        answer, tries := RecordRejection(e);
      } else {
        answer := HearMade(e, n);
      }
    }

    method HearRefusal(e: Edge, ghost n: nat) returns (throttled: bool)
      requires Valid() && e.parent == me
      requires LaunchAt(table.w, e).thread == Waiting(n) && LaunchAt(table.w, e).calls == n + 1
      modifies this`clock, table
      ensures Valid() && LaunchAt(table.w, e).calls == n + 1 && clock == old(clock) + 1
      ensures throttled ==> ThrottledAt(LaunchAt(table.w, e), n)
      ensures !throttled ==> LaunchAt(table.w, e).thread == Waiting(n)
      ensures Makes(old(clock), old(table.w), e, n) && Unnamed(table.config, old(table.w), e) ==>
        !throttled && Answerable(table.config, table.w, e, n)
      ensures Refuses(old(clock), old(table.w), e, n) && Unnamed(table.config, old(table.w), e) ==>
        throttled && RejectionDue(table.config, table.w, e)
    {
      MadeIsHeard(table.config, table.w, e, n);
      RefusedIsHeard(table.config, table.w, e, n);
      ghost var mid;
      throttled, mid := Do(HearThrottle(e));
      if throttled { HeardWasThrottled(mid, e, table.w); }
    }

    /** No throttle: an instance to record, or nothing that can be used. */
    method HearMade(e: Edge, ghost n: nat) returns (answer: Answer)
      requires Valid() && e.parent == me && LaunchAt(table.w, e).thread == Waiting(n)
      modifies this`clock, table
      ensures Valid() && LaunchAt(table.w, e).thread == Resting && answer != Violation
      ensures LaunchAt(table.w, e).calls == LaunchAt(old(table.w), e).calls
      ensures answer.LaunchedAs? ==> SettledAs(table.w, e, answer.x)
      ensures Alone(old(clock), 3) && Answerable(table.config, old(table.w), e, n) ==>
        answer == LaunchedAs(MadeBy(e, n))
    {
      AnswerIsHeard(table.config, table.w, e, n);
      var ok;
      ghost var mid;
      ok, mid := Do(HearInstance(e));
      if ok {
        HeardIsFound(mid, e, table.w);
        answer := RecordChild(e);
      } else {
        answer := Fail(e, Transient);
      }
    }

    /** The one instance found under the submission's token, or named by it. */
    method ReconcileChild(e: Edge, x: Inst) returns (answer: Answer)
      requires Valid() && e.parent == me
      modifies this`clock, table
      ensures Valid() && LaunchAt(table.w, e).thread == Resting
      ensures LaunchAt(table.w, e).calls == LaunchAt(old(table.w), e).calls
      ensures answer.LaunchedAs? ==> answer.x == x && SettledAs(table.w, e, x)
      ensures answer != Violation
      ensures Alone(old(clock), 3) && FindDue(old(table.w), e, x) && WritesDue(table.config, old(table.w), e, x) ==>
        answer == LaunchedAs(x)
    {
      FindsExactly(table.config, table.w, e, x);
      var ok;
      ghost var mid;
      ok, mid := Do(FindByToken(e, x));
      if !ok {
        answer := Fail(e, Transient);
        return;
      }
      FoundIsFound(mid, e, x, table.w);
      answer := RecordChild(e);
    }

    /** launch_child. An intent already there is reconciled; only a recorded throttle
        rejection lets it submit again; at most one request is ever issued. While nobody
        else steps in: another's intent is a violation; what is settled is returned; an
        instance named or found is settled and returned; and a request is issued exactly
        if there is no intent yet, or its rejection is on record and nothing was found,
        and the conditions of that write hold. */
    method LaunchChild(e: Edge) returns (answer: Answer)
      requires Valid() && e.parent == me && LaunchAt(table.w, e).thread == Resting
      modifies this`clock, table
      ensures Valid() && LaunchAt(table.w, e).thread == Resting
      ensures LaunchAt(table.w, e).calls <= LaunchAt(old(table.w), e).calls + 1
      ensures answer.LaunchedAs? ==> SettledAs(table.w, e, answer.x)
      ensures others(old(clock)) == [] && Another(old(table.w), e) ==> answer == Violation && table.w == old(table.w)
      ensures var s := RowsAt(old(table.w), EdgePath(e)).submission;
        others(old(clock)) == [] && s.Some? && s.value.token == e && s.value.settled && s.value.instance.Some? ==>
          answer == LaunchedAs(s.value.instance.value) && table.w == old(table.w)
      ensures var known := Known(old(clock) + 1, old(table.w), e);
        Alone(old(clock), 4) && known.Some? && Reconcilable(table.config, old(table.w), e, known.value) ==>
          answer == LaunchedAs(known.value) && LaunchAt(table.w, e).calls == LaunchAt(old(table.w), e).calls
      ensures var l, from := LaunchAt(old(table.w), e), old(clock);
        Alone(from, 3) && !Another(old(table.w), e) ==>
          && (LaunchAt(table.w, e).calls == l.calls + 1 <==> LaunchDue(from, old(table.w), e))
          && (LaunchDue(from, old(table.w), e) && Makes(from + 3, old(table.w), e, l.calls) ==>
                answer == LaunchedAs(MadeBy(e, l.calls)))
          && (LaunchDue(from, old(table.w), e) && Refuses(from + 3, old(table.w), e, l.calls) ==>
                answer == Transient && RejectedAs(table.w, e))
    {
      Interfere(e);
      var intent := RowsAt(table.w, EdgePath(e)).submission;
      if intent.None? {
        answer := Intending(e);
        return;
      }
      if intent.value.token != e { return Violation; }
      answer := Continue(e, intent.value);
    }

    /** With its own intent there. */
    method Continue(e: Edge, intent: Submission) returns (answer: Answer)
      requires Valid() && e.parent == me && LaunchAt(table.w, e).thread == Resting
      requires RowsAt(table.w, EdgePath(e)).submission == Some(intent) && intent.token == e
      modifies this`clock, table
      ensures Valid() && LaunchAt(table.w, e).thread == Resting
      ensures LaunchAt(table.w, e).calls <= LaunchAt(old(table.w), e).calls + 1
      ensures answer.LaunchedAs? ==> SettledAs(table.w, e, answer.x)
      ensures intent.settled && intent.instance.Some? ==>
        answer == LaunchedAs(intent.instance.value) && table.w == old(table.w)
      ensures var known := Known(old(clock), old(table.w), e);
        Alone(old(clock), 3) && known.Some? && Reconcilable(table.config, old(table.w), e, known.value) ==>
          answer == LaunchedAs(known.value) && LaunchAt(table.w, e).calls == LaunchAt(old(table.w), e).calls
      ensures Submits(old(clock), old(table.w), e,
                RetryDue(table.config, old(table.w), e) && visible(old(clock)).None?, table.w, answer)
    {
      if intent.instance.Some? && intent.settled { return LaunchedAs(intent.instance.value); }
      var found := if intent.instance.Some? then intent.instance else visible(clock);
      if found.Some? {
        answer := ReconcileChild(e, found.value);
      } else if intent.rejected {
        answer := Retrying(e);
      } else {
        answer := Fail(e, Transient);
      }
    }

    /** A step that permits the thread to submit. */
    method TakePermit(step: LaunchStep, ghost due: bool) returns (ok: bool)
      requires Valid() && step.e.parent == me && !step.CallEc2?
      requires NextLaunch(table.config, table.w, step).Some? <==> due
      requires due ==> Permitted(table.config, table.w, step.e, NextLaunch(table.config, table.w, step).value)
      modifies this`clock, table
      ensures Valid() && clock == old(clock) + 1
      ensures LaunchAt(table.w, step.e).calls == LaunchAt(old(table.w), step.e).calls
      ensures others(old(clock)) == [] ==>
        && (ok <==> due)
        && (ok ==> Permitted(table.config, old(table.w), step.e, table.w))
    {
      ghost var mid;
      ok, mid := Do(step);
    }

    /** The intent, and then the request. */
    method Intending(e: Edge) returns (answer: Answer)
      requires Valid() && e.parent == me
      modifies this`clock, table
      ensures Valid() && LaunchAt(table.w, e).thread == Resting
      ensures LaunchAt(table.w, e).calls <= LaunchAt(old(table.w), e).calls + 1
      ensures answer.LaunchedAs? ==> SettledAs(table.w, e, answer.x)
      ensures Submits(old(clock), old(table.w), e, IntentDue(table.config, old(table.w), e), table.w, answer)
    {
      IntendLeads(table.config, table.w, e);
      answer := PermitAndSubmit(Intend(e), e, IntentDue(table.config, table.w, e));
    }

    /** The rejection taken back, and then the request. */
    method Retrying(e: Edge) returns (answer: Answer)
      requires Valid() && e.parent == me
      modifies this`clock, table
      ensures Valid() && LaunchAt(table.w, e).thread == Resting
      ensures LaunchAt(table.w, e).calls <= LaunchAt(old(table.w), e).calls + 1
      ensures answer.LaunchedAs? ==> SettledAs(table.w, e, answer.x)
      ensures Submits(old(clock), old(table.w), e, RetryDue(table.config, old(table.w), e), table.w, answer)
    {
      RetryLeads(table.config, table.w, e);
      answer := PermitAndSubmit(Retry(e), e, RetryDue(table.config, table.w, e));
    }

    method PermitAndSubmit(step: LaunchStep, e: Edge, ghost due: bool) returns (answer: Answer)
      requires Valid() && e.parent == me && step.e == e && !step.CallEc2?
      requires NextLaunch(table.config, table.w, step).Some? <==> due
      requires due ==> Permitted(table.config, table.w, e, NextLaunch(table.config, table.w, step).value)
      modifies this`clock, table
      ensures Valid() && LaunchAt(table.w, e).thread == Resting
      ensures LaunchAt(table.w, e).calls <= LaunchAt(old(table.w), e).calls + 1
      ensures answer.LaunchedAs? ==> SettledAs(table.w, e, answer.x)
      ensures Submits(old(clock), old(table.w), e, due, table.w, answer)
    {
      var ok := TakePermit(step, due);
      if ok {
        ghost var permitted := table.w;
        var throttled;
        answer, throttled := SubmitChild(e);
        RequestsAfter(old(clock), old(table.w), permitted, e, table.w, answer, throttled);
      } else {
        answer := Fail(e, Transient);
      }
    }

    /** With nobody else stepping in, a request is issued exactly when due, and its
        answer is acted on. */
    ghost predicate Submits(from: nat, w: World, e: Edge, due: bool, w1: World, answer: Answer) {
      var l := LaunchAt(w, e);
      Alone(from, 2) ==>
        && (LaunchAt(w1, e).calls == l.calls + 1 <==> due)
        && (due && Makes(from + 2, w, e, l.calls) ==> answer == LaunchedAs(MadeBy(e, l.calls)))
        && (due && Refuses(from + 2, w, e, l.calls) ==> answer == Transient && RejectedAs(w1, e))
    }

    /** The instance that the submission names, or else the lookup by its token finds. */
    ghost function Known(from: nat, w: World, e: Edge): Option<Inst> {
      var s := RowsAt(w, EdgePath(e)).submission;
      if s.Some? && s.value.instance.Some? then s.value.instance else visible(from)
    }

    ghost predicate LaunchDue(from: nat, w: World, e: Edge)
      reads table
    {
      || IntentDue(table.config, w, e)
      || (RetryDue(table.config, w, e) && visible(from + 1).None?)
    }
  }

  predicate Reconcilable(c: Config, w: World, e: Edge, x: Inst) {
    FindDue(w, e, x) && WritesDue(c, w, e, x)
  }

  /** The path's submission is under another token. */
  predicate Another(w: World, e: Edge) {
    EdgePath(e) in w.rows && w.rows[EdgePath(e)].submission.Some? && w.rows[EdgePath(e)].submission.value.token != e
  }

  /** A write of the intent leaves its thread permitted, and a submission to settle. */
  lemma IntendLeads(c: Config, w: World, e: Edge)
    ensures NextLaunch(c, w, Intend(e)).Some? <==> IntentDue(c, w, e)
    ensures IntentDue(c, w, e) ==> Permitted(c, w, e, NextLaunch(c, w, Intend(e)).value)
  {
    IntendsExactly(c, w, e);
  }

  lemma RetryLeads(c: Config, w: World, e: Edge)
    ensures NextLaunch(c, w, Retry(e)).Some? <==> RetryDue(c, w, e)
    ensures RetryDue(c, w, e) ==> Permitted(c, w, e, NextLaunch(c, w, Retry(e)).value)
  {
    RetriesExactly(c, w, e);
  }

  predicate Permitted(c: Config, w: World, e: Edge, w1: World) {
    LaunchAt(w1, e) == LaunchAt(w, e).(thread := Permit) && w1.ec2 == w.ec2 && Unnamed(c, w1, e)
  }

  /** Call n was answered with its instance, and the instance can be recorded. */
  predicate Answerable(c: Config, w: World, e: Edge, n: nat) {
    n in LaunchAt(w, e).outcomes && LaunchAt(w, e).outcomes[n] == Made && WritesDue(c, w, e, MadeBy(e, n))
  }

  lemma MadeIsHeard(c: Config, w: World, e: Edge, n: nat)
    requires LaunchAt(w, e).thread == Waiting(n) && LaunchAt(w, e).calls == n + 1
    ensures var w1 := After(c, w, Launching(Make(e, n)));
      n !in LaunchAt(w, e).outcomes && MadeBy(e, n) !in w.ec2 && Unnamed(c, w, e) ==>
        && DoHear(w1, e, Throttled).None? && LaunchAt(w1, e).thread == Waiting(n) && Answerable(c, w1, e, n)
  {
  }

  lemma AnswerIsHeard(c: Config, w: World, e: Edge, n: nat)
    requires LaunchAt(w, e).thread == Waiting(n)
    ensures Answerable(c, w, e, n) ==>
      && DoHear(w, e, Made).Some? && LaunchAt(DoHear(w, e, Made).value, e).thread == Found(MadeBy(e, n))
      && WritesDue(c, DoHear(w, e, Made).value, e, MadeBy(e, n))
  {
  }

  /** e's own submission, naming no instance yet, can still be written. */
  predicate Unnamed(c: Config, w: World, e: Edge) {
    && BooksOpen(c, w) && EdgePath(e) in w.rows && w.rows[EdgePath(e)].submission.Some?
    && w.rows[EdgePath(e)].submission.value.token == e && w.rows[EdgePath(e)].submission.value.instance.None?
  }

  /** So is a throttle, and the rejection can be recorded. */
  lemma RefusedIsHeard(c: Config, w: World, e: Edge, n: nat)
    requires LaunchAt(w, e).thread == Waiting(n) && LaunchAt(w, e).calls == n + 1
    ensures var w1 := After(c, w, Launching(Refuse(e, n, true)));
      n !in LaunchAt(w, e).outcomes && Unnamed(c, w, e) ==>
        DoHear(w1, e, Throttled).Some? && RejectionDue(c, DoHear(w1, e, Throttled).value, e)
  {
  }

  lemma HeardIsFound(w: World, e: Edge, w1: World)
    requires DoHear(w, e, Made) == Some(w1)
    ensures LaunchAt(w1, e).thread.Found?
  {
  }

  lemma FoundIsFound(w: World, e: Edge, x: Inst, w1: World)
    requires DoFind(w, e, x) == Some(w1)
    ensures LaunchAt(w1, e).thread == Found(x)
  {
  }

  /** The agent's code is safe because its steps are the protocol's: whatever it and
      the others did, at most one request beyond the throttled ones was issued, and
      at most one instance exists per path. */
  lemma GatewayLaunchesOnce(g: FamilyGateway, e: Edge)
    requires g.Valid()
    ensures var l := LaunchAt(g.table.w, e); l.calls <= 1 + |ThrottledCalls(l)|
  {
    LaunchAtMostOnce(g.table.config, g.table.start, g.table.trace, e, e);
  }
}
