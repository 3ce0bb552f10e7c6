/** A cleanup can always be brought to its end: from any state in which it is under way
    with every submission settled, the controller's own deliveries and the terminations
    EC2 carries out lead to the next cycle, with every recorded instance gone. */
module FamilyReset {
  import opened Wrappers
  import opened Paths
  import opened Lineage
  import opened Records
  import opened Lifecycle
  import opened Family
  import opened FamilyDeliveries

  predicate InTable(w: World, x: Inst) {
    exists p :: p in w.rows && x in w.rows[p].resources
  }

  /** Every submission in the table is settled, everything inventoried is still on
      record, and what is on record exists. */
  ghost predicate Settling(w: World) {
    && (forall p | p in w.rows && w.rows[p].submission.Some? :: w.rows[p].submission.value.settled)
    && (w.request.inventory.Some? ==> forall x | x in w.request.inventory.value :: InTable(w, x))
    && (forall p, x | p in w.rows && x in w.rows[p].resources :: x in w.ec2)
  }

  /** The controller's own step, or EC2 carrying out a termination. */
  predicate ByCleanup(a: Action) {
    a.Cleaning? || (a.Outside? && a.outside.FinishTermination?)
  }

  ghost predicate Reached(c: Config, start: World, actions: seq<Action>, w: World) {
    Run(c, start, actions) == Some(w) && forall a | a in actions :: ByCleanup(a)
  }

  lemma OneMore(c: Config, start: World, actions: seq<Action>, w: World, a: Action, w1: World)
    requires Reached(c, start, actions, w) && Next(c, w, a) == Some(w1) && ByCleanup(a)
    ensures Reached(c, start, actions + [a], w1)
  {
    assert (actions + [a])[..|actions|] == actions;
  }

  // ----- Guard, scan and inventory -----

  lemma GuardAndScan(c: Config, start: World, actions: seq<Action>, w: World, n: nat)
    returns (actions1: seq<Action>, w1: World)
    requires Reached(c, start, actions, w) && UnderWay(c, w.request) && Settling(w)
    ensures Reached(c, start, actions1, w1) && w1 == w.(workers := w1.workers)
    ensures WorkerAt(w1, n) == Scanned(Recorded(w), Confirmed(w), w.request.cleanupStatus)
  {
    var ids := if w.request.inventory.Some? then w.request.inventory.value else {};
    var guarded := Noted(w, n, Guarded(ids, w.request.cleanupStatus));
    GuardsExactly(c, w, n);
    OneMore(c, start, actions, w, Cleaning(Guard(n)), guarded);
    w1 := Noted(guarded, n, Scanned(Recorded(w), Confirmed(w), w.request.cleanupStatus));
    ScanSucceeds(c, w, n, ids, guarded, w1);
    actions1 := actions + [Cleaning(Guard(n))] + [Cleaning(ScanTable(n))];
    OneMore(c, start, actions + [Cleaning(Guard(n))], guarded, Cleaning(ScanTable(n)), w1);
  }

  lemma ScanSucceeds(c: Config, w: World, n: nat, ids: set<Inst>, guarded: World, w1: World)
    requires Settling(w) && ids == if w.request.inventory.Some? then w.request.inventory.value else {}
    requires guarded == Noted(w, n, Guarded(ids, w.request.cleanupStatus))
    requires w1 == Noted(guarded, n, Scanned(Recorded(w), Confirmed(w), w.request.cleanupStatus))
    ensures Next(c, guarded, Cleaning(ScanTable(n))) == Some(w1)
  {
    forall x | x in ids ensures x in Recorded(w) {
      assert InTable(w, x);
      var p :| p in w.rows && x in w.rows[p].resources;
    }
    assert Recorded(guarded) == Recorded(w) && Confirmed(guarded) == Confirmed(w);
  }

  lemma TakeInventory(c: Config, start: World, actions: seq<Action>, w: World, n: nat)
    returns (actions1: seq<Action>, w1: World)
    requires Reached(c, start, actions, w) && UnderWay(c, w.request) && Settling(w)
    ensures Reached(c, start, actions1, w1) && w1 == w.(workers := w1.workers, request := w1.request)
    ensures WorkerAt(w1, n) == Marked(Recorded(w), Confirmed(w), {})
    ensures w1.request == w.request.(cleanupStatus := Verifying, inventory := Some(Recorded(w)))
  {
    var scanned, ws := GuardAndScan(c, start, actions, w, n);
    var marked := w.request.(cleanupStatus := Verifying, inventory := Some(Recorded(w)));
    w1 := SetWorker(ws.(request := marked), n, Marked(Recorded(w), Confirmed(w), {}));
    actions1 := scanned + [Cleaning(Mark(n, false))];
    OneMore(c, start, scanned, ws, Cleaning(Mark(n, false)), w1);
  }

  // ----- Terminations -----

  /** Between w and w1 only EC2's instances and this delivery's notes have changed, and
      what had terminated still has. */
  ghost predicate OnlyTerminations(w: World, w1: World) {
    && w1 == w.(ec2 := w1.ec2, workers := w1.workers, removed := w1.removed)
    && w1.ec2.Keys == w.ec2.Keys && forall x | x in w.ec2 && w.ec2[x] == Gone :: w1.ec2[x] == Gone
  }

  /** One instance is terminated and seen gone. */
  lemma TerminateOne(c: Config, start: World, actions: seq<Action>, w: World, n: nat, x: Inst)
    returns (actions1: seq<Action>, w1: World)
    requires Reached(c, start, actions, w) && WorkerAt(w, n).Marked? && x in WorkerAt(w, n).ids && x in w.ec2
    ensures Reached(c, start, actions1, w1) && OnlyTerminations(w, w1) && x in w1.ec2 && w1.ec2[x] == Gone
    ensures WorkerAt(w1, n) == WorkerAt(w, n).(gone := WorkerAt(w, n).gone + {x})
  {
    if w.ec2[x] == Gone {
      actions1, w1 := SeeInstance(c, start, actions, w, n, x);
    } else {
      var acts, ended := EndInstance(c, start, actions, w, n, x);
      actions1, w1 := SeeInstance(c, start, acts, ended, n, x);
      TerminationsCompose(w, ended, w1);
    }
  }

  lemma SeeInstance(c: Config, start: World, actions: seq<Action>, w: World, n: nat, x: Inst)
    returns (actions1: seq<Action>, w1: World)
    requires Reached(c, start, actions, w) && WorkerAt(w, n).Marked? && x in WorkerAt(w, n).ids
    requires x in w.ec2 && w.ec2[x] == Gone
    ensures Reached(c, start, actions1, w1) && OnlyTerminations(w, w1) && x in w1.ec2 && w1.ec2[x] == Gone
    ensures WorkerAt(w1, n) == WorkerAt(w, n).(gone := WorkerAt(w, n).gone + {x})
  {
    w1 := SetWorker(w, n, WorkerAt(w, n).(gone := WorkerAt(w, n).gone + {x}));
    OneMore(c, start, actions, w, Cleaning(SeeGone(n, x)), w1);
    actions1 := actions + [Cleaning(SeeGone(n, x))];
  }

  lemma EndInstance(c: Config, start: World, actions: seq<Action>, w: World, n: nat, x: Inst)
    returns (actions1: seq<Action>, w1: World)
    requires Reached(c, start, actions, w) && WorkerAt(w, n).Marked? && x in WorkerAt(w, n).ids
    requires x in w.ec2 && w.ec2[x] != Gone
    ensures Reached(c, start, actions1, w1) && OnlyTerminations(w, w1) && w1.workers == w.workers
    ensures x in w1.ec2 && w1.ec2[x] == Gone
  {
    var asked := w.(ec2 := w.ec2[x := ShuttingDown], removed := w.removed + {x});
    OneMore(c, start, actions, w, Cleaning(Remove(n, x)), asked);
    w1 := asked.(ec2 := asked.ec2[x := Gone]);
    OneMore(c, start, actions + [Cleaning(Remove(n, x))], asked, Outside(FinishTermination(x)), w1);
    actions1 := actions + [Cleaning(Remove(n, x))] + [Outside(FinishTermination(x))];
  }

  lemma TerminationsCompose(w: World, w1: World, w2: World)
    requires OnlyTerminations(w, w1) && OnlyTerminations(w1, w2)
    ensures OnlyTerminations(w, w2)
  {
  }

  lemma {:induction false} TerminateAll(c: Config, start: World, actions: seq<Action>, w: World, n: nat,
                                        todo: set<Inst>)
    returns (actions1: seq<Action>, w1: World)
    requires Reached(c, start, actions, w) && WorkerAt(w, n).Marked?
    requires todo <= WorkerAt(w, n).ids && forall x | x in todo :: x in w.ec2
    ensures Reached(c, start, actions1, w1) && OnlyTerminations(w, w1)
    ensures forall x | x in todo :: x in w1.ec2 && w1.ec2[x] == Gone
    ensures WorkerAt(w1, n) == WorkerAt(w, n).(gone := WorkerAt(w, n).gone + todo)
    decreases |todo|
  {
    if todo == {} {
      actions1, w1 := actions, w;
      assert WorkerAt(w, n).gone + todo == WorkerAt(w, n).gone;
    } else {
      var x :| x in todo;
      var acts, mid := TerminateOne(c, start, actions, w, n, x);
      actions1, w1 := TerminateAll(c, start, acts, mid, n, todo - {x});
      TerminationsCompose(w, mid, w1);
      assert WorkerAt(w, n).gone + {x} + (todo - {x}) == WorkerAt(w, n).gone + todo;
    }
  }

  // ----- The reset -----

  lemma VerifyAndReset(c: Config, start: World, actions: seq<Action>, w: World, n: nat, digest: Item)
    returns (actions1: seq<Action>, w1: World)
    requires Reached(c, start, actions, w) && w.request.id == c.cycle < MAX_CYCLE
    requires WorkerAt(w, n).Marked? && WorkerAt(w, n).ids <= WorkerAt(w, n).gone
    ensures Reached(c, start, actions1, w1) && w1.ec2 == w.ec2 && w1.rows == w.rows
    ensures w1.request.id == c.cycle + 1 && w1.request.status == Ready && w1.request.cleanupStatus == Done
    ensures !w1.request.bootstrap && !w1.request.propagation && !w1.request.cleanupRequested
    ensures w1.request.controlDigest == digest && w1.request.pin.None?
  {
    var verified := SetWorker(w, n, Verified);
    OneMore(c, start, actions, w, Cleaning(Verify(n)), verified);
    var acts := actions + [Cleaning(Verify(n))];
    var taken := SetWorker(verified, n, Completing(w.request));
    OneMore(c, start, acts, verified, Cleaning(TakeSnapshot(n)), taken);
    acts := acts + [Cleaning(TakeSnapshot(n))];
    ResetApplies(w.request, digest);
    w1 := SetWorker(taken.(request := Apply(w.request, Reset(w.request, digest)).value), n, Off);
    OneMore(c, start, acts, taken, Cleaning(Commit(n, digest)), w1);
    actions1 := acts + [Cleaning(Commit(n, digest))];
  }

  lemma ResetApplies(r: Request, digest: Item)
    requires r.id < MAX_CYCLE
    ensures Apply(r, Reset(r, digest)) == Some(Request(
              r.id + 1, Ready, false, false, false, Done, digest, None, None, r.inventory, r.target, None))
  {
  }

  /** From any state in which the cleanup is under way and its launches are settled there
      is a way on, by one delivery and the terminations it asks for, to the next cycle:
      READY, both gates closed, and every instance that was on record terminated. */
  lemma CleanupCanFinish(c: Config, w: World, n: nat, digest: Item) returns (actions: seq<Action>)
    requires UnderWay(c, w.request) && Settling(w) && c.cycle < MAX_CYCLE
    ensures Run(c, w, actions).Some?
    ensures var w1 := Run(c, w, actions).value;
      && w1.request.id == c.cycle + 1 && w1.request.status == Ready && w1.request.cleanupStatus == Done
      && !w1.request.bootstrap && !w1.request.propagation && !w1.request.cleanupRequested
      && w1.request.controlDigest == digest
      && forall p, x | p in w.rows && x in w.rows[p].resources :: x in w1.ec2 && w1.ec2[x] == Gone
    ensures forall a | a in actions :: ByCleanup(a)
  {
    assert Reached(c, w, [], w);
    var acts, marked := TakeInventory(c, w, [], w, n);
    var acts2, gone := TerminateAll(c, w, acts, marked, n, Recorded(w));
    RecordedIsInTable(w);
    var w1;
    actions, w1 := VerifyAndReset(c, w, acts2, gone, n, digest);
  }

  lemma RecordedIsInTable(w: World)
    ensures forall p, x | p in w.rows && x in w.rows[p].resources :: x in Recorded(w)
  {
  }
}
