/** When exactly each step of a cleanup delivery happens, written out on the lifecycle
    record, the rows and what the delivery has noted. */
module FamilyDeliveries {
  import opened Wrappers
  import opened Paths
  import opened Lineage
  import opened Records
  import opened Lifecycle
  import opened Family

  /** Requested, active, of this cycle, both gates closed. */
  predicate UnderWay(c: Config, r: Request) {
    && r.id == c.cycle && r.cleanupRequested && r.cleanupStatus in {Quiescing, Deleting, Verifying}
    && !r.bootstrap && !r.propagation
  }

  predicate OnRecord(w: World, p: Path, x: Inst) {
    p in w.rows && x in w.rows[p].resources
  }

  /** Every submission in the table is settled, and every instance noted before is still
      on record. */
  ghost predicate InventoryComplete(w: World, ids: set<Inst>) {
    && (forall p | p in w.rows && w.rows[p].submission.Some? :: w.rows[p].submission.value.settled)
    && (forall x | x in ids :: exists p :: OnRecord(w, p, x))
  }

  function Noted(w: World, n: nat, k: Worker): World {
    w.(workers := w.workers[n := k])
  }

  lemma GuardsExactly(c: Config, w: World, n: nat)
    ensures Next(c, w, Cleaning(Guard(n))) ==
      if UnderWay(c, w.request)
      then Some(Noted(w, n, Guarded(if w.request.inventory.Some? then w.request.inventory.value else {},
                                    w.request.cleanupStatus)))
      else None
  {
  }

  /** The inventory is the whole table's, taken only when no launch is undecided. */
  lemma ScansExactly(c: Config, w: World, n: nat)
    ensures Next(c, w, Cleaning(ScanTable(n))).Some? <==>
      WorkerAt(w, n).Guarded? && InventoryComplete(w, WorkerAt(w, n).ids)
    ensures Next(c, w, Cleaning(ScanTable(n))).Some? ==>
      var w1 := Next(c, w, Cleaning(ScanTable(n))).value; var k := WorkerAt(w1, n);
      && w1 == Noted(w, n, k) && k.Scanned? && k.expected == WorkerAt(w, n).expected
      && (forall x :: x in k.ids <==> exists p :: OnRecord(w, p, x))
      && (forall x :: x in k.confirmed <==> exists p :: OnRecord(w, p, x) && w.rows[p].resources[x])
  {
    forall x ensures x in Recorded(w) <==> exists p :: OnRecord(w, p, x) { RecordedIsOnRecord(w, x); }
    forall x ensures x in Confirmed(w) <==> exists p :: OnRecord(w, p, x) && w.rows[p].resources[x] {
      RecordedIsOnRecord(w, x);
    }
  }

  lemma RecordedIsOnRecord(w: World, x: Inst)
    ensures x in Recorded(w) <==> exists p :: OnRecord(w, p, x)
    ensures x in Confirmed(w) <==> exists p :: OnRecord(w, p, x) && w.rows[p].resources[x]
  {
    if x in Recorded(w) {
      var p :| p in w.rows && x in w.rows[p].resources;
      assert OnRecord(w, p, x);
    }
    if x in Confirmed(w) {
      var p :| p in w.rows && x in w.rows[p].resources && w.rows[p].resources[x];
      assert OnRecord(w, p, x);
    }
  }

  /** The inventory is made durable while the status is the one the delivery began with. */
  lemma MarksExactly(c: Config, w: World, n: nat, deleting: bool)
    ensures var k := WorkerAt(w, n);
      Next(c, w, Cleaning(Mark(n, deleting))) ==
        if k.Scanned? && k.expected in {Quiescing, Deleting, Verifying}
           && w.request.id == c.cycle && w.request.cleanupStatus == k.expected
        then Some(Noted(w.(request := w.request.(cleanupStatus := if deleting then Deleting else Verifying,
                                                 inventory := Some(k.ids))), n, Marked(k.ids, k.confirmed, {})))
        else None
  {
  }

  /** Only inventoried instances are terminated, and an instance counts as gone only
      when EC2 shows it terminated, or shows nothing and its receipt is on record. */
  lemma EndsExactly(c: Config, w: World, n: nat, x: Inst)
    ensures var k := WorkerAt(w, n);
      && (Next(c, w, Cleaning(Remove(n, x))) ==
            if k.Marked? && x in k.ids && x in w.ec2 && w.ec2[x] != Gone
            then Some(w.(ec2 := w.ec2[x := ShuttingDown], removed := w.removed + {x})) else None)
      && (Next(c, w, Cleaning(SeeGone(n, x))) ==
            if k.Marked? && x in k.ids && x in w.ec2 && w.ec2[x] == Gone
            then Some(Noted(w, n, k.(gone := k.gone + {x}))) else None)
      && (Next(c, w, Cleaning(SeeMissing(n, x))) ==
            if k.Marked? && x in k.ids && x in k.confirmed
            then Some(Noted(w, n, k.(gone := k.gone + {x}))) else None)
  {
  }

  /** The delivery goes on to the reset only with its whole inventory gone, and notes the
      record as it then is. */
  lemma VerifiesExactly(c: Config, w: World, n: nat)
    ensures var k := WorkerAt(w, n);
      && (Next(c, w, Cleaning(Verify(n))) ==
            if k.Marked? && k.ids <= k.gone then Some(Noted(w, n, Verified)) else None)
      && (Next(c, w, Cleaning(TakeSnapshot(n))) ==
            if k == Verified then Some(Noted(w, n, Completing(w.request))) else None)
  {
  }

  /** Of a path's rows only some are left, none is altered. */
  predicate SomeLeft(keep: Rows, all: Rows) {
    && (keep.node == None || keep.node == all.node) && (keep.state == None || keep.state == all.state)
    && (keep.submission == None || keep.submission == all.submission)
    && (keep.propagation == None || keep.propagation == all.propagation)
    && (keep.stop ==> all.stop)
    && (forall x | x in keep.resources :: x in all.resources && all.resources[x] == keep.resources[x])
  }

  /** Rows are deleted only under the very record the delivery verified, in its cycle. */
  lemma DeletesExactly(c: Config, w: World, n: nat, p: Path, keep: Rows)
    ensures var k := WorkerAt(w, n);
      Next(c, w, Cleaning(DeleteRows(n, p, keep))) ==
        if k.Completing? && k.read.id == c.cycle && AsRead(w.request, k.read) && SomeLeft(keep, RowsAt(w, p))
        then Some(w.(rows := w.rows[p := keep], deleting := true)) else None
  {
  }

  /** And so is the reset, to the next cycle, READY with its gates closed. */
  lemma ResetsExactly(c: Config, w: World, n: nat, digest: Item)
    ensures var k := WorkerAt(w, n);
      Next(c, w, Cleaning(Commit(n, digest))) ==
        if k.Completing? && k.read.id == c.cycle && AsRead(w.request, k.read) && k.read.id < MAX_CYCLE
        then Some(Noted(w.(request := Request(
               k.read.id + 1, Ready, false, false, false, Done, digest, None, None,
               k.read.inventory, k.read.target, None)), n, Off))
        else None
  {
  }
}
