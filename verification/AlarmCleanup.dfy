/** Deleting the status alarms of a cleaned-up cycle: every page for every recorded
    name is validated before anything is deleted. */
module AlarmCleanup {
  import opened Wrappers

  datatype Metric = Metric(name: string, namespace: string, metric: string, dimensions: seq<(string, string)>)

  datatype Page = Page(composites: bool, metrics: seq<Metric>, token: Option<nat>)

  datatype Call = Call(batch: seq<string>, token: Option<nat>, page: Page)

  /** The alarm service: the n-th describe call gets the n-th answer, whatever it is. */
  class CloudWatch {
    const answers: nat -> Page
    var log: seq<Call>
    var deletes: seq<seq<string>>

    constructor (answers: nat -> Page)
      ensures log == [] && deletes == [] && this.answers == answers
    {
      this.answers, log, deletes := answers, [], [];
    }

    method Describe(batch: seq<string>, token: Option<nat>) returns (page: Page)
      modifies this`log
      ensures page == answers(|old(log)|) && log == old(log) + [Call(batch, token, page)]
    {
      page := answers(|log|);
      log := log + [Call(batch, token, page)];
    }

    method Delete(batch: seq<string>)
      modifies this`deletes
      ensures deletes == old(deletes) + [batch]
    {
      deletes := deletes + [batch];
    }
  }

  datatype Failure = MissingInventory | AmbiguousIdentity | OwnershipMismatch | AmbiguousPagination | GuardFailed

  // ----- What the calls must have shown -----

  predicate Owned(m: Metric, batch: seq<string>, expected: map<string, string>) {
    && m.name in batch && m.name in expected
    && m.namespace == "AWS/EC2" && m.metric == "StatusCheckFailed"
    && m.dimensions == [("InstanceId", expected[m.name])]
  }

  predicate PageValidated(page: Page, batch: seq<string>, expected: map<string, string>) {
    !page.composites && forall i | 0 <= i < |page.metrics| :: Owned(page.metrics[i], batch, expected)
  }

  predicate CallValidated(c: Call, expected: map<string, string>) {
    PageValidated(c.page, c.batch, expected)
  }

  /** Every continuation is asked for, with its token and for the same batch, and every
      batch begins without one. */
  predicate Follows(calls: seq<Call>) {
    && (calls != [] ==> calls[0].token.None?)
    && forall k | 0 < k < |calls| :: Continues(calls[k - 1], calls[k])
  }

  predicate Continues(before: Call, c: Call) {
    c.token == before.page.token && (c.token.Some? ==> c.batch == before.batch)
  }

  /** No continuation is left open. */
  predicate Ended(calls: seq<Call>) {
    LastToken(calls).None?
  }

  predicate AllValidated(calls: seq<Call>, expected: map<string, string>) {
    forall k | 0 <= k < |calls| :: CallValidated(calls[k], expected)
  }

  function PageNames(metrics: seq<Metric>): seq<string> {
    seq(|metrics|, i requires 0 <= i < |metrics| => metrics[i].name)
  }

  /** The names of all alarms that were described, in order. */
  function Named(calls: seq<Call>): seq<string> {
    if calls == [] then [] else Named(calls[..|calls| - 1]) + PageNames(calls[|calls| - 1].page.metrics)
  }

  predicate NoneTwice(names: seq<string>) {
    forall i, j | 0 <= i < j < |names| :: names[i] != names[j]
  }

  /** Some call for a batch with this name was answered with a last page. */
  predicate Listed(calls: seq<Call>, name: string) {
    exists k :: 0 <= k < |calls| && name in calls[k].batch && calls[k].page.token.None?
  }

  predicate Complete(calls: seq<Call>, expected: map<string, string>) {
    && AllValidated(calls, expected) && NoneTwice(Named(calls)) && Follows(calls) && Ended(calls)
    && forall name | name in expected :: Listed(calls, name)
  }

  /** The alarm watches the status check of the instance recorded for its name. */
  predicate Watches(m: Metric, name: string, instance: string) {
    && m.name == name && m.namespace == "AWS/EC2" && m.metric == "StatusCheckFailed"
    && m.dimensions == [("InstanceId", instance)]
  }

  /** A call for the name was answered with such an alarm. */
  predicate SeenWatching(calls: seq<Call>, name: string, expected: map<string, string>) {
    name in expected && exists k :: 0 <= k < |calls| && ShowsAlarm(calls[k], name, expected[name])
  }

  predicate ShowsAlarm(c: Call, name: string, instance: string) {
    name in c.batch && exists i :: 0 <= i < |c.page.metrics| && Watches(c.page.metrics[i], name, instance)
  }

  /** A composite alarm, or one that does not watch an instance of the batch. */
  predicate Foreign(c: Call, expected: map<string, string>) {
    || c.page.composites
    || exists i :: 0 <= i < |c.page.metrics| && var m := c.page.metrics[i];
         m.name !in c.batch || m.name !in expected || !Watches(m, m.name, expected[m.name])
  }

  /** Why the describing stopped before its end. */
  ghost predicate Explains(failure: Failure, calls: seq<Call>, expected: map<string, string>, guards: nat -> bool) {
    match failure
    case GuardFailed => exists k :: !guards(k)
    case OwnershipMismatch =>
      calls != [] && (Foreign(calls[|calls| - 1], expected) || !NoneTwice(Named(calls)))
    case AmbiguousPagination =>
      && calls != [] && calls[|calls| - 1].page.token.Some?
      && (calls[|calls| - 1].page.metrics == []
          || exists j :: 0 <= j < |calls| - 1 && calls[j].page.token == calls[|calls| - 1].page.token)
    case _ => false
  }

  lemma ForeignIsInvalid(c: Call, expected: map<string, string>)
    ensures CallValidated(c, expected) <==> !Foreign(c, expected)
  {
    if CallValidated(c, expected) {
      forall i | 0 <= i < |c.page.metrics|
        ensures var m := c.page.metrics[i];
          m.name in c.batch && m.name in expected && Watches(m, m.name, expected[m.name])
      {
        assert Owned(c.page.metrics[i], c.batch, expected);
      }
    }
  }

  /** What validated pages name, they showed watching its instance. */
  lemma {:induction false} NamedWasSeen(calls: seq<Call>, expected: map<string, string>, name: string)
    requires AllValidated(calls, expected) && name in Named(calls)
    ensures SeenWatching(calls, name, expected)
  {
    var before, c := calls[..|calls| - 1], calls[|calls| - 1];
    if name in Named(before) {
      NamedWasSeen(before, expected, name);
      var k :| 0 <= k < |before| && ShowsAlarm(before[k], name, expected[name]);
      assert ShowsAlarm(calls[k], name, expected[name]);
    } else {
      var i :| 0 <= i < |PageNames(c.page.metrics)| && PageNames(c.page.metrics)[i] == name;
      assert CallValidated(c, expected) && Owned(c.page.metrics[i], c.batch, expected);
      assert Watches(c.page.metrics[i], name, expected[name]);
      assert ShowsAlarm(calls[|calls| - 1], name, expected[name]);
    }
  }

  function Flatten(batches: seq<seq<string>>): seq<string> {
    if batches == [] then [] else Flatten(batches[..|batches| - 1]) + batches[|batches| - 1]
  }

  predicate SmallBatches(batches: seq<seq<string>>) {
    forall k | 0 <= k < |batches| :: 1 <= |batches[k]| <= 100
  }

  // ----- The names expected, one per recorded instance -----

  /** records gives each recorded instance's generation or path; the alarm's name is
      an injective function of it, so the path stands for the name. */
  predicate NamesFor(ids: seq<string>, records: map<string, string>, expected: map<string, string>,
                     names: seq<string>)
  {
    && (forall i | 0 <= i < |ids| :: ids[i] in records && records[ids[i]] in expected
          && expected[records[ids[i]]] == ids[i])
    && (forall name | name in expected ::
          name in names && expected[name] in ids && expected[name] in records && records[expected[name]] == name)
    && (forall name | name in names :: name in expected)
    && NoneTwice(names) && |names| == |ids|
  }

  lemma OneMoreName(ids: seq<string>, records: map<string, string>, expected: map<string, string>, names: seq<string>,
                    id: string)
    requires NamesFor(ids, records, expected, names) && id in records && records[id] !in expected
    ensures NamesFor(ids + [id], records, expected[records[id] := id], names + [records[id]])
  {
    assert records[id] !in names;
  }

  predicate Unrecorded(ids: seq<string>, records: map<string, string>) {
    exists i :: 0 <= i < |ids| && ids[i] !in records
  }

  predicate Ambiguous(ids: seq<string>, records: map<string, string>) {
    exists i, j :: 0 <= i < j < |ids| && ids[i] in records && ids[j] in records && records[ids[i]] == records[ids[j]]
  }

  method ExpectedNames(ids: seq<string>, records: map<string, string>)
    returns (failure: Option<Failure>, expected: map<string, string>, names: seq<string>)
    ensures failure.None? ==> NamesFor(ids, records, expected, names)
    ensures failure.Some? <==> Unrecorded(ids, records) || Ambiguous(ids, records)
  {
    expected, names := map[], [];
    for i := 0 to |ids|
      invariant NamesFor(ids[..i], records, expected, names)
      invariant forall j | 0 <= j < i :: ids[j] in records && names[j] == records[ids[j]]
    {
      if ids[i] !in records { return Some(MissingInventory), expected, names; }
      var name := records[ids[i]];
      if name in expected {
        ghost var j :| 0 <= j < i && names[j] == name;
        assert records[ids[j]] == records[ids[i]];
        return Some(AmbiguousIdentity), expected, names;
      }
      OneMoreName(ids[..i], records, expected, names, ids[i]);
      assert ids[..i + 1] == ids[..i] + [ids[i]];
      expected := expected[name := ids[i]];
      names := names + [name];
    }
    assert ids[..|ids|] == ids;
    failure := None;
    assert forall i, j | 0 <= i < j < |ids| :: names[i] != names[j];
  }

  // ----- Describing -----

  lemma {:induction false} NamedAppend(calls: seq<Call>, c: Call)
    ensures Named(calls + [c]) == Named(calls) + PageNames(c.page.metrics)
  {
    assert (calls + [c])[..|calls|] == calls;
  }

  /** Check one page against its batch; what it names is new and owned. */
  method CheckPage(page: Page, batch: seq<string>, expected: map<string, string>, verified: seq<string>)
    returns (ok: bool, verified1: seq<string>)
    requires NoneTwice(verified)
    ensures ok ==> PageValidated(page, batch, expected) && verified1 == verified + PageNames(page.metrics)
                   && NoneTwice(verified1)
    ensures !ok ==> !PageValidated(page, batch, expected) || !NoneTwice(verified + PageNames(page.metrics))
  {
    verified1 := verified;
    if page.composites { return false, verified1; }
    ghost var all := verified + PageNames(page.metrics);
    for i := 0 to |page.metrics|
      invariant verified1 == verified + PageNames(page.metrics)[..i] && NoneTwice(verified1)
      invariant forall k | 0 <= k < i :: Owned(page.metrics[k], batch, expected)
    {
      var m := page.metrics[i];
      if !Owned(m, batch, expected) { return false, verified1; }
      if m.name in verified1 {
        ghost var j :| 0 <= j < |verified1| && verified1[j] == m.name;
        assert all[j] == m.name && all[|verified| + i] == m.name;
        return false, verified1;
      }
      verified1 := verified1 + [m.name];
    }
    ok := true;
  }

  function LastToken(calls: seq<Call>): Option<nat> {
    if calls == [] then None else calls[|calls| - 1].page.token
  }

  lemma OneMoreFollows(calls: seq<Call>, c: Call)
    requires Follows(calls) && c.token == LastToken(calls)
    requires c.token.Some? ==> c.batch == calls[|calls| - 1].batch
    ensures Follows(calls + [c]) && LastToken(calls + [c]) == c.page.token
  {
    var calls1 := calls + [c];
    forall k | 0 < k < |calls1| ensures Continues(calls1[k - 1], calls1[k]) {
      if k < |calls| { assert Continues(calls[k - 1], calls[k]); }
    }
  }

  function Members(batch: seq<string>): set<string> {
    set name | name in batch
  }

  lemma {:induction false} MembersBound(batch: seq<string>)
    ensures |Members(batch)| <= |batch|
  {
    if batch != [] {
      MembersBound(batch[1..]);
      assert Members(batch) == {batch[0]} + Members(batch[1..]);
    }
  }

  /** What the calls so far have validated. */
  predicate Progress(calls: seq<Call>, expected: map<string, string>, verified: seq<string>) {
    AllValidated(calls, expected) && verified == Named(calls) && NoneTwice(verified)
  }

  lemma OneMoreCall(calls: seq<Call>, expected: map<string, string>, verified: seq<string>, c: Call)
    requires Progress(calls, expected, verified) && CallValidated(c, expected)
    requires NoneTwice(verified + PageNames(c.page.metrics))
    ensures Progress(calls + [c], expected, verified + PageNames(c.page.metrics))
    ensures c.page.metrics != [] ==> c.page.metrics[0].name in c.batch && c.page.metrics[0].name !in verified
  {
    NamedAppend(calls, c);
    if c.page.metrics != [] {
      var all := verified + PageNames(c.page.metrics);
      assert all[|verified|] == c.page.metrics[0].name;
      assert forall j | 0 <= j < |verified| :: all[j] == verified[j];
      assert Owned(c.page.metrics[0], c.batch, expected);
    }
  }

  /** The calls for one batch so far: validated, following each other, naming every
      alarm of the batch that is no longer open, and at most one for each that is not. */
  ghost predicate Paged(calls: seq<Call>, calls1: seq<Call>, batch: seq<string>, expected: map<string, string>,
                        verified: seq<string>, open: set<string>)
  {
    && calls <= calls1 && Progress(calls1, expected, verified) && Follows(calls1)
    && (LastToken(calls1).Some? ==> calls1[|calls1| - 1].batch == batch)
    && (forall name | name in batch && name !in open :: name in verified)
    && |calls1| + |open| <= |calls| + |batch|
  }

  lemma FirstPage(calls: seq<Call>, batch: seq<string>, expected: map<string, string>, verified: seq<string>)
    requires Progress(calls, expected, verified) && Follows(calls) && Ended(calls)
    ensures Paged(calls, calls, batch, expected, verified, Members(batch))
  {
    MembersBound(batch);
  }

  lemma NextPage(calls: seq<Call>, calls1: seq<Call>, batch: seq<string>, expected: map<string, string>,
                 verified: seq<string>, open: set<string>, c: Call)
    requires Paged(calls, calls1, batch, expected, verified, open)
    requires c.batch == batch && c.token == LastToken(calls1) && CallValidated(c, expected)
    requires NoneTwice(verified + PageNames(c.page.metrics)) && c.page.metrics != []
    ensures c.page.metrics[0].name in open
    ensures Paged(calls, calls1 + [c], batch, expected, verified + PageNames(c.page.metrics),
                  open - {c.page.metrics[0].name})
  {
    OneMoreCall(calls1, expected, verified, c);
    OneMoreFollows(calls1, c);
    assert (verified + PageNames(c.page.metrics))[|verified|] == c.page.metrics[0].name;
  }

  lemma MismatchExplained(calls: seq<Call>, expected: map<string, string>, verified: seq<string>, c: Call)
    requires verified == Named(calls)
    requires !CallValidated(c, expected) || !NoneTwice(verified + PageNames(c.page.metrics))
    ensures Foreign((calls + [c])[|calls + [c]| - 1], expected) || !NoneTwice(Named(calls + [c]))
  {
    ForeignIsInvalid(c, expected);
    NamedAppend(calls, c);
  }

  ghost predicate SeenIn(calls: seq<Call>, s: nat) {
    exists j :: 0 <= j < |calls| && calls[j].page.token == Some(s)
  }

  lemma RepeatExplained(calls: seq<Call>, c: Call, seen: set<nat>)
    requires forall s | s in seen :: SeenIn(calls, s)
    ensures c.page.token.Some? && c.page.token.value in seen ==>
      exists j :: 0 <= j < |calls + [c]| - 1 && (calls + [c])[j].page.token == c.page.token
  {
    if c.page.token.Some? && c.page.token.value in seen {
      var j :| 0 <= j < |calls| && calls[j].page.token == Some(c.page.token.value);
      assert (calls + [c])[j] == calls[j];
    }
  }

  lemma SeenGrows(calls: seq<Call>, c: Call, seen: set<nat>)
    requires c.page.token.Some? && forall s | s in seen :: SeenIn(calls, s)
    ensures forall s | s in seen + {c.page.token.value} :: SeenIn(calls + [c], s)
  {
    var calls1 := calls + [c];
    forall s | s in seen + {c.page.token.value} ensures SeenIn(calls1, s) {
      if s in seen {
        var j :| 0 <= j < |calls| && calls[j].page.token == Some(s);
        assert calls1[j].page.token == Some(s);
      } else {
        assert calls1[|calls|].page.token == Some(s);
      }
    }
  }

  /** Follow one batch's pages to the last. Every page that continues names a new
      alarm of the batch, so the pages run out. */
  method DescribeBatch(alarms: CloudWatch, batch: seq<string>, expected: map<string, string>, verified: seq<string>,
                       guards: nat -> bool, guard: nat, ghost calls: seq<Call>)
    returns (failure: Option<Failure>, verified1: seq<string>, guard1: nat, ghost calls1: seq<Call>)
    requires Progress(calls, expected, verified) && Follows(calls) && Ended(calls)
    modifies alarms`log
    ensures Follows(calls1) && (failure.None? ==> Ended(calls1))
    ensures calls <= calls1 && alarms.log == old(alarms.log) + calls1[|calls|..]
    ensures |calls1| <= |calls| + |batch| + 1
    ensures failure.None? ==> Progress(calls1, expected, verified1)
    ensures failure.None? ==> forall name | name in batch :: Listed(calls1, name)
    ensures failure.Some? ==> Explains(failure.value, calls1, expected, guards)
  {
    verified1, guard1, calls1 := verified, guard, calls;
    var token: Option<nat> := None;
    var seen: set<nat> := {};
    ghost var open := Members(batch);
    FirstPage(calls, batch, expected, verified);
    while true
      invariant Paged(calls, calls1, batch, expected, verified1, open) && token == LastToken(calls1)
      invariant alarms.log == old(alarms.log) + calls1[|calls|..]
      invariant forall s | s in seen :: SeenIn(calls1, s)
      decreases |open|
    {
      if !guards(guard1) { return Some(GuardFailed), verified1, guard1, calls1; }
      guard1 := guard1 + 1;
      var page := alarms.Describe(batch, token);
      ghost var c := Call(batch, token, page);
      var ok;
      var checked;
      ok, checked := CheckPage(page, batch, expected, verified1);
      ghost var before := calls1;
      OneMoreFollows(before, c);
      calls1 := before + [c];
      if !ok {
        MismatchExplained(before, expected, verified1, c);
        return Some(OwnershipMismatch), verified1, guard1, calls1;
      }
      if page.token.None? {
        OneMoreCall(before, expected, verified1, c);
        assert calls1[|calls1| - 1] == c;
        return None, checked, guard1, calls1;
      }
      if page.metrics == [] || page.token.value in seen {
        RepeatExplained(before, c, seen);
        return Some(AmbiguousPagination), checked, guard1, calls1;
      }
      NextPage(calls, before, batch, expected, verified1, open, c);
      verified1 := checked;
      SeenGrows(before, c, seen);
      seen := seen + {page.token.value};
      token := page.token;
      open := open - {page.metrics[0].name};
    }
  }

  method DescribeAll(alarms: CloudWatch, names: seq<string>, expected: map<string, string>, guards: nat -> bool)
    returns (failure: Option<Failure>, verified: seq<string>, guard: nat, ghost calls: seq<Call>)
    requires forall name | name in expected :: name in names
    modifies alarms`log
    ensures alarms.log == old(alarms.log) + calls
    ensures |calls| <= |names| + (|names| + 99) / 100 && Follows(calls)
    ensures failure.None? ==> Progress(calls, expected, verified) && Complete(calls, expected)
    ensures failure.Some? ==> Explains(failure.value, calls, expected, guards)
  {
    failure, verified, guard, calls := None, [], 0, [];
    var offset := 0;
    ghost var rounds: nat := 0;
    while offset < |names|
      invariant 0 <= offset <= |names|
      invariant failure.None? && alarms.log == old(alarms.log) + calls
      invariant Progress(calls, expected, verified) && Follows(calls) && Ended(calls)
      invariant forall i | 0 <= i < offset :: Listed(calls, names[i])
      invariant |calls| <= offset + rounds && 100 * rounds <= offset + 99
      invariant offset < |names| ==> offset == 100 * rounds
    {
      var stop := if offset + 100 <= |names| then offset + 100 else |names|;
      var batch := names[offset..stop];
      ghost var calls0 := calls;
      failure, verified, guard, calls := DescribeBatch(alarms, batch, expected, verified, guards, guard, calls);
      rounds := rounds + 1;
      if failure.Some? { return; }
      BatchListed(calls0, calls, names, offset, stop);
      offset := stop;
    }
  }

  lemma BatchListed(calls: seq<Call>, calls1: seq<Call>, names: seq<string>, offset: nat, stop: nat)
    requires offset <= stop <= |names| && calls <= calls1
    requires forall i | 0 <= i < offset :: Listed(calls, names[i])
    requires forall name | name in names[offset..stop] :: Listed(calls1, name)
    ensures forall i | 0 <= i < stop :: Listed(calls1, names[i])
  {
    forall i | 0 <= i < stop ensures Listed(calls1, names[i]) {
      if i < offset {
        ListedStays(calls, calls1, names[i]);
      } else {
        assert names[offset..stop][i - offset] == names[i];
      }
    }
  }

  lemma ListedStays(calls: seq<Call>, calls1: seq<Call>, name: string)
    requires Listed(calls, name) && calls <= calls1
    ensures Listed(calls1, name)
  {
    var k :| 0 <= k < |calls| && name in calls[k].batch && calls[k].page.token.None?;
    assert calls1[k] == calls[k];
  }

  // ----- Deleting -----

  lemma {:induction false} FlattenAppend(batches: seq<seq<string>>, batch: seq<string>)
    ensures Flatten(batches + [batch]) == Flatten(batches) + batch
  {
    assert (batches + [batch])[..|batches|] == batches;
  }

  method DeleteVerified(alarms: CloudWatch, verified: seq<string>, guards: nat -> bool, guard: nat)
    returns (failure: Option<Failure>, ghost batches: seq<seq<string>>)
    modifies alarms`deletes
    ensures alarms.deletes == old(alarms.deletes) + batches && SmallBatches(batches)
    ensures Flatten(batches) <= verified && (failure.Some? ==> failure == Some(GuardFailed) && exists k :: !guards(k))
    ensures failure.None? ==> Flatten(batches) == verified
  {
    failure, batches := None, [];
    var offset, guard1 := 0, guard;
    while offset < |verified|
      invariant 0 <= offset <= |verified|
      invariant alarms.deletes == old(alarms.deletes) + batches && SmallBatches(batches)
      invariant Flatten(batches) == verified[..offset]
    {
      if !guards(guard1) { return Some(GuardFailed), batches; }
      guard1 := guard1 + 1;
      var stop := if offset + 100 <= |verified| then offset + 100 else |verified|;
      alarms.Delete(verified[offset..stop]);
      FlattenAppend(batches, verified[offset..stop]);
      batches := batches + [verified[offset..stop]];
      assert verified[..offset] + verified[offset..stop] == verified[..stop];
      offset := stop;
    }
  }

  /** Nothing is deleted unless every page for every recorded name was validated;
      what is deleted are the validated names, each once, in order and in batches of
      at most 100, all of them unless a fence check fails on the way. */
  method CleanupStatusAlarms(alarms: CloudWatch, ids: seq<string>, records: map<string, string>, guards: nat -> bool)
    returns (failure: Option<Failure>, ghost expected: map<string, string>, ghost calls: seq<Call>,
             ghost batches: seq<seq<string>>)
    modifies alarms
    ensures alarms.log == old(alarms.log) + calls && alarms.deletes == old(alarms.deletes) + batches
    ensures batches != [] || failure.None? ==>
      && Complete(calls, expected)
      && (forall i | 0 <= i < |ids| :: ids[i] in records && records[ids[i]] in expected)
      && (forall name | name in expected ::
            expected[name] in ids && expected[name] in records && records[expected[name]] == name)
    ensures SmallBatches(batches) && Flatten(batches) <= Named(calls) && NoneTwice(Flatten(batches))
    ensures failure.None? ==> Flatten(batches) == Named(calls)
    ensures |calls| <= |ids| + (|ids| + 99) / 100 && Follows(calls)
    ensures forall name | name in Flatten(batches) :: SeenWatching(calls, name, expected)
    ensures failure.Some? ==>
      || ((Unrecorded(ids, records) || Ambiguous(ids, records)) && calls == [])
      || Explains(failure.value, calls, expected, guards)
  {
    calls, batches := [], [];
    var wanted, names;
    failure, wanted, names := ExpectedNames(ids, records);
    expected := wanted;
    if failure.Some? { return; }
    var verified, guard;
    failure, verified, guard, calls := DescribeAll(alarms, names, wanted, guards);
    if failure.Some? { return; }
    failure, batches := DeleteVerified(alarms, verified, guards, guard);
    forall name | name in Flatten(batches) ensures SeenWatching(calls, name, expected) {
      NamedWasSeen(calls, expected, name);
    }
  }
}
