/** The bounded diagnostic exporter: producers under a lock, one worker thread, a log
    service that may store, refuse or lose a batch, and the completion marker. */
module TimingExport {
  import opened Wrappers
  import opened TimingValidate

  // ----- Sanitizing -----

  const Events: set<string> := {"boot_timing", "api_timing", "phase_timing"}

  const Fields: set<Key> :=
    {EventKey, PhaseKey, ServiceKey, OperationKey, DurationSecondsKey, OutcomeKey, BootContextKey,
     StartupInvocationKey, ErrorCodeKey, DryRunKey, TimestampKey, StartedAtKey, BootElapsedSecondsKey,
     Ec2StateKey, RetiringKey, InspectedInstanceIdKey, MismatchFieldsKey}

  predicate SafeChar(c: char) {
    'A' <= c <= 'Z' || 'a' <= c <= 'z' || '0' <= c <= '9' || c in "_:.+ /-"
  }

  predicate Safe(v: Json) {
    match v
    case Null => true
    case Bool(_) => true
    case Int(n) => -1_000_000_000_000 < n < 1_000_000_000_000
    case Real(x) => -1_000_000_000_000.0 < x < 1_000_000_000_000.0
    case Str(s) => |s| <= 128 && forall c | c in s :: SafeChar(c)
    case _ => false
  }

  predicate Known(raw: Line) {
    Get(raw, EventKey).Str? && Get(raw, EventKey).s in Events
  }

  function Sanitized(raw: Line): Line {
    map k | k in raw && k in Fields && Safe(raw[k]) :: raw[k]
  }

  /** ASCII letters and digits, and _ : . + space / - */
  predicate Printable(code: int) {
    65 <= code <= 90 || 97 <= code <= 122 || 48 <= code <= 57 || code in {95, 58, 46, 43, 32, 47, 45}
  }

  /** What is exported of a field: null, a flag, a number below 10^12 in size, or a text
      of at most 128 such characters; nothing nested. */
  lemma SafeIsExact(v: Json)
    ensures Safe(v) <==>
      || v == Null || v.Bool?
      || (v.Int? && -1_000_000_000_000 < v.n < 1_000_000_000_000)
      || (v.Real? && -1_000_000_000_000.0 < v.x < 1_000_000_000_000.0)
      || (v.Str? && |v.s| <= 128 && forall i | 0 <= i < |v.s| :: Printable(v.s[i] as int))
  {
    if v.Str? {
      forall i | 0 <= i < |v.s| ensures SafeChar(v.s[i]) <==> Printable(v.s[i] as int) { CodesAgree(v.s[i]); }
    }
  }

  lemma CodesAgree(c: char)
    ensures SafeChar(c) <==> Printable(c as int)
  {
    assert ['_', ':', '.', '+', ' ', '/', '-'] == "_:.+ /-";
    assert c in "_:.+ /-" <==> c in ['_', ':', '.', '+', ' ', '/', '-'];
  }

  method Sanitize(raw: Line) returns (record: Option<Line>)
    ensures record == if Known(raw) then Some(Sanitized(raw)) else None
  {
    if !Known(raw) { return None; }
    var kept: Line := map[];
    var todo := Fields * raw.Keys;
    while todo != {}
      invariant todo <= Fields * raw.Keys
      invariant kept == map k | k in raw && k in Fields && k !in todo && Safe(raw[k]) :: raw[k]
    {
      var key :| key in todo;
      if Safe(raw[key]) { kept := kept[key := raw[key]]; }
      todo := todo - {key};
    }
    assert kept == Sanitized(raw);
    record := Some(kept);
  }

  // ----- One exporter -----

  /** Its identity tags and producer id; capacity, byte and batch bounds. */
  datatype Setup = Setup(identity: Line, producer: string, capacity: nat, maxBytes: nat, batchCount: nat)

  predicate GoodSetup(u: Setup) {
    && u.identity.Keys == IdentityKeys && (forall k | k in IdentityKeys :: FilledString(u.identity[k]))
    && u.producer != "" && 1 <= u.batchCount <= 32
  }

  /** The line exported for a sanitized record under the next sequence number. */
  function Stamped(u: Setup, record: Line, sequence: nat): Line {
    (record[SchemaVersionKey := Int(2)] + u.identity)
      [ProducerIdKey := Str(u.producer)][SequenceKey := Int(sequence)]
      [RecordIdKey := Str(u.producer + ":" + Digits(sequence))]
  }

  /** A queued message with its encoded size. */
  datatype Message = Message(line: Line, size: nat)

  datatype Phase = Starting | Working | Finished

  /** held is the message the worker has taken off the queue and not yet released the
      bytes of. stored and lost are histories: the records of batches whose upload
      returned, and of those whose upload was given up. sink is what the service holds. */
  datatype State = State(
    queue: seq<Message>, held: Option<Message>, batch: seq<Line>, bytes: nat, accepted: nat, dropped: nat,
    uploaded: nat, errors: nat, retries: nat, digest: seq<Line>, closed: bool, isSealed: bool, phase: Phase,
    marker: Option<Line>, stored: seq<Line>, lost: seq<Line>, sink: set<Line>)

  const Begin := State([], None, [], 0, 0, 0, 0, 0, 0, [], false, false, Starting, None, [], [], {})

  function Offered(u: Setup, s: State, raw: Line, size: nat, initialization: bool): State {
    if Known(raw) then Admitted(u, s, Sanitized(raw), size, initialization) else s
  }

  /** Under the lock. */
  function Admitted(u: Setup, s: State, record: Line, size: nat, initialization: bool): State {
    if s.closed && !initialization then s.(dropped := s.dropped + 1)
    else if |s.queue| >= u.capacity || size > 16384 || s.bytes + size > u.maxBytes then s.(dropped := s.dropped + 1)
    else
      var line := Stamped(u, record, s.accepted + 1);
      s.(queue := s.queue + [Message(line, size)], bytes := s.bytes + size, accepted := s.accepted + 1,
         digest := s.digest + [line])
  }

  /** One put_log_events call: all stored; some stored and the rest refused; or no
      answer, whatever was stored. */
  datatype Attempt = Stored | Refused(kept: set<Line>) | Unanswered(kept: set<Line>)

  /** Up to three attempts; a refusal is final, a missing answer is tried again. */
  datatype Upload = Upload(ok: bool, retries: nat, sink: set<Line>)

  function Uploading(lines: seq<Line>, sink: set<Line>, attempts: seq<Attempt>, k: nat): Upload
    requires |attempts| == 3 && k < 3
    decreases 3 - k
  {
    match attempts[k]
    case Stored => Upload(true, 0, sink + Distinct(lines))
    case Refused(kept) => Upload(false, 0, sink + kept * Distinct(lines))
    case Unanswered(kept) =>
      var after := sink + kept * Distinct(lines);
      if k == 2 then Upload(false, 0, after)
      else
        var rest := Uploading(lines, after, attempts, k + 1);
        rest.(retries := rest.retries + 1)
  }

  function Heading(u: Setup): Line {
    u.identity[SchemaVersionKey := Int(2)][EventKey := Str("timing_collection_complete")]
      [ProducerIdKey := Str(u.producer)]
  }

  function Marker(u: Setup, s: State): Line {
    Summed(u, s.accepted, s.uploaded, s.dropped, s.errors, s.retries, s.digest)
  }

  function Summed(u: Setup, accepted: nat, uploaded: nat, dropped: nat, errors: nat, retries: nat,
                  digest: seq<Line>): Line
  {
    Heading(u)[AcceptedKey := Int(accepted)][UploadedKey := Int(uploaded)][DroppedKey := Int(dropped)]
      [UploadErrorsKey := Int(errors)][UploadRetriesKey := Int(retries)][Sha256Key := Sha(digest)]
      [CompleteKey := Bool(dropped == 0 && errors == 0 && uploaded == accepted)]
  }

  /** Atomic steps of the producers, the closer and the worker. */
  datatype Step =
    | Offer(raw: Line, size: nat)
    | Close
    | Seal
    | OfferStartup(raw: Line, size: nat)      // the worker times its client's creation
    | StreamReady
    | StreamFailed
    | Hold                                    // the queue's own lock
    | Release                                 // the exporter's lock
    | Flush(attempts: seq<Attempt>)
    | Finish(attempts: seq<Attempt>)

  function Held(s: State): State
    requires s.queue != []
  {
    s.(queue := s.queue[1..], held := Some(s.queue[0]))
  }

  function Released(s: State): State
    requires s.held.Some?
  {
    s.(held := None, bytes := if s.bytes < s.held.value.size then 0 else s.bytes - s.held.value.size,
       batch := s.batch + [s.held.value.line])
  }

  function Flushed(s: State, attempts: seq<Attempt>): State
    requires |attempts| == 3
  {
    Delivered(s, Uploading(s.batch, s.sink, attempts, 0))
  }

  /** The batch's upload returned, or was given up. */
  function Delivered(s: State, up: Upload): State {
    var t := s.(batch := [], sink := up.sink, retries := s.retries + up.retries);
    if up.ok then t.(uploaded := s.uploaded + |s.batch|, stored := s.stored + s.batch)
    else t.(errors := s.errors + 1, lost := s.lost + s.batch)
  }

  function Ended(u: Setup, s: State, attempts: seq<Attempt>): State
    requires |attempts| == 3
  {
    var m := Marker(u, s);
    Closed(s, m, Uploading([m], s.sink, attempts, 0))
  }

  function Closed(s: State, m: Line, up: Upload): State {
    var t := s.(marker := Some(m), sink := up.sink, retries := s.retries + up.retries, phase := Finished);
    if up.ok then t else t.(errors := t.errors + 1)
  }

  function Next(u: Setup, s: State, step: Step): Option<State> {
    match step
    case Offer(raw, size) => Some(Offered(u, s, raw, size, false))
    case Close => Some(s.(closed := true))
    case Seal => if s.closed then Some(s.(isSealed := true)) else None
    case OfferStartup(raw, size) => if s.phase == Starting then Some(Offered(u, s, raw, size, true)) else None
    case StreamReady => if s.phase == Starting then Some(s.(phase := Working)) else None
    case StreamFailed => if s.phase == Starting then Some(s.(phase := Finished, errors := s.errors + 1)) else None
    case Hold =>
      if s.phase == Working && s.held.None? && s.queue != [] && |s.batch| < u.batchCount then Some(Held(s)) else None
    case Release => if s.held.Some? then Some(Released(s)) else None
    case Flush(attempts) =>
      if s.phase == Working && s.held.None? && s.batch != [] && |attempts| == 3
      then Some(Flushed(s, attempts)) else None
    case Finish(attempts) =>
      if s.phase == Working && s.held.None? && s.batch == [] && s.isSealed && s.queue == [] && |attempts| == 3
      then Some(Ended(u, s, attempts)) else None
  }

  /** The worker starts uploading when its stream is open; if it cannot be opened the
      worker ends there, with an error and without a marker. */
  lemma StreamExactly(u: Setup, s: State)
    ensures Next(u, s, StreamReady) == if s.phase == Starting then Some(s.(phase := Working)) else None
    ensures Next(u, s, StreamFailed) ==
      if s.phase == Starting then Some(s.(phase := Finished, errors := s.errors + 1)) else None
  {
  }

  function Run(u: Setup, steps: seq<Step>): Option<State> {
    if steps == [] then Some(Begin)
    else
      var before := Run(u, steps[..|steps| - 1]);
      if before.None? then None else Next(u, before.value, steps[|steps| - 1])
  }

  // ----- The invariant -----

  function Lines(queue: seq<Message>): seq<Line> {
    seq(|queue|, i requires 0 <= i < |queue| => queue[i].line)
  }

  function Total(queue: seq<Message>): nat {
    if queue == [] then 0 else queue[0].size + Total(queue[1..])
  }

  /** A record line as the exporter stamps them. */
  predicate Exported(u: Setup, r: Line, sequence: nat) {
    && Get(r, EventKey).Str? && Get(r, EventKey).s in Events
    && Producer(r) == Str(u.producer) && Identity(r) == u.identity
    && Get(r, SequenceKey) == Int(sequence) && Get(r, RecordIdKey) == Str(u.producer + ":" + Digits(sequence))
  }

  /** The messages not yet in a batch, the held one first. */
  function Waiting(s: State): seq<Message> {
    (if s.held.Some? then [s.held.value] else []) + s.queue
  }

  /** Every accepted record is in exactly one place. */
  predicate Conserved(s: State) {
    && multiset(s.digest) == multiset(s.stored) + multiset(s.lost) + multiset(s.batch) + multiset(Lines(Waiting(s)))
    && |s.digest| == s.accepted && |s.stored| == s.uploaded
    && (s.lost != [] ==> s.errors > 0)
  }

  predicate Bounded(u: Setup, s: State) {
    && |s.queue| <= u.capacity && |s.batch| + (if s.held.Some? then 1 else 0) <= u.batchCount
    && s.bytes == Total(Waiting(s)) && s.bytes <= u.maxBytes
  }

  /** The marker counts the records and digests them in order, and calls the
      collection complete only if none was lost. */
  predicate MarkerInv(u: Setup, s: State, m: Line) {
    && s.phase == Finished && Waiting(s) == [] && s.batch == [] && s.closed
    && IsMarker(m) && Producer(m) == Str(u.producer) && Identity(m) == u.identity
    && Get(m, AcceptedKey) == Int(s.accepted) && Get(m, UploadedKey) == Int(s.uploaded)
    && Get(m, Sha256Key) == Sha(s.digest)
    && (Get(m, CompleteKey) == Bool(true) ==>
          s.lost == [] && Get(m, DroppedKey) == Int(0) && Get(m, UploadErrorsKey) == Int(0))
  }

  predicate AllExported(u: Setup, lines: seq<Line>) {
    forall i | 0 <= i < |lines| :: Exported(u, lines[i], i + 1)
  }

  ghost predicate Inv(u: Setup, s: State) {
    && Conserved(s) && Bounded(u, s)
    && (s.isSealed ==> s.closed)
    && AllExported(u, s.digest)
    && Distinct(s.stored) <= s.sink
    && s.sink <= Distinct(s.digest) + (if s.marker.Some? then {s.marker.value} else {})
    && (s.marker.Some? ==> MarkerInv(u, s, s.marker.value))
  }

  // ----- Each step keeps it -----

  lemma {:induction false} TotalAppend(queue: seq<Message>, m: Message)
    ensures Total(queue + [m]) == Total(queue) + m.size
  {
    if queue != [] {
      assert (queue + [m])[1..] == queue[1..] + [m];
      TotalAppend(queue[1..], m);
    }
  }

  lemma EventIsSafe(raw: Line)
    requires Known(raw)
    ensures Safe(raw[EventKey]) && Sanitized(raw)[EventKey] == raw[EventKey]
  {
    var s := raw[EventKey].s;
    assert |s| <= 128;
    forall c | c in s ensures SafeChar(c) {
      assert s == "boot_timing" || s == "api_timing" || s == "phase_timing";
    }
  }

  lemma StampedIdentity(u: Setup, record: Line, sequence: nat)
    requires GoodSetup(u)
    ensures Identity(Stamped(u, record, sequence)) == u.identity
  {
    var base := record[SchemaVersionKey := Int(2)] + u.identity;
    assert Identity(base) == u.identity;
    PlainKey(base, ProducerIdKey, Str(u.producer));
    PlainKey(base[ProducerIdKey := Str(u.producer)], SequenceKey, Int(sequence));
    PlainKey(base[ProducerIdKey := Str(u.producer)][SequenceKey := Int(sequence)], RecordIdKey,
             Str(u.producer + ":" + Digits(sequence)));
  }

  lemma StampedIsExported(u: Setup, raw: Line, sequence: nat)
    requires GoodSetup(u) && Known(raw)
    ensures Exported(u, Stamped(u, Sanitized(raw), sequence), sequence)
  {
    EventIsSafe(raw);
    StampedIdentity(u, Sanitized(raw), sequence);
    assert EventKey !in IdentityKeys && Get(Stamped(u, Sanitized(raw), sequence), EventKey) == raw[EventKey];
  }

  /** An accepted offer appends one line to the queue and to the digest. */
  lemma OfferedShape(u: Setup, s: State, raw: Line, size: nat, initialization: bool)
    ensures var t := Offered(u, s, raw, size, initialization);
      t == s || t == s.(dropped := s.dropped + 1) ||
      (Known(raw) && (s.closed ==> initialization)
       && Accepts(u, s, t, Stamped(u, Sanitized(raw), s.accepted + 1), size))
  {
  }

  predicate Accepts(u: Setup, s: State, t: State, line: Line, size: nat) {
    && |s.queue| < u.capacity && s.bytes + size <= u.maxBytes
    && t == s.(queue := s.queue + [Message(line, size)], bytes := s.bytes + size, accepted := s.accepted + 1,
               digest := s.digest + [line])
  }

  lemma AcceptConserves(u: Setup, s: State, t: State, line: Line, size: nat)
    requires Conserved(s) && Accepts(u, s, t, line, size)
    ensures Conserved(t)
  {
    assert Waiting(t) == Waiting(s) + [Message(line, size)];
    assert Lines(Waiting(t)) == Lines(Waiting(s)) + [line];
    OneMoreLine(Lines(Waiting(s)), line);
    OneMoreLine(s.digest, line);
    SumGains(multiset(s.digest), multiset(s.stored) + multiset(s.lost) + multiset(s.batch),
             multiset(Lines(Waiting(s))), line);
  }

  lemma SumGains(a: multiset<Line>, b: multiset<Line>, c: multiset<Line>, line: Line)
    requires a == b + c
    ensures a + multiset{line} == b + (c + multiset{line})
  {
  }

  lemma OneMoreLine(lines: seq<Line>, line: Line)
    ensures multiset(lines + [line]) == multiset(lines) + multiset{line}
  {
  }

  lemma AcceptIsBounded(u: Setup, s: State, t: State, line: Line, size: nat)
    requires Bounded(u, s) && Accepts(u, s, t, line, size)
    ensures Bounded(u, t)
  {
    TotalAppend(Waiting(s), Message(line, size));
    assert Waiting(t) == Waiting(s) + [Message(line, size)];
  }

  lemma AcceptKeepsInv(u: Setup, s: State, t: State, line: Line, size: nat)
    requires Inv(u, s) && Accepts(u, s, t, line, size) && Exported(u, line, s.accepted + 1) && s.marker.None?
    ensures Inv(u, t)
  {
    AcceptConserves(u, s, t, line, size);
    AcceptIsBounded(u, s, t, line, size);
    assert Distinct(s.digest) <= Distinct(t.digest);
  }

  lemma DropKeepsInv(u: Setup, s: State)
    requires Inv(u, s)
    ensures Inv(u, s.(dropped := s.dropped + 1))
  {
  }

  lemma OfferKeepsInv(u: Setup, s: State, raw: Line, size: nat, initialization: bool)
    requires GoodSetup(u) && Inv(u, s) && (initialization ==> s.phase == Starting)
    ensures Inv(u, Offered(u, s, raw, size, initialization))
  {
    OfferedShape(u, s, raw, size, initialization);
    DropKeepsInv(u, s);
    if Known(raw) && (s.closed ==> initialization) {
      StampedIsExported(u, raw, s.accepted + 1);
      OpenHasNoMarker(u, s);
      OfferIsAccepted(u, s, Offered(u, s, raw, size, initialization), Stamped(u, Sanitized(raw), s.accepted + 1), size);
    }
  }

  lemma OpenHasNoMarker(u: Setup, s: State)
    requires Inv(u, s) && (s.closed ==> s.phase == Starting)
    ensures s.marker.None?
  {
  }

  lemma OfferIsAccepted(u: Setup, s: State, t: State, line: Line, size: nat)
    requires Inv(u, s) && s.marker.None? && Exported(u, line, s.accepted + 1)
    ensures Accepts(u, s, t, line, size) ==> Inv(u, t)
  {
    if Accepts(u, s, t, line, size) { AcceptKeepsInv(u, s, t, line, size); }
  }

  lemma HoldKeepsInv(u: Setup, s: State)
    requires Inv(u, s) && s.phase == Working && s.held.None? && s.queue != [] && |s.batch| < u.batchCount
    ensures Inv(u, Held(s))
  {
    assert Waiting(Held(s)) == s.queue == Waiting(s);
  }

  lemma ReleaseKeepsInv(u: Setup, s: State)
    requires Inv(u, s) && s.held.Some?
    ensures Inv(u, Released(s))
  {
    assert Waiting(s)[1..] == s.queue == Waiting(Released(s));
    assert Lines(Waiting(s)) == [s.held.value.line] + Lines(s.queue);
    assert s.marker.None?;
  }

  lemma {:induction false} UploadStores(lines: seq<Line>, sink: set<Line>, attempts: seq<Attempt>, k: nat)
    requires |attempts| == 3 && k < 3
    ensures var up := Uploading(lines, sink, attempts, k);
      && sink <= up.sink <= sink + Distinct(lines)
      && (up.ok ==> Distinct(lines) <= up.sink)
      && up.retries <= 2 - k
    decreases 3 - k
  {
    if attempts[k].Unanswered? && k < 2 {
      UploadStores(lines, sink + attempts[k].kept * Distinct(lines), attempts, k + 1);
    }
  }

  /** The upload stops at the first attempt that was answered, or at the third; it
      succeeded exactly if that one stored everything. */
  lemma {:induction false} UploadIsExact(lines: seq<Line>, sink: set<Line>, attempts: seq<Attempt>, k: nat)
    requires |attempts| == 3 && k < 3
    ensures var up := Uploading(lines, sink, attempts, k); var last := k + up.retries;
      && last <= 2 && (forall i | k <= i < last :: attempts[i].Unanswered?)
      && (last == 2 || !attempts[last].Unanswered?)
      && up.ok == attempts[last].Stored?
    decreases 3 - k
  {
    if attempts[k].Unanswered? && k < 2 {
      UploadIsExact(lines, sink + attempts[k].kept * Distinct(lines), attempts, k + 1);
    }
  }

  lemma {:induction false} BatchIsAccepted(s: State)
    requires Conserved(s)
    ensures Distinct(s.batch) <= Distinct(s.digest)
  {
    forall r | r in s.batch ensures r in s.digest {
      assert multiset(s.batch)[r] > 0;
      assert multiset(s.digest)[r] > 0;
    }
  }

  lemma FlushKeepsInv(u: Setup, s: State, attempts: seq<Attempt>)
    requires Inv(u, s) && s.phase == Working && s.held.None? && s.batch != [] && |attempts| == 3
    ensures Inv(u, Flushed(s, attempts))
  {
    UploadStores(s.batch, s.sink, attempts, 0);
    BatchIsAccepted(s);
    assert s.marker.None?;
    var t := Flushed(s, attempts);
    assert Distinct(s.stored + s.batch) == Distinct(s.stored) + Distinct(s.batch);
  }

  lemma HeadingTags(u: Setup)
    requires GoodSetup(u)
    ensures IsMarker(Heading(u)) && Producer(Heading(u)) == Str(u.producer) && Identity(Heading(u)) == u.identity
  {
    var v, e := u.identity[SchemaVersionKey := Int(2)], Str("timing_collection_complete");
    assert Identity(u.identity) == u.identity;
    PlainKey(u.identity, SchemaVersionKey, Int(2));
    PlainKey(v, EventKey, e);
    PlainKey(v[EventKey := e], ProducerIdKey, Str(u.producer));
  }

  lemma PlainKey(r: Line, k: Key, v: Json)
    requires k !in IdentityKeys
    ensures Identity(r[k := v]) == Identity(r)
  {
  }

  lemma CountTags(m: Line, k: Key, v: Json)
    requires k !in IdentityKeys && k != EventKey && k != ProducerIdKey
    ensures Identity(m[k := v]) == Identity(m) && IsMarker(m[k := v]) == IsMarker(m)
    ensures Producer(m[k := v]) == Producer(m)
  {
  }

  lemma MoreTags(m: Line, e: Json, r: Json, d: Json, c: Json)
    ensures var n := m[UploadErrorsKey := e][UploadRetriesKey := r][Sha256Key := d][CompleteKey := c];
      Identity(n) == Identity(m) && IsMarker(n) == IsMarker(m) && Producer(n) == Producer(m)
  {
    CountTags(m, UploadErrorsKey, e);
    CountTags(m[UploadErrorsKey := e], UploadRetriesKey, r);
    CountTags(m[UploadErrorsKey := e][UploadRetriesKey := r], Sha256Key, d);
    CountTags(m[UploadErrorsKey := e][UploadRetriesKey := r][Sha256Key := d], CompleteKey, c);
  }

  lemma MarkerTags(u: Setup, s: State)
    requires GoodSetup(u)
    ensures IsMarker(Marker(u, s)) && Producer(Marker(u, s)) == Str(u.producer) && Identity(Marker(u, s)) == u.identity
  {
    HeadingTags(u);
    var a := Heading(u)[AcceptedKey := Int(s.accepted)];
    CountTags(Heading(u), AcceptedKey, Int(s.accepted));
    CountTags(a, UploadedKey, Int(s.uploaded));
    var b := a[UploadedKey := Int(s.uploaded)];
    CountTags(b, DroppedKey, Int(s.dropped));
    MoreTags(b[DroppedKey := Int(s.dropped)], Int(s.errors), Int(s.retries), Sha(s.digest),
             Bool(s.dropped == 0 && s.errors == 0 && s.uploaded == s.accepted));
  }

  lemma MarkerCounts(u: Setup, s: State)
    ensures Get(Marker(u, s), AcceptedKey) == Int(s.accepted) && Get(Marker(u, s), UploadedKey) == Int(s.uploaded)
    ensures Get(Marker(u, s), DroppedKey) == Int(s.dropped) && Get(Marker(u, s), UploadErrorsKey) == Int(s.errors)
    ensures Get(Marker(u, s), Sha256Key) == Sha(s.digest)
    ensures Get(Marker(u, s), CompleteKey) == Bool(s.dropped == 0 && s.errors == 0 && s.uploaded == s.accepted)
  {
  }

  lemma MarkerIsFaithful(u: Setup, s: State, t: State)
    requires GoodSetup(u) && Conserved(s) && s.closed && Waiting(s) == [] && s.batch == []
    requires t.phase == Finished && Waiting(t) == [] && t.batch == [] && t.closed
    requires t.accepted == s.accepted && t.uploaded == s.uploaded && t.digest == s.digest && t.lost == s.lost
    ensures MarkerInv(u, t, Marker(u, s))
  {
    MarkerTags(u, s);
    MarkerCounts(u, s);
  }

  lemma FinishKeepsInv(u: Setup, s: State, attempts: seq<Attempt>)
    requires GoodSetup(u) && Inv(u, s) && s.isSealed && Waiting(s) == [] && s.batch == []
    requires s.phase == Working && |attempts| == 3
    ensures Inv(u, Ended(u, s, attempts))
  {
    UploadStores([Marker(u, s)], s.sink, attempts, 0);
    assert s.marker.None?;
    assert Distinct([Marker(u, s)]) == {Marker(u, s)};
    MarkerIsFaithful(u, s, Ended(u, s, attempts));
  }

  /** Closing, sealing, and the outcome of opening the log stream. */
  lemma ControlKeepsInv(u: Setup, s: State, t: State)
    requires Inv(u, s) && t == s.(closed := t.closed, isSealed := t.isSealed, phase := t.phase, errors := t.errors)
    requires (s.closed || t.isSealed ==> t.closed) && s.errors <= t.errors && (s.marker.Some? ==> t.phase == Finished)
    ensures Inv(u, t)
  {
    assert Waiting(t) == Waiting(s);
  }

  lemma StepKeepsInv(u: Setup, s: State, step: Step)
    requires GoodSetup(u) && Inv(u, s) && Next(u, s, step).Some?
    ensures Inv(u, Next(u, s, step).value)
  {
    match step
    case Offer(raw, size) => OfferKeepsInv(u, s, raw, size, false);
    case OfferStartup(raw, size) => OfferKeepsInv(u, s, raw, size, true);
    case Hold => HoldKeepsInv(u, s);
    case Release => ReleaseKeepsInv(u, s);
    case Close => ControlKeepsInv(u, s, s.(closed := true));
    case Seal => ControlKeepsInv(u, s, s.(isSealed := true));
    case StreamReady => ControlKeepsInv(u, s, s.(phase := Working));
    case StreamFailed => ControlKeepsInv(u, s, s.(phase := Finished, errors := s.errors + 1));
    case Flush(attempts) => FlushKeepsInv(u, s, attempts);
    case Finish(attempts) => FinishKeepsInv(u, s, attempts);
  }

  lemma {:induction false} RunKeepsInv(u: Setup, steps: seq<Step>)
    requires GoodSetup(u) && Run(u, steps).Some?
    ensures Inv(u, Run(u, steps).value)
  {
    if steps != [] {
      RunKeepsInv(u, steps[..|steps| - 1]);
      StepKeepsInv(u, Run(u, steps[..|steps| - 1]).value, steps[|steps| - 1]);
    }
  }

  // ----- The marker and the receipt check -----

  /** At the marker the queue is empty and every accepted record was uploaded or lost
      with a failed batch; the counts say how many. */
  lemma MarkerAccounts(u: Setup, steps: seq<Step>)
    requires GoodSetup(u) && Run(u, steps).Some? && Run(u, steps).value.marker.Some?
    ensures var s := Run(u, steps).value; var m := s.marker.value;
      && s.queue == [] && s.held.None? && s.batch == []
      && multiset(s.digest) == multiset(s.stored) + multiset(s.lost)
      && Get(m, AcceptedKey) == Int(|s.digest|) && Get(m, UploadedKey) == Int(|s.stored|)
      && Get(m, Sha256Key) == Sha(s.digest)
      && (Get(m, CompleteKey) == Bool(true) ==> s.lost == [] && Distinct(s.digest) <= s.sink)
  {
    RunKeepsInv(u, steps);
    var s := Run(u, steps).value;
    if s.lost == [] {
      forall r | r in s.digest ensures r in s.stored {
        assert multiset(s.digest)[r] > 0;
      }
    }
  }

  lemma ExportedIsRecord(u: Setup, r: Line, sequence: nat)
    requires GoodSetup(u) && Exported(u, r, sequence) && sequence >= 1
    ensures WellFormed(r) && IsRecord(r) && Number(r) == sequence && Producer(r) == Str(u.producer)
  {
    forall k | k in IdentityKeys ensures Get(r, k) == u.identity[k] {
      assert Identity(r)[k] == Get(r, k);
    }
  }

  lemma MarkerIsWellFormed(u: Setup, m: Line)
    requires GoodSetup(u) && IsMarker(m) && Producer(m) == Str(u.producer) && Identity(m) == u.identity
    ensures WellFormed(m)
  {
    forall k | k in IdentityKeys ensures Get(m, k) == u.identity[k] {
      assert Identity(m)[k] == Get(m, k);
    }
  }

  /** What the exporter wrote, and nothing else of its producer. */
  function Written(digest: seq<Line>, m: Line): set<Line> {
    Distinct(digest) + {m}
  }

  lemma WrittenIsConsistent(u: Setup, digest: seq<Line>, m: Line)
    requires GoodSetup(u) && AllExported(u, digest)
    requires IsMarker(m) && Producer(m) == Str(u.producer) && Identity(m) == u.identity
    ensures Consistent(Written(digest, m))
    ensures RecordsOf(Written(digest, m), Str(u.producer)) == Distinct(digest)
    ensures MarkersOf(Written(digest, m), Str(u.producer)) == {m}
    ensures Producers(Written(digest, m)) == {Str(u.producer)} && InOrder(digest)
  {
    MarkerIsWellFormed(u, m);
    forall i | 0 <= i < |digest|
      ensures WellFormed(digest[i]) && IsRecord(digest[i]) && Number(digest[i]) == i + 1
    {
      ExportedIsRecord(u, digest[i], i + 1);
    }
    assert m in Written(digest, m);
  }

  lemma WrittenIsAccepted(u: Setup, digest: seq<Line>, m: Line)
    requires GoodSetup(u) && AllExported(u, digest)
    requires IsMarker(m) && Producer(m) == Str(u.producer) && Identity(m) == u.identity
    requires Certifies(m, Distinct(digest))
    ensures Acceptable(Written(digest, m), false, None)
  {
    WrittenIsConsistent(u, digest, m);
    assert m in MarkersOf(Written(digest, m), Str(u.producer));
    assert ProducerComplete(Written(digest, m), Str(u.producer), false);
  }

  /** An accepted collection holding m has, of m's producer, exactly the digested
      records and m. */
  lemma AcceptedIsWritten(lines: set<Line>, m: Line, digest: seq<Line>)
    requires Acceptable(lines, false, None) && m in lines && IsMarker(m) && Get(m, Sha256Key) == Sha(digest)
    ensures Certifies(m, RecordsOf(lines, Producer(m))) && RecordsOf(lines, Producer(m)) == Distinct(digest)
    ensures MarkersOf(lines, Producer(m)) == {m}
  {
    var p := Producer(m);
    assert p in Producers(lines) && ProducerComplete(lines, p, false);
    var m1 :| m1 in MarkersOf(lines, p) && Certifies(m1, RecordsOf(lines, p));
    forall d | d in MarkersOf(lines, p) ensures d == m {
      assert Agree(d, m);
    }
  }

  lemma OneProducer(lines: set<Line>, p: Json)
    requires forall r | r in lines :: Producer(r) == p
    ensures lines == RecordsOf(lines, p) + MarkersOf(lines, p)
  {
  }

  /** Exporter and check agree. Take any run that wrote its marker m, and any
      collection of this producer's lines that contains m, in any order and with any
      exact duplicates. If m says complete, the check accepts the collection exactly
      when every accepted record is in it, none altered and none added; if it does
      not, the check rejects every such collection. */
  lemma ReceiptsAreExact(u: Setup, steps: seq<Step>, collection: seq<Line>)
    requires GoodSetup(u) && Run(u, steps).Some? && Run(u, steps).value.marker.Some?
    requires Run(u, steps).value.marker.value in collection
    requires forall r | r in collection :: Producer(r) == Str(u.producer)
    ensures var s := Run(u, steps).value; var m := s.marker.value;
      Acceptable(Distinct(collection), false, None) <==>
        (Get(m, CompleteKey) == Bool(true) && Distinct(collection) == Written(s.digest, m))
  {
    RunKeepsInv(u, steps);
    var s := Run(u, steps).value;
    var m, lines := s.marker.value, Distinct(collection);
    OneProducer(lines, Str(u.producer));
    if Acceptable(lines, false, None) {
      AcceptedIsWritten(lines, m, s.digest);
    }
    if Get(m, CompleteKey) == Bool(true) && lines == Written(s.digest, m) {
      MarkerCertifies(u, s, m);
      WrittenIsAccepted(u, s.digest, m);
    }
  }

  lemma MarkerCertifies(u: Setup, s: State, m: Line)
    requires GoodSetup(u) && Inv(u, s) && s.marker == Some(m) && Get(m, CompleteKey) == Bool(true)
    ensures Certifies(m, Distinct(s.digest))
  {
    WrittenIsConsistent(u, s.digest, m);
    assert |s.stored| == |multiset(s.stored)| && |s.digest| == |multiset(s.digest)|;
    assert multiset(s.digest) == multiset(s.stored);
  }

  /** What the log service holds of a complete collection is accepted. */
  lemma StoredCollectionIsAccepted(u: Setup, steps: seq<Step>, collection: seq<Line>)
    requires GoodSetup(u) && Run(u, steps).Some? && Run(u, steps).value.marker.Some?
    requires var s := Run(u, steps).value;
      s.marker.value in s.sink && Get(s.marker.value, CompleteKey) == Bool(true) && Distinct(collection) == s.sink
    ensures Acceptable(Distinct(collection), false, None)
  {
    RunKeepsInv(u, steps);
    MarkerAccounts(u, steps);
    var s := Run(u, steps).value;
    assert s.sink == Written(s.digest, s.marker.value);
    WrittenIsConsistent(u, s.digest, s.marker.value);
    assert s.marker.value in Distinct(collection);
    assert forall r | r in collection :: Producer(r) in Producers(Written(s.digest, s.marker.value)) by {
      assert forall r | r in collection :: r in Distinct(collection);
    }
    ReceiptsAreExact(u, steps, collection);
  }

  /** One of the three attempts stores everything, and before it none was answered. */
  predicate Delivers(attempts: seq<Attempt>) {
    && |attempts| == 3
    && (attempts[0].Stored?
        || (attempts[0].Unanswered? && attempts[1].Stored?)
        || (attempts[0].Unanswered? && attempts[1].Unanswered? && attempts[2].Stored?))
  }

  predicate Delivering(step: Step) {
    && !step.StreamFailed?
    && (step.Flush? ==> Delivers(step.attempts))
    && (step.Finish? ==> Delivers(step.attempts))
  }

  /** Nothing was lost, and a marker is in the service and incomplete only for drops. */
  predicate Lossless(s: State) {
    && s.lost == [] && (s.marker.None? ==> s.errors == 0)
    && (s.marker.Some? ==>
          && s.marker.value in s.sink
          && Get(s.marker.value, CompleteKey) == Bool(Get(s.marker.value, DroppedKey) == Int(0)))
  }

  lemma OfferStaysLossless(u: Setup, s: State, raw: Line, size: nat, initialization: bool)
    requires Lossless(s)
    ensures Lossless(Offered(u, s, raw, size, initialization))
  {
    OfferedShape(u, s, raw, size, initialization);
  }

  lemma FlushStaysLossless(s: State, attempts: seq<Attempt>)
    requires Lossless(s) && s.marker.None? && Delivers(attempts)
    ensures Lossless(Flushed(s, attempts))
  {
    UploadIsExact(s.batch, s.sink, attempts, 0);
  }

  lemma FinishStaysLossless(u: Setup, s: State, attempts: seq<Attempt>)
    requires Inv(u, s) && Lossless(s) && s.marker.None? && Waiting(s) == [] && s.batch == [] && Delivers(attempts)
    ensures Lossless(Ended(u, s, attempts))
  {
    var m := Marker(u, s);
    UploadIsExact([m], s.sink, attempts, 0);
    UploadStores([m], s.sink, attempts, 0);
    assert m in Distinct([m]) by { assert [m][0] == m; }
    assert multiset(s.digest) == multiset(s.stored);
    assert |s.digest| == |multiset(s.digest)| && |s.stored| == |multiset(s.stored)|;
    MarkerCounts(u, s);
  }

  lemma StepStaysLossless(u: Setup, s: State, step: Step)
    requires Inv(u, s) && Lossless(s) && Next(u, s, step).Some? && Delivering(step)
    ensures Lossless(Next(u, s, step).value)
  {
    match step
    case Offer(raw, size) => OfferStaysLossless(u, s, raw, size, false);
    case OfferStartup(raw, size) => OfferStaysLossless(u, s, raw, size, true);
    case Flush(attempts) => FlushStaysLossless(s, attempts);
    case Finish(attempts) => FinishStaysLossless(u, s, attempts);
    case _ =>
  }

  lemma {:induction false} RunStaysLossless(u: Setup, steps: seq<Step>)
    requires GoodSetup(u) && Run(u, steps).Some? && forall i | 0 <= i < |steps| :: Delivering(steps[i])
    ensures Lossless(Run(u, steps).value)
  {
    if steps != [] {
      RunStaysLossless(u, steps[..|steps| - 1]);
      RunKeepsInv(u, steps[..|steps| - 1]);
      StepStaysLossless(u, Run(u, steps[..|steps| - 1]).value, steps[|steps| - 1]);
    }
  }

  /** The collection's purpose: if the stream opened, each upload had an attempt that
      stored everything after none but unanswered ones, and nothing was dropped before
      the marker, then the marker says complete and what the service holds is accepted. */
  lemma DeliveredCollectionIsAccepted(u: Setup, steps: seq<Step>, collection: seq<Line>)
    requires GoodSetup(u) && Run(u, steps).Some? && Run(u, steps).value.marker.Some?
    requires forall i | 0 <= i < |steps| :: Delivering(steps[i])
    requires Get(Run(u, steps).value.marker.value, DroppedKey) == Int(0)
    requires Distinct(collection) == Run(u, steps).value.sink
    ensures Get(Run(u, steps).value.marker.value, CompleteKey) == Bool(true)
    ensures Acceptable(Distinct(collection), false, None)
  {
    RunStaysLossless(u, steps);
    StoredCollectionIsAccepted(u, steps, collection);
  }

  // ----- The exporter itself -----

  lemma RunExtends(u: Setup, steps: seq<Step>, step: Step)
    requires Run(u, steps).Some?
    ensures Run(u, steps + [step]) == Next(u, Run(u, steps).value, step)
  {
    assert (steps + [step])[..|steps|] == steps;
  }

  function Offering(raw: Line, size: nat, initialization: bool): Step {
    if initialization then OfferStartup(raw, size) else Offer(raw, size)
  }

  lemma OfferExtends(u: Setup, steps: seq<Step>, s: State, raw: Line, size: nat, initialization: bool)
    ensures Run(u, steps) == Some(s) && (initialization ==> s.phase == Starting) ==>
      Run(u, steps + [Offering(raw, size, initialization)]) == Some(Offered(u, s, raw, size, initialization))
  {
    if Run(u, steps) == Some(s) { RunExtends(u, steps, Offering(raw, size, initialization)); }
  }

  lemma FirstLine(queue: seq<Message>)
    requires queue != []
    ensures Lines(queue) == [queue[0].line] + Lines(queue[1..])
  {
  }

  predicate Oracle(attempts: seq<Attempt>) {
    |attempts| == 3
  }

  class Exporter {
    const setup: Setup
    var queue: seq<Message>
    var held: Option<Message>
    var batch: seq<Line>
    var bytes: nat
    var accepted: nat
    var dropped: nat
    var uploaded: nat
    var errors: nat
    var retries: nat
    var digest: seq<Line>
    var closed: bool
    var isSealed: bool
    var phase: Phase
    var marker: Option<Line>
    ghost var stored: seq<Line>
    ghost var lost: seq<Line>
    ghost var sink: set<Line>
    ghost var trace: seq<Step>        // the steps taken so far

    ghost function View(): State
      reads this
    {
      State(queue, held, batch, bytes, accepted, dropped, uploaded, errors, retries, digest, closed, isSealed, phase,
            marker, stored, lost, sink)
    }

    /** It is where its steps lead, so what is proved of every run holds of it. */
    ghost predicate Valid()
      reads this
    {
      GoodSetup(setup) && Run(setup, trace) == Some(View())
    }

    constructor (setup: Setup)
      requires GoodSetup(setup)
      ensures Valid() && View() == Begin && this.setup == setup
    {
      this.setup := setup;
      queue, batch, bytes, accepted, dropped, uploaded, errors, retries := [], [], 0, 0, 0, 0, 0, 0;
      held, digest, closed, isSealed, phase, marker := None, [], false, false, Starting, None;
      stored, lost, sink, trace := [], [], {}, [];
    }

    /** size is the encoded length of the message with its overhead; initialization is
        the worker's own record, made before its stream is open. */
    method Enqueue(raw: Line, size: nat, initialization: bool) returns (kept: bool)
      modifies `queue, `bytes, `accepted, `dropped, `digest, `trace
      ensures View() == Offered(setup, old(View()), raw, size, initialization)
      ensures kept <==>
        && EventKey in raw && raw[EventKey].Str? && raw[EventKey].s in {"boot_timing", "api_timing", "phase_timing"}
        && (initialization || !old(closed)) && |old(queue)| < setup.capacity
        && size <= 16384 && old(bytes) + size <= setup.maxBytes
      ensures accepted == old(accepted) + (if kept then 1 else 0)
      ensures dropped == old(dropped) + (if Known(raw) && !kept then 1 else 0)
      ensures old(Valid()) && (initialization ==> phase == Starting) ==> Valid()
    {
      OfferExtends(setup, trace, View(), raw, size, initialization);
      trace := trace + [Offering(raw, size, initialization)];
      var record := Sanitize(raw);
      kept := false;
      if record.Some? { kept := Admit(record.value, size, initialization); }
    }

    method Admit(record: Line, size: nat, initialization: bool) returns (kept: bool)
      modifies `queue, `bytes, `accepted, `dropped, `digest
      ensures View() == Admitted(setup, old(View()), record, size, initialization)
      ensures kept <==>
        && (initialization || !old(closed)) && |old(queue)| < setup.capacity
        && size <= 16384 && old(bytes) + size <= setup.maxBytes
      ensures accepted == old(accepted) + (if kept then 1 else 0)
      ensures dropped == old(dropped) + (if kept then 0 else 1)
    {
      kept := !(closed && !initialization)
        && !(|queue| >= setup.capacity || size > 16384 || bytes + size > setup.maxBytes);
      if kept {
        var line := Stamped(setup, record, accepted + 1);
        queue := queue + [Message(line, size)];
        bytes := bytes + size;
        accepted := accepted + 1;
        digest := digest + [line];
      } else {
        dropped := dropped + 1;
      }
    }

    /** After this nothing is accepted any more. */
    method Close()
      requires Valid()
      modifies `closed, `isSealed, `trace
      ensures Valid() && View() == old(View()).(closed := true, isSealed := true)
    {
      RunExtends(setup, trace, Step.Close);
      RunExtends(setup, trace + [Step.Close], Seal);
      closed := true;
      isSealed := true;
      trace := trace + [Step.Close] + [Seal];
    }

    /** Collect a batch: at most the batch bound, what is queued, and what arrives
        before the deadline (at least one). */
    method FillBatch(deadline: nat)
      requires Valid() && phase == Working && held.None? && batch == [] && queue != [] && 1 <= deadline
      modifies `queue, `held, `batch, `bytes, `trace
      ensures Valid() && held.None? && batch != [] && |queue| < |old(queue)|
      ensures Lines(old(queue)) == batch + Lines(queue)
      ensures |batch| == setup.batchCount || |batch| == deadline || queue == []
      ensures |batch| <= setup.batchCount && |batch| <= deadline
    {
      var taken := 0;
      while |batch| < setup.batchCount && queue != [] && taken < deadline
        invariant Valid() && held.None? && taken == |batch| && |queue| == |old(queue)| - taken
        invariant taken <= setup.batchCount && taken <= deadline
        invariant Lines(old(queue)) == batch + Lines(queue)
        decreases |queue|
      {
        TakeOne();
        taken := taken + 1;
      }
    }

    method TakeOne()
      requires Valid() && phase == Working && held.None? && queue != [] && |batch| < setup.batchCount
      modifies `queue, `held, `batch, `bytes, `trace
      ensures Valid() && held.None? && |batch| == old(|batch|) + 1 && |queue| == old(|queue|) - 1
      ensures batch + Lines(queue) == old(batch) + Lines(old(queue))
    {
      FirstLine(queue);
      Hold();
      Release();
    }

    /** Off the queue, under the queue's own lock. */
    method Hold()
      requires Valid() && phase == Working && held.None? && queue != [] && |batch| < setup.batchCount
      modifies `queue, `held, `trace
      ensures Valid() && held == Some(old(queue)[0]) && queue == old(queue)[1..]
    {
      RunExtends(setup, trace, Step.Hold);
      held := Some(queue[0]);
      queue := queue[1..];
      trace := trace + [Step.Hold];
    }

    /** Into the batch, its bytes given back under the exporter's lock. */
    method Release()
      requires Valid() && held.Some?
      modifies `held, `batch, `bytes, `trace
      ensures Valid() && held.None? && batch == old(batch) + [old(held).value.line]
    {
      ghost var s := View();
      RunExtends(setup, trace, Step.Release);
      assert Run(setup, trace + [Step.Release]) == Some(Released(s));
      bytes := if bytes < held.value.size then 0 else bytes - held.value.size;
      batch := batch + [held.value.line];
      held := None;
      assert View() == Released(s);
      trace := trace + [Step.Release];
    }

    /** The upload loop: three attempts, the service's answers given. */
    method UploadLines(lines: seq<Line>, attempts: seq<Attempt>) returns (ok: bool)
      requires Oracle(attempts)
      modifies this`retries, this`sink
      ensures var up := Uploading(lines, old(sink), attempts, 0);
        ok == up.ok && retries == old(retries) + up.retries && sink == up.sink
    {
      var attempt := 0;
      while attempt < 3
        invariant 0 <= attempt <= 2
        invariant var up, rest := Uploading(lines, old(sink), attempts, 0), Uploading(lines, sink, attempts, attempt);
          up.ok == rest.ok && up.sink == rest.sink && old(retries) + up.retries == retries + rest.retries
        decreases 3 - attempt
      {
        match attempts[attempt] {
          case Stored =>
            sink := sink + Distinct(lines);
            return true;
          case Refused(kept) =>
            sink := sink + kept * Distinct(lines);
            return false;
          case Unanswered(kept) =>
            sink := sink + kept * Distinct(lines);
            if attempt == 2 { return false; }
            retries := retries + 1;
        }
        attempt := attempt + 1;
      }
      ok := false;
    }

    method FlushBatch(attempts: seq<Attempt>)
      requires Oracle(attempts)
      modifies `batch, `uploaded, `errors, `retries, `stored, `lost, `sink
      ensures View() == Flushed(old(View()), attempts) && batch == []
    {
      ghost var s := View();
      var ok := UploadLines(batch, attempts);
      assert View() == s.(retries := retries, sink := sink);
      Account(ok);
    }

    /** What became of the batch. */
    method Account(ok: bool)
      modifies `batch, `uploaded, `errors, `stored, `lost
      ensures View() == Delivered(old(View()), Upload(ok, 0, old(sink))) && batch == []
    {
      if ok {
        uploaded := uploaded + |batch|;
        stored := stored + batch;
      } else {
        errors := errors + 1;
        lost := lost + batch;
      }
      batch := [];
    }

    method WriteMarker(attempts: seq<Attempt>)
      requires Oracle(attempts)
      modifies `errors, `retries, `sink, `marker, `phase
      ensures View() == Ended(setup, old(View()), attempts) && phase == Finished && marker.Some?
    {
      var m := Summed(setup, accepted, uploaded, dropped, errors, retries, digest);
      marker := Some(m);
      var ok := UploadLines([m], attempts);
      if !ok { errors := errors + 1; }
      phase := Finished;
    }

    method ExportBatch(attempts: seq<Attempt>, deadline: nat)
      requires Valid() && phase == Working && held.None? && batch == [] && queue != []
      requires Oracle(attempts) && 1 <= deadline
      modifies `queue, `held, `batch, `bytes, `uploaded, `errors, `retries, `stored, `lost, `sink, `trace
      ensures Valid() && held.None? && batch == [] && |queue| < |old(queue)|
    {
      FillBatch(deadline);
      RunExtends(setup, trace, Flush(attempts));
      FlushBatch(attempts);
      trace := trace + [Flush(attempts)];
    }

    /** Once sealed the worker drains what is queued, whatever the service answers,
        and ends with its marker written and every record uploaded or lost. */
    method Drain(attempts: nat -> seq<Attempt>, deadline: nat -> nat)
      requires Valid() && phase == Working && held.None? && batch == [] && isSealed
      requires forall n :: Oracle(attempts(n)) && 1 <= deadline(n)
      modifies this
      ensures Valid() && phase == Finished && marker.Some? && queue == [] && digest == old(digest)
      ensures multiset(digest) == multiset(stored) + multiset(lost)
    {
      var n: nat := 0;
      while queue != []
        invariant Valid() && phase == Working && held.None? && batch == [] && isSealed && digest == old(digest)
        decreases |queue|
      {
        ExportBatch(attempts(n), deadline(n));
        n := n + 1;
      }
      End(attempts(n));
      MarkerAccounts(setup, trace);
    }

    method End(attempts: seq<Attempt>)
      requires Valid() && phase == Working && held.None? && batch == [] && queue == [] && isSealed && Oracle(attempts)
      modifies `errors, `retries, `sink, `marker, `phase, `trace
      ensures Valid() && phase == Finished && marker.Some?
    {
      RunExtends(setup, trace, Finish(attempts));
      WriteMarker(attempts);
      trace := trace + [Finish(attempts)];
    }
  }
}
