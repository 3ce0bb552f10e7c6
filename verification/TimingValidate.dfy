/** The independent receipt check of a timing collection. */
module TimingValidate {
  import opened Wrappers

  /** The keys that mean something here, and any others. */
  datatype Key =
    | EnvironmentKey | RequestIdKey | GenerationKey | InstanceIdKey | BootIdKey | SourceCommitKey |
    DaemonSha256Key | ProducerIdKey | EventKey | SequenceKey | RecordIdKey | AcceptedKey | UploadedKey |
    DroppedKey | UploadErrorsKey | UploadRetriesKey | Sha256Key | CompleteKey | PhaseKey |
    BootContextKey | SchemaVersionKey | ServiceKey | OperationKey | DurationSecondsKey | OutcomeKey |
    StartupInvocationKey | ErrorCodeKey | DryRunKey | TimestampKey | StartedAtKey |
    BootElapsedSecondsKey | Ec2StateKey | RetiringKey | InspectedInstanceIdKey | MismatchFieldsKey
    | OtherKey(name: string)

  /** JSON values as far as the checks look at them. Sha stands for the hex digest
      of these lines, each rendered with sorted keys and ended by a newline; the
      digest and the rendering are taken to be injective. */
  datatype Json =
    | Null
    | Bool(b: bool)
    | Int(n: int)
    | Real(x: real)
    | NaN
    | Str(s: string)
    | Sha(lines: seq<map<Key, Json>>)
    | Compound

  type Line = map<Key, Json>

  const IdentityKeys: set<Key> :=
    {EnvironmentKey, RequestIdKey, GenerationKey, InstanceIdKey, BootIdKey, SourceCommitKey, DaemonSha256Key}

  function Get(r: Line, k: Key): Json {
    if k in r then r[k] else Null
  }

  predicate FilledString(v: Json) {
    (v.Str? && v.s != "") || v.Sha?
  }

  predicate Correlated(r: Line) {
    forall k | k in IdentityKeys :: FilledString(Get(r, k))
  }

  /** A value that Python takes for true. */
  predicate Truthy(v: Json) {
    match v
    case Null => false
    case Bool(b) => b
    case Int(n) => n != 0
    case Real(x) => x != 0.0
    case Str(s) => s != ""
    case _ => true
  }

  /** Lists and objects cannot key a dictionary. */
  predicate Hashable(v: Json) {
    !v.Compound?
  }

  function Producer(r: Line): Json {
    Get(r, ProducerIdKey)
  }

  function Identity(r: Line): Line
  {
    map k | k in IdentityKeys :: Get(r, k)
  }

  predicate IsMarker(r: Line) {
    Get(r, EventKey) == Str("timing_collection_complete")
  }

  function Digits(n: nat): string {
    if n < 10 then [('0' as int + n) as char] else Digits(n / 10) + [('0' as int + n % 10) as char]
  }

  /** A record's number and its identity derived from producer and number. */
  predicate Numbered(r: Line) {
    && Get(r, SequenceKey).Int? && r[SequenceKey].n >= 1
    && Producer(r).Str? && Get(r, RecordIdKey) == Str(Producer(r).s + ":" + Digits(r[SequenceKey].n))
  }

  function Number(r: Line): int
    requires Numbered(r)
  {
    r[SequenceKey].n
  }

  // ----- Which collections are complete, as a property of the set of lines -----

  predicate WellFormed(r: Line) {
    Correlated(r) && Truthy(Producer(r)) && Hashable(Producer(r)) && (IsMarker(r) || Numbered(r))
  }

  /** Field by field: seven identity tags and a producer, and unless it is a marker a
      number from 1 on and the record id made of both. */
  lemma WellFormedExactly(r: Line)
    requires ProducerIdKey in r && r[ProducerIdKey].Str?
    ensures WellFormed(r) <==>
      && (forall k | k in {EnvironmentKey, RequestIdKey, GenerationKey, InstanceIdKey, BootIdKey, SourceCommitKey,
                           DaemonSha256Key} :: k in r && (r[k].Sha? || (r[k].Str? && |r[k].s| > 0)))
      && |r[ProducerIdKey].s| > 0
      && (|| (EventKey in r && r[EventKey] == Str("timing_collection_complete"))
          || (SequenceKey in r && r[SequenceKey].Int? && r[SequenceKey].n > 0 && RecordIdKey in r
              && r[RecordIdKey] == Str(r[ProducerIdKey].s + ":" + Digits(r[SequenceKey].n))))
  {
    assert IdentityKeys ==
      {EnvironmentKey, RequestIdKey, GenerationKey, InstanceIdKey, BootIdKey, SourceCommitKey, DaemonSha256Key};
    if WellFormed(r) {
      forall k | k in IdentityKeys ensures k in r && (r[k].Sha? || (r[k].Str? && |r[k].s| > 0)) {
        assert FilledString(Get(r, k));
      }
    }
  }

  /** Two lines of one producer share its identity; its markers are one line, and
      so are its records of one number. */
  predicate Agree(r: Line, q: Line) {
    Producer(r) == Producer(q) ==>
      && Identity(r) == Identity(q)
      && (IsMarker(r) && IsMarker(q) ==> r == q)
      && (IsRecord(r) && IsRecord(q) && Number(r) == Number(q) ==> r == q)
  }

  predicate IsRecord(r: Line) {
    !IsMarker(r) && Numbered(r)
  }

  predicate Consistent(lines: set<Line>) {
    && (forall r | r in lines :: WellFormed(r))
    && (forall r, q | r in lines && q in lines :: Agree(r, q))
  }

  const BootPhases: set<string> :=
    {"entrypoint_started", "runtime_imports", "ec2_runtime_imports", "sdk_initialization"}

  predicate ShowsPhase(r: Line, phase: string) {
    Get(r, EventKey) == Str("boot_timing") && Get(r, PhaseKey) == Str(phase)
  }

  predicate VerifiesImage(r: Line) {
    Get(r, PhaseKey) == Str("baked_image_verification")
  }

  predicate PhaseShown(s: set<Line>, phase: string) {
    exists r :: r in s && ShowsPhase(r, phase)
  }

  predicate VerifiedIn(s: set<Line>, context: Json) {
    exists r :: r in s && VerifiesImage(r) && Get(r, BootContextKey) == context
  }

  predicate BootCovered(s: set<Line>) {
    && (forall phase | phase in BootPhases :: PhaseShown(s, phase))
    && !VerifiedIn(s, Compound) && VerifiedIn(s, Str("user_data")) && VerifiedIn(s, Str("service_pre"))
  }

  function RecordsOf(lines: set<Line>, p: Json): set<Line> {
    set r | r in lines && Producer(r) == p && !IsMarker(r)
  }

  function MarkersOf(lines: set<Line>, p: Json): set<Line> {
    set r | r in lines && Producer(r) == p && IsMarker(r)
  }

  function Producers(lines: set<Line>): set<Json> {
    set r | r in lines :: Producer(r)
  }

  predicate InOrder(s: seq<Line>) {
    forall i | 0 <= i < |s| :: Numbered(s[i]) && Number(s[i]) == i + 1
  }

  /** The marker claims completion, its digest is over records numbered 1, 2, ... up
      to the accepted count, and records are exactly those. */
  predicate Certifies(m: Line, records: set<Line>) {
    && Get(m, CompleteKey) == Bool(true) && Get(m, DroppedKey) == Int(0) && Get(m, UploadErrorsKey) == Int(0)
    && Get(m, AcceptedKey).Int? && Get(m, UploadedKey) == m[AcceptedKey]
    && Get(m, Sha256Key).Sha?
    && var s := m[Sha256Key].lines;
      && |s| == (if m[AcceptedKey].n < 0 then 0 else m[AcceptedKey].n)
      && InOrder(s) && records == set r | r in s
  }

  predicate ProducerComplete(lines: set<Line>, p: Json, requireBoot: bool) {
    && (exists m | m in MarkersOf(lines, p) :: Certifies(m, RecordsOf(lines, p)))
    && (requireBoot ==> BootCovered(RecordsOf(lines, p)))
  }

  /** What a caller expects: exactly these instances, by five of the identity keys. */
  const ExpectedKeys: set<Key> := {InstanceIdKey, GenerationKey, RequestIdKey, SourceCommitKey, DaemonSha256Key}

  function Summary(r: Line): Line {
    map k | k in ExpectedKeys :: Get(r, k)
  }

  function Summaries(lines: set<Line>): set<Line> {
    set r | r in lines :: Summary(r)
  }

  predicate AsExpected(lines: set<Line>, expected: seq<Line>) {
    && (forall e | e in expected :: ExpectedKeys <= e.Keys)
    && Summaries(lines) == set e | e in expected :: Summary(e)
  }

  predicate AllComplete(lines: set<Line>, requireBoot: bool) {
    forall p | p in Producers(lines) :: ProducerComplete(lines, p, requireBoot)
  }

  predicate Acceptable(lines: set<Line>, requireBoot: bool, expected: Option<seq<Line>>) {
    && lines != {} && Consistent(lines)
    && AllComplete(lines, requireBoot)
    && (expected.Some? ==> AsExpected(lines, expected.value))
  }

  // ----- The check itself -----

  datatype Failure =
    | MissingTimingCorrelation | MissingProducer | MixedTimingIdentity | ConflictingCompletion
    | InvalidRecordIdentity | ConflictingDuplicate | NoTimingRecords | IncompleteTimingCollection
    | MissingTimingRecords | CorruptTimingDigest | MissingBootPhase | MissingVerifierRecords
    | MissingOrUnexpectedTimingInstance

  datatype Result = Complete(producers: nat, records: nat) | Rejected(failure: Failure)

  /** One producer's dictionary entry. */
  datatype Entry = Entry(records: map<int, Line>, marker: Option<Line>, identity: Line)

  /** The entry holds exactly what the lines say of producer p. */
  predicate Describes(entry: Entry, lines: set<Line>, p: Json) {
    && (forall r | r in lines && Producer(r) == p ::
          && Identity(r) == entry.identity
          && (IsMarker(r) ==> entry.marker == Some(r))
          && (!IsMarker(r) ==> Numbered(r) && Number(r) in entry.records && entry.records[Number(r)] == r))
    && (entry.marker.Some? ==> entry.marker.value in MarkersOf(lines, p))
    && (forall n | n in entry.records ::
          entry.records[n] in RecordsOf(lines, p) && Numbered(entry.records[n]) && Number(entry.records[n]) == n)
  }

  predicate Collected(producers: map<Json, Entry>, lines: set<Line>) {
    && producers.Keys == Producers(lines)
    && forall p | p in producers :: Describes(producers[p], lines, p)
  }

  lemma CollectedIsConsistent(producers: map<Json, Entry>, lines: set<Line>)
    requires Collected(producers, lines) && forall r | r in lines :: WellFormed(r)
    ensures Consistent(lines)
  {
    forall r, q | r in lines && q in lines ensures Agree(r, q) {
      if Producer(r) == Producer(q) { assert Describes(producers[Producer(r)], lines, Producer(r)); }
    }
  }

  /** What the loop adds for one more line, or why it stops there. */
  function Added(producers: map<Json, Entry>, r: Line): (Option<Failure>, map<Json, Entry>) {
    var p := Producer(r);
    if !Correlated(r) then (Some(MissingTimingCorrelation), producers)
    else if !Truthy(p) || !Hashable(p) then (Some(MissingProducer), producers)
    else
      var entry := if p in producers then producers[p] else Entry(map[], None, Identity(r));
      if Identity(r) != entry.identity then (Some(MixedTimingIdentity), producers)
      else if IsMarker(r) then
        if entry.marker.Some? && entry.marker.value != r then (Some(ConflictingCompletion), producers)
        else (None, producers[p := entry.(marker := Some(r))])
      else if !Numbered(r) then (Some(InvalidRecordIdentity), producers)
      else if Number(r) in entry.records && entry.records[Number(r)] != r then (Some(ConflictingDuplicate), producers)
      else (None, producers[p := entry.(records := entry.records[Number(r) := r])])
  }

  lemma MarkerGained(entry: Entry, lines: set<Line>, p: Json, r: Line)
    requires Describes(entry, lines, p) && WellFormed(r) && Producer(r) == p && Identity(r) == entry.identity
    requires IsMarker(r) && (entry.marker.None? || entry.marker.value == r)
    ensures Describes(entry.(marker := Some(r)), lines + {r}, p)
  {
  }

  lemma RecordGained(entry: Entry, lines: set<Line>, p: Json, r: Line)
    requires Describes(entry, lines, p) && WellFormed(r) && Producer(r) == p && Identity(r) == entry.identity
    requires !IsMarker(r) && (Number(r) in entry.records ==> entry.records[Number(r)] == r)
    ensures Describes(entry.(records := entry.records[Number(r) := r]), lines + {r}, p)
  {
  }

  lemma OtherEntryStays(entry: Entry, lines: set<Line>, p: Json, r: Line)
    requires Describes(entry, lines, p) && Producer(r) != p
    ensures Describes(entry, lines + {r}, p)
  {
  }

  predicate Sized(producers: map<Json, Entry>, lines: set<Line>) {
    forall p | p in producers :: |producers[p].records| == |RecordsOf(lines, p)|
  }

  lemma KnownByNumber(entry: Entry, lines: set<Line>, p: Json, r: Line)
    requires Describes(entry, lines, p) && Numbered(r) && !IsMarker(r) && Producer(r) == p
    requires Number(r) in entry.records ==> entry.records[Number(r)] == r
    ensures r in RecordsOf(lines, p) <==> Number(r) in entry.records
    ensures RecordsOf(lines + {r}, p) == RecordsOf(lines, p) + {r}
  {
  }

  lemma BothGrow(records: map<int, Line>, n: int, before: set<Line>, r: Line)
    requires |records| == |before| && (n in records <==> r in before)
    ensures |records[n := r]| == |before + {r}|
  {
    if r in before { assert before + {r} == before; }
  }

  lemma RecordAddsOne(entry: Entry, lines: set<Line>, p: Json, r: Line)
    requires Describes(entry, lines, p) && |entry.records| == |RecordsOf(lines, p)|
    requires Numbered(r) && !IsMarker(r) && Producer(r) == p
    requires Number(r) in entry.records ==> entry.records[Number(r)] == r
    ensures |entry.records[Number(r) := r]| == |RecordsOf(lines + {r}, p)|
  {
    KnownByNumber(entry, lines, p, r);
    BothGrow(entry.records, Number(r), RecordsOf(lines, p), r);
  }

  lemma OthersStaySized(producers: map<Json, Entry>, lines: set<Line>, r: Line, q: Json)
    requires Sized(producers, lines) && q in producers && (q != Producer(r) || IsMarker(r))
    ensures |producers[q].records| == |RecordsOf(lines + {r}, q)|
  {
    assert RecordsOf(lines + {r}, q) == RecordsOf(lines, q);
  }

  lemma MarkerAddsNone(lines: set<Line>, r: Line, p: Json)
    requires IsMarker(r)
    ensures RecordsOf(lines + {r}, p) == RecordsOf(lines, p)
  {
  }

  lemma AddedStaysSized(producers: map<Json, Entry>, lines: set<Line>, r: Line)
    requires Collected(producers, lines) && Sized(producers, lines) && Added(producers, r).0.None?
    ensures Sized(Added(producers, r).1, lines + {r})
  {
    var p, producers1 := Producer(r), Added(producers, r).1;
    var entry := if p in producers then producers[p] else Entry(map[], None, Identity(r));
    NewEntry(producers, lines, p, entry);
    if IsMarker(r) { MarkerAddsNone(lines, r, p); } else { RecordAddsOne(entry, lines, p, r); }
    forall q | q in producers1 ensures |producers1[q].records| == |RecordsOf(lines + {r}, q)| {
      if q != p { OthersStaySized(producers, lines, r, q); }
    }
  }

  lemma NewEntry(producers: map<Json, Entry>, lines: set<Line>, p: Json, entry: Entry)
    requires Collected(producers, lines) && Sized(producers, lines)
    requires if p in producers then entry == producers[p] else entry.records == map[] && entry.marker.None?
    ensures Describes(entry, lines, p) && |entry.records| == |RecordsOf(lines, p)|
  {
    if p !in producers { assert RecordsOf(lines, p) == {}; }
  }

  lemma EntryGains(entry: Entry, lines: set<Line>, p: Json, r: Line, entry1: Entry)
    requires Describes(entry, lines, p) && WellFormed(r) && Producer(r) == p && Identity(r) == entry.identity
    requires IsMarker(r) ==>
      (entry.marker.None? || entry.marker.value == r) && entry1 == entry.(marker := Some(r))
    requires !IsMarker(r) ==>
      && (Number(r) in entry.records ==> entry.records[Number(r)] == r)
      && entry1 == entry.(records := entry.records[Number(r) := r])
    ensures Describes(entry1, lines + {r}, p)
  {
    if IsMarker(r) { MarkerGained(entry, lines, p, r); } else { RecordGained(entry, lines, p, r); }
  }

  lemma AddedStays(producers: map<Json, Entry>, lines: set<Line>, r: Line)
    requires Collected(producers, lines) && Consistent(lines) && Added(producers, r).0.None?
    ensures Collected(Added(producers, r).1, lines + {r}) && Consistent(lines + {r})
  {
    var p, producers1 := Producer(r), Added(producers, r).1;
    var entry := if p in producers then producers[p] else Entry(map[], None, Identity(r));
    assert Describes(entry, lines, p);
    EntryGains(entry, lines, p, r, producers1[p]);
    EntriesStay(producers, lines, r, producers1[p]);
    assert producers1 == producers[p := producers1[p]];
    CollectedIsConsistent(producers1, lines + {r});
  }

  lemma EntriesStay(producers: map<Json, Entry>, lines: set<Line>, r: Line, entry: Entry)
    requires Collected(producers, lines) && Describes(entry, lines + {r}, Producer(r))
    ensures Collected(producers[Producer(r) := entry], lines + {r})
  {
    var p := Producer(r);
    forall q | q in producers && q != p ensures Describes(producers[q], lines + {r}, q) {
      OtherEntryStays(producers[q], lines, q, r);
    }
    assert Producers(lines + {r}) == Producers(lines) + {p};
  }

  /** A line is added exactly when the lines so far stay consistent with it. */
  lemma AddedIsExact(producers: map<Json, Entry>, lines: set<Line>, r: Line)
    requires Collected(producers, lines) && Consistent(lines)
    ensures var (failure, producers1) := Added(producers, r);
      && (failure.None? ==> Collected(producers1, lines + {r}) && Consistent(lines + {r}))
      && (failure.Some? ==> !Consistent(lines + {r}))
  {
    if Added(producers, r).0.None? {
      AddedStays(producers, lines, r);
    } else if WellFormed(r) {
      AddingConflicts(producers[Producer(r)], lines, r);
    } else {
      assert r in lines + {r};
    }
  }

  lemma AddingConflicts(entry: Entry, lines: set<Line>, r: Line)
    requires WellFormed(r) && Describes(entry, lines, Producer(r)) && Producer(r) in Producers(lines)
    requires Identity(r) != entry.identity
             || (IsMarker(r) && entry.marker.Some? && entry.marker.value != r)
             || (!IsMarker(r) && Number(r) in entry.records && entry.records[Number(r)] != r)
    ensures !Consistent(lines + {r})
  {
    var q :| q in lines && Producer(q) == Producer(r);
    var d := if Identity(r) != entry.identity then q
      else if IsMarker(r) then entry.marker.value else entry.records[Number(r)];
    assert d in lines && Producer(d) == Producer(r);
    assert r in lines + {r} && d in lines + {r};
    assert !Agree(r, d);
  }

  function Distinct(records: seq<Line>): set<Line> {
    set r | r in records
  }

  lemma SomeInconsistent(some: set<Line>, all: set<Line>)
    requires some <= all && !Consistent(some)
    ensures !Consistent(all)
  {
  }

  predicate NoRepeats(order: seq<Json>) {
    forall i, j | 0 <= i < j < |order| :: order[i] != order[j]
  }

  /** The body of the loop over the lines. */
  method AddLine(producers: map<Json, Entry>, order: seq<Json>, r: Line)
    returns (failure: Option<Failure>, producers1: map<Json, Entry>, order1: seq<Json>)
    requires NoRepeats(order) && forall p {:trigger p in order} :: p in order <==> p in producers
    ensures failure == Added(producers, r).0 && NoRepeats(order1)
    ensures failure.None? ==> producers1 == Added(producers, r).1
    ensures forall p {:trigger p in order1} :: p in order1 <==> p in producers1
  {
    failure, producers1, order1 := None, producers, order;
    if !Correlated(r) {
      return Some(MissingTimingCorrelation), producers1, order1;
    }
    var p := Producer(r);
    if !Truthy(p) || !Hashable(p) {
      return Some(MissingProducer), producers1, order1;
    }
    if p !in producers1 {
      assert p !in order;
      producers1 := producers1[p := Entry(map[], None, Identity(r))];
      order1 := order1 + [p];
    }
    var entry := producers1[p];
    if Identity(r) != entry.identity {
      return Some(MixedTimingIdentity), producers1, order1;
    }
    if IsMarker(r) {
      if entry.marker.Some? && entry.marker.value != r {
        return Some(ConflictingCompletion), producers1, order1;
      }
      producers1 := producers1[p := entry.(marker := Some(r))];
      return;
    }
    if !Numbered(r) {
      return Some(InvalidRecordIdentity), producers1, order1;
    }
    if Number(r) in entry.records && entry.records[Number(r)] != r {
      return Some(ConflictingDuplicate), producers1, order1;
    }
    producers1 := producers1[p := entry.(records := entry.records[Number(r) := r])];
  }

  method Collect(records: seq<Line>) returns (failure: Option<Failure>, producers: map<Json, Entry>, order: seq<Json>)
    ensures failure.None? <==> Consistent(Distinct(records))
    ensures failure.None? ==> Collected(producers, Distinct(records)) && Sized(producers, Distinct(records))
    ensures NoRepeats(order) && forall p {:trigger p in order} :: p in order <==> p in producers
  {
    failure, producers, order := None, map[], [];
    var i := 0;
    while i < |records|
      invariant 0 <= i <= |records| && failure.None?
      invariant Collected(producers, Distinct(records[..i])) && Consistent(Distinct(records[..i]))
      invariant Sized(producers, Distinct(records[..i]))
      invariant NoRepeats(order) && forall p {:trigger p in order} :: p in order <==> p in producers
    {
      AddedIsExact(producers, Distinct(records[..i]), records[i]);
      if Added(producers, records[i]).0.None? { AddedStaysSized(producers, Distinct(records[..i]), records[i]); }
      assert Distinct(records[..i]) + {records[i]} == Distinct(records[..i + 1]);
      failure, producers, order := AddLine(producers, order, records[i]);
      if failure.Some? {
        SomeInconsistent(Distinct(records[..i + 1]), Distinct(records));
        return;
      }
      i := i + 1;
    }
    assert records[..|records|] == records;
  }

  // ----- One producer's entry -----

  /** sorted(records) when the record numbers are 1 to n. */
  function Listed(records: map<int, Line>, n: nat): seq<Line>
    requires forall k | 1 <= k <= n :: k in records
  {
    if n == 0 then [] else Listed(records, n - 1) + [records[n]]
  }

  lemma {:induction false} ListedAt(records: map<int, Line>, n: nat, i: nat)
    requires (forall k | 1 <= k <= n :: k in records) && i < n
    ensures |Listed(records, n)| == n && Listed(records, n)[i] == records[i + 1]
  {
    ListedLength(records, n);
    ListedLength(records, n - 1);
    if i < n - 1 { ListedAt(records, n - 1, i); }
  }

  lemma {:induction false} ListedLength(records: map<int, Line>, n: nat)
    requires forall k | 1 <= k <= n :: k in records
    ensures |Listed(records, n)| == n
  {
    if n > 0 { ListedLength(records, n - 1); }
  }

  predicate Counted(records: map<int, Line>, accepted: int) {
    (forall n | n in records :: 1 <= n <= accepted) && forall n | 1 <= n <= accepted :: n in records
  }

  /** The marker's own checks are the certificate: the numbers are 1 to accepted and
      the digest is over the records in that order. */
  lemma CertifiedBy(entry: Entry, lines: set<Line>, p: Json, m: Line)
    requires Describes(entry, lines, p)
    requires Get(m, CompleteKey) == Bool(true) && Get(m, DroppedKey) == Int(0) && Get(m, UploadErrorsKey) == Int(0)
    requires Get(m, AcceptedKey).Int? && Get(m, UploadedKey) == m[AcceptedKey]
    ensures Certifies(m, RecordsOf(lines, p)) <==>
              Counted(entry.records, m[AcceptedKey].n)
              && Get(m, Sha256Key) == Sha(Listed(entry.records, if m[AcceptedKey].n < 0 then 0 else m[AcceptedKey].n))
  {
    var n := if m[AcceptedKey].n < 0 then 0 else m[AcceptedKey].n;
    var records := RecordsOf(lines, p);
    if Certifies(m, records) {
      var s := m[Sha256Key].lines;
      CertifiedCounts(entry, lines, p, s, n);
      ListedLength(entry.records, n);
      forall i | 0 <= i < n ensures s[i] == Listed(entry.records, n)[i] {
        ListedAt(entry.records, n, i);
        assert s[i] in records;
      }
      assert s == Listed(entry.records, n);
    } else if Counted(entry.records, m[AcceptedKey].n) {
      ListedCertifies(entry, lines, p, n);
    }
  }

  lemma CertifiedCounts(entry: Entry, lines: set<Line>, p: Json, s: seq<Line>, n: nat)
    requires Describes(entry, lines, p) && |s| == n && InOrder(s) && RecordsOf(lines, p) == set r | r in s
    ensures Counted(entry.records, n)
  {
    forall k | k in entry.records ensures 1 <= k <= n {
      assert entry.records[k] in s;
    }
    forall k | 1 <= k <= n ensures k in entry.records {
      assert s[k - 1] in RecordsOf(lines, p);
    }
  }

  lemma ListedCertifies(entry: Entry, lines: set<Line>, p: Json, n: nat)
    requires Describes(entry, lines, p) && Counted(entry.records, n)
    ensures var s := Listed(entry.records, n); |s| == n && InOrder(s) && RecordsOf(lines, p) == set r | r in s
  {
    var s := Listed(entry.records, n);
    ListedLength(entry.records, n);
    forall i | 0 <= i < n ensures s[i] == entry.records[i + 1] {
      ListedAt(entry.records, n, i);
    }
    forall r | r in RecordsOf(lines, p) ensures r in s {
      assert s[Number(r) - 1] == r;
    }
  }

  function Values(records: map<int, Line>): set<Line> {
    set n | n in records :: records[n]
  }

  lemma ValuesAreRecords(entry: Entry, lines: set<Line>, p: Json)
    requires Describes(entry, lines, p)
    ensures Values(entry.records) == RecordsOf(lines, p)
  {
    forall r | r in RecordsOf(lines, p) ensures r in Values(entry.records) {
      assert entry.records[Number(r)] == r;
    }
  }

  lemma OnlyItsMarker(entry: Entry, lines: set<Line>, p: Json)
    requires Describes(entry, lines, p)
    ensures MarkersOf(lines, p) == if entry.marker.Some? then {entry.marker.value} else {}
  {
  }

  method HasPhase(records: set<Line>, phase: string) returns (found: bool)
    ensures found <==> PhaseShown(records, phase)
  {
    var phases := set r | r in records && Get(r, EventKey) == Str("boot_timing") :: Get(r, PhaseKey);
    found := Str(phase) in phases;
  }

  method HasContexts(records: set<Line>) returns (found: bool)
    ensures found <==> !VerifiedIn(records, Compound) && VerifiedIn(records, Str("user_data"))
                       && VerifiedIn(records, Str("service_pre"))
  {
    var contexts := set r | r in records && VerifiesImage(r) :: Get(r, BootContextKey);
    assert forall v :: v in contexts <==> VerifiedIn(records, v);
    found := Compound !in contexts && {Str("user_data"), Str("service_pre")} <= contexts;
  }

  method CheckBoot(records: set<Line>) returns (failure: Option<Failure>)
    ensures failure.None? <==> BootCovered(records)
  {
    var todo := BootPhases;
    while todo != {}
      invariant todo <= BootPhases
      invariant forall phase | phase in BootPhases && phase !in todo :: PhaseShown(records, phase)
    {
      var phase :| phase in todo;
      var found := HasPhase(records, phase);
      if !found { return Some(MissingBootPhase); }
      todo := todo - {phase};
    }
    var found := HasContexts(records);
    failure := if found then None else Some(MissingVerifierRecords);
  }

  lemma CompleteIff(entry: Entry, lines: set<Line>, p: Json, requireBoot: bool)
    requires Describes(entry, lines, p)
    ensures ProducerComplete(lines, p, requireBoot) <==>
              entry.marker.Some? && Certifies(entry.marker.value, RecordsOf(lines, p))
              && (requireBoot ==> BootCovered(Values(entry.records)))
  {
    OnlyItsMarker(entry, lines, p);
    ValuesAreRecords(entry, lines, p);
  }

  /** One producer's marker against its records: the claims, the numbers, the digest. */
  method CheckMarker(entry: Entry, m: Line, ghost lines: set<Line>, ghost p: Json) returns (failure: Option<Failure>)
    requires Describes(entry, lines, p)
    ensures failure.None? <==> Certifies(m, RecordsOf(lines, p))
  {
    if Get(m, CompleteKey) != Bool(true) || Get(m, DroppedKey) != Int(0) || Get(m, UploadErrorsKey) != Int(0) {
      return Some(IncompleteTimingCollection);
    }
    if !Get(m, AcceptedKey).Int? || Get(m, AcceptedKey) != Get(m, UploadedKey) {
      return Some(MissingTimingRecords);
    }
    CertifiedBy(entry, lines, p, m);
    var accepted := m[AcceptedKey].n;
    if !Counted(entry.records, accepted) {
      return Some(MissingTimingRecords);
    }
    var hashed := HashRecords(entry.records, if accepted < 0 then 0 else accepted);
    failure := if Get(m, Sha256Key) == Sha(hashed) then None else Some(CorruptTimingDigest);
  }

  /** The running hash over the records in the order of their numbers. */
  method HashRecords(records: map<int, Line>, accepted: nat) returns (hashed: seq<Line>)
    requires forall k | 1 <= k <= accepted :: k in records
    ensures hashed == Listed(records, accepted)
  {
    hashed := [];
    for n := 0 to accepted
      invariant hashed == Listed(records, n)
    {
      hashed := hashed + [records[n + 1]];
    }
  }

  method CheckEntry(entry: Entry, requireBoot: bool, ghost lines: set<Line>, ghost p: Json)
    returns (failure: Option<Failure>)
    requires Describes(entry, lines, p)
    ensures failure.None? <==> ProducerComplete(lines, p, requireBoot)
  {
    CompleteIff(entry, lines, p, requireBoot);
    if entry.marker.None? {
      return Some(IncompleteTimingCollection);
    }
    failure := CheckMarker(entry, entry.marker.value, lines, p);
    if failure.None? && requireBoot {
      failure := CheckBoot(Values(entry.records));
    }
  }

  /** The record lines, and those of some of the producers. */
  function RecordLines(lines: set<Line>): set<Line> {
    set r | r in lines && !IsMarker(r)
  }

  function RecordsIn(lines: set<Line>, order: seq<Json>): set<Line> {
    set r | r in lines && !IsMarker(r) && Producer(r) in order
  }

  lemma OneMoreProducer(producers: map<Json, Entry>, lines: set<Line>, order: seq<Json>, p: Json)
    requires Sized(producers, lines) && p in producers && p !in order
    ensures |RecordsIn(lines, order + [p])| == |RecordsIn(lines, order)| + |producers[p].records|
  {
    SplitRecords(lines, order, p);
  }

  lemma SplitRecords(lines: set<Line>, order: seq<Json>, p: Json)
    requires p !in order
    ensures RecordsIn(lines, order + [p]) == RecordsIn(lines, order) + RecordsOf(lines, p)
    ensures RecordsIn(lines, order) !! RecordsOf(lines, p)
  {
  }

  /** The loop over the producers. */
  method CheckAll(producers: map<Json, Entry>, order: seq<Json>, requireBoot: bool, ghost lines: set<Line>)
    returns (failure: Option<Failure>)
    requires Collected(producers, lines)
    requires forall p {:trigger p in order} :: p in order <==> p in producers
    ensures failure.None? <==> AllComplete(lines, requireBoot)
  {
    failure := None;
    for i := 0 to |order|
      invariant failure.None? && CompleteUpTo(lines, order, i, requireBoot)
    {
      var p := order[i];
      assert p in order && p in Producers(lines);
      failure := CheckEntry(producers[p], requireBoot, lines, p);
      if failure.Some? { return; }
    }
    AllInOrder(producers, order, requireBoot, lines);
  }

  /** The records of all producers together. */
  method CountRecords(producers: map<Json, Entry>, order: seq<Json>, ghost lines: set<Line>) returns (count: nat)
    requires Sized(producers, lines) && NoRepeats(order) && producers.Keys == Producers(lines)
    requires forall p {:trigger p in order} :: p in order <==> p in producers
    ensures count == |RecordLines(lines)|
  {
    count := 0;
    assert RecordsIn(lines, []) == {};
    for i := 0 to |order|
      invariant count == |RecordsIn(lines, order[..i])|
    {
      assert order[i] in order && order[i] !in order[..i];
      OneMoreProducer(producers, lines, order[..i], order[i]);
      assert order[..i + 1] == order[..i] + [order[i]];
      count := count + |producers[order[i]].records|;
    }
    AllRecordsIn(producers, order, lines);
  }

  lemma AllRecordsIn(producers: map<Json, Entry>, order: seq<Json>, lines: set<Line>)
    requires producers.Keys == Producers(lines)
    requires forall p {:trigger p in order} :: p in order <==> p in producers
    ensures RecordsIn(lines, order[..|order|]) == RecordLines(lines)
  {
    assert order[..|order|] == order;
    assert forall r | r in lines :: Producer(r) in producers && Producer(r) in order;
  }

  predicate CompleteUpTo(lines: set<Line>, order: seq<Json>, i: nat, requireBoot: bool)
    requires i <= |order|
  {
    forall k | 0 <= k < i :: ProducerComplete(lines, order[k], requireBoot)
  }

  lemma AllInOrder(producers: map<Json, Entry>, order: seq<Json>, requireBoot: bool, lines: set<Line>)
    requires producers.Keys == Producers(lines)
    requires forall p {:trigger p in order} :: p in order <==> p in producers
    requires CompleteUpTo(lines, order, |order|, requireBoot)
    ensures AllComplete(lines, requireBoot)
  {
    forall p | p in Producers(lines) ensures ProducerComplete(lines, p, requireBoot) {
      assert p in producers && p in order;
    }
  }

  method CheckExpected(producers: map<Json, Entry>, expected: seq<Line>, ghost lines: set<Line>)
    returns (met: bool)
    requires Collected(producers, lines)
    ensures met <==> AsExpected(lines, expected)
  {
    var wanted := set e | e in expected :: Summary(e);
    ActualInstances(producers, lines);
    met := (forall e | e in expected :: ExpectedKeys <= e.Keys) && Actual(producers) == wanted;
  }

  /** The collection is accepted exactly when the set of its lines is complete: the
      order of the lines and exact duplicates make no difference. */
  method Validate(records: seq<Line>, requireBoot: bool, expected: Option<seq<Line>>) returns (result: Result)
    ensures result.Complete? <==> Acceptable(Distinct(records), requireBoot, expected)
    ensures result.Complete? ==>
      result.producers == |Producers(Distinct(records))| && result.records == |RecordLines(Distinct(records))|
  {
    var failure, producers, order := Collect(records);
    if failure.Some? { return Rejected(failure.value); }
    if order == [] {
      EmptyCollection(producers, order, records);
      return Rejected(NoTimingRecords);
    }
    assert order[0] in order && order[0] in Producers(Distinct(records));
    failure := CheckAll(producers, order, requireBoot, Distinct(records));
    if failure.Some? { return Rejected(failure.value); }
    if expected.Some? {
      var met := CheckExpected(producers, expected.value, Distinct(records));
      if !met { return Rejected(MissingOrUnexpectedTimingInstance); }
    }
    assert producers.Keys == Producers(Distinct(records));
    var count := CountRecords(producers, order, Distinct(records));
    result := Complete(|producers.Keys|, count);
  }

  lemma EmptyCollection(producers: map<Json, Entry>, order: seq<Json>, records: seq<Line>)
    requires Collected(producers, Distinct(records)) && order == []
    requires forall p {:trigger p in order} :: p in order <==> p in producers
    ensures Distinct(records) == {}
  {
    forall p ensures p !in producers { assert p !in order; }
    assert forall r | r in Distinct(records) :: Producer(r) in Producers(Distinct(records));
  }

  function Actual(producers: map<Json, Entry>): set<Line> {
    set p | p in producers :: Summary(producers[p].identity)
  }

  lemma ActualIsSeen(producers: map<Json, Entry>, lines: set<Line>, p: Json)
    requires Collected(producers, lines) && p in producers
    ensures Summary(producers[p].identity) in Summaries(lines)
  {
    assert p in Producers(lines);
    var r :| r in lines && Producer(r) == p;
    LineSummary(producers, lines, r);
    assert Summary(r) in Summaries(lines);
  }

  lemma SeenIsActual(producers: map<Json, Entry>, lines: set<Line>, r: Line)
    requires Collected(producers, lines) && r in lines
    ensures Summary(r) in Actual(producers)
  {
    LineSummary(producers, lines, r);
  }

  lemma ActualInstances(producers: map<Json, Entry>, lines: set<Line>)
    requires Collected(producers, lines)
    ensures Actual(producers) == Summaries(lines)
  {
    forall p | p in producers ensures Summary(producers[p].identity) in Summaries(lines) {
      ActualIsSeen(producers, lines, p);
    }
    forall r | r in lines ensures Summary(r) in Actual(producers) {
      SeenIsActual(producers, lines, r);
    }
  }

  lemma LineSummary(producers: map<Json, Entry>, lines: set<Line>, r: Line)
    requires Collected(producers, lines) && r in lines
    ensures Producer(r) in producers && Summary(producers[Producer(r)].identity) == Summary(r)
  {
    assert Describes(producers[Producer(r)], lines, Producer(r));
    assert forall k | k in ExpectedKeys :: k in IdentityKeys;
  }
}
