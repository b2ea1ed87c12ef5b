/** The integrity verifier: one pass over the rows of each table, adding findings to a
    report. Each check is proved against the findings a single row deserves, and each of
    those against a plain statement of when the row passes. */
module Integrity {
  import opened Types

  datatype Severity = Info | Warning | Violation

  datatype Code =
    | StaleEventLease | OrderingFieldsPartial | OrderingPartitionMismatch | ActiveSequenceBehindCursor
    | StreamCursorInvalid | StreamPartitionMismatch | ExpectedSequenceDuplicate
    | StreamRetryWait | StreamGap | StreamDeadBlocked
    | PartitionIdInvalid | PartitionEpochInvalid | PartitionLeaseShapeInvalid | PartitionOwnerStale
    | PartitionHandoffOverdue | PartitionCountInvalid
    | InboxRetryWait | InboxDeadBlocked | InboxStateInvalid | InboxAttemptsInvalid | InboxLeaseShapeInvalid
    | InboxStaleLease | InboxProcessedTimestampInvalid | InboxSourceMetadataInvalid

  datatype Finding = Finding(code: Code, severity: Severity)

  /** The text of a status column; anything the lifecycle does not know is Other. */
  datatype StatusText = Pending | Inflight | Delivered | RetryWaiting | Processed | Dead | Other

  // ---------------------------------------------------------------- the report

  datatype Tally = Tally(infos: nat, warnings: nat, violations: nat)

  function Counted(t: Tally, f: Finding): Tally {
    match f.severity
    case Info => t.(infos := t.infos + 1)
    case Warning => t.(warnings := t.warnings + 1)
    case Violation => t.(violations := t.violations + 1)
  }

  function TallyOf(fs: seq<Finding>): Tally {
    if fs == [] then Tally(0, 0, 0) else Counted(TallyOf(fs[..|fs| - 1]), fs[|fs| - 1])
  }

  predicate NoViolations(fs: seq<Finding>) {
    forall i :: 0 <= i < |fs| ==> fs[i].severity != Violation
  }

  lemma {:induction false} NoneCounted(fs: seq<Finding>)
    ensures TallyOf(fs).violations == 0 <==> NoViolations(fs)
  {
    if fs != [] {
      NoneCounted(fs[..|fs| - 1]);
      assert fs == fs[..|fs| - 1] + [fs[|fs| - 1]];
    }
  }

  datatype Result = Clean | Warnings | Violations

  datatype Report = Report(result: Result, clean: bool, summary: Tally, findings: seq<Finding>, truncated: bool)

  function ExitCode(report: Report, strict: bool): int {
    if report.summary.violations > 0 || (strict && report.summary.warnings > 0) then 2 else 0
  }

  class Accumulator {
    const maxFindings: nat
    var tally: Tally
    var findings: seq<Finding>
    var truncated: bool
    ghost var all: seq<Finding>

    constructor (maxFindings: nat)
      ensures Valid() && all == [] && this.maxFindings == maxFindings
    {
      this.maxFindings := maxFindings;
      tally, findings, truncated, all := Tally(0, 0, 0), [], false, [];
    }

    /** The counts cover every finding ever added; the list keeps the first ones only. */
    ghost predicate Valid()
      reads this
    {
      tally == TallyOf(all) && findings == all[..Min(maxFindings, |all|)] && (truncated <==> |all| > maxFindings)
    }

    method Add(f: Finding)
      requires Valid()
      modifies this
      ensures Valid() && all == old(all) + [f]
    {
      match f.severity {
        case Info => tally := tally.(infos := tally.infos + 1);
        case Warning => tally := tally.(warnings := tally.warnings + 1);
        case Violation => tally := tally.(violations := tally.violations + 1);
      }
      if |findings| < maxFindings { findings := findings + [f]; } else { truncated := true; }
      ghost var before := all;
      all := all + [f];
      assert all[..|all| - 1] == before;
    }

    method AddIf(condition: bool, f: Finding)
      requires Valid()
      modifies this
      ensures Valid() && all == Noted(old(all), condition, f)
    {
      if condition { Add(f); }
    }

    /** A report is clean exactly when no violation was ever added, truncated or not. */
    method Finish() returns (report: Report)
      requires Valid()
      ensures report.summary == TallyOf(all)
      ensures report.clean <==> NoViolations(all)
      ensures report.findings == all[..Min(maxFindings, |all|)] && (report.truncated <==> |all| > maxFindings)
      ensures report.result
           == if !NoViolations(all) then Violations else if TallyOf(all).warnings > 0 then Warnings else Clean
      ensures ExitCode(report, false) == if NoViolations(all) then 0 else 2
      ensures ExitCode(report, true) == if NoViolations(all) && TallyOf(all).warnings == 0 then 0 else 2
    {
      NoneCounted(all);
      var result := if tally.violations > 0 then Violations else if tally.warnings > 0 then Warnings else Clean;
      report := Report(result, tally.violations == 0, tally, findings, truncated);
    }
  }

  function V(code: Code): Finding { Finding(code, Violation) }

  function W(code: Code): Finding { Finding(code, Warning) }

  /** A report with one more finding if the condition holds. */
  function Noted(all: seq<Finding>, condition: bool, f: Finding): (r: seq<Finding>)
    ensures NoViolations(r) <==> NoViolations(all) && (!condition || f.severity != Violation)
  {
    assert NoViolations(all + [f]) ==> forall i :: 0 <= i < |all| ==> (all + [f])[i] == all[i];
    assert (all + [f])[|all|] == f;
    if condition then all + [f] else all
  }

  // ---------------------------------------------------------------- events

  datatype EventRow = EventRow(destination: string, status: StatusText, leaseUntil: Option<Time>, key: Option<string>,
                               sequence: Option<int>, partition: Option<int>, next: Option<int>)

  function Given<T>(field: Option<T>): nat {
    if field.Some? then 1 else 0
  }

  predicate PartialFields(row: EventRow) {
    var fields := Given(row.key) + Given(row.sequence) + Given(row.partition);
    || (fields != 0 && fields != 3)
    || (row.key.Some? && Blank(row.key.value))
    || (row.sequence.Some? && row.sequence.value <= 0)
  }

  predicate IsActive(status: StatusText) {
    status == Pending || status == Inflight || status == Dead
  }

  /** The report after one more row. */
  function EventNoted(part: StreamKey -> nat, now: Time, all: seq<Finding>, row: EventRow): seq<Finding> {
    var a := Noted(all, row.status == Inflight && row.leaseUntil.Some? && row.leaseUntil.value <= now,
      W(StaleEventLease));
    if PartialFields(row) then Noted(a, true, V(OrderingFieldsPartial))
    else if row.key.None? then a
    else
      var b := Noted(a, row.partition.value != part(StreamKey(row.destination, row.key.value)),
        V(OrderingPartitionMismatch));
      if IsActive(row.status) && row.next.None? then Noted(b, true, V(StreamCursorInvalid))
      else if IsActive(row.status) then Noted(b, row.sequence.value < row.next.value, V(ActiveSequenceBehindCursor))
      else Noted(b, row.status == Delivered && row.next.Some? && row.sequence.value >= row.next.value,
        V(StreamCursorInvalid))
  }

  function EventsNoted(part: StreamKey -> nat, now: Time, all: seq<Finding>, rows: seq<EventRow>): seq<Finding> {
    if rows == [] then all else EventNoted(part, now, EventsNoted(part, now, all, rows[..|rows| - 1]), rows[|rows| - 1])
  }

  method CheckEvent(part: StreamKey -> nat, now: Time, row: EventRow, acc: Accumulator)
    requires acc.Valid()
    modifies acc
    ensures acc.Valid() && acc.all == EventNoted(part, now, old(acc.all), row)
  {
    if row.status == Inflight && row.leaseUntil.Some? && row.leaseUntil.value <= now { acc.Add(W(StaleEventLease)); }
    if PartialFields(row) {
      acc.Add(V(OrderingFieldsPartial));
      return;
    }
    if row.key.None? { return; }
    if row.partition.value != part(StreamKey(row.destination, row.key.value)) { acc.Add(V(OrderingPartitionMismatch)); }
    if IsActive(row.status) && row.next.None? {
      acc.Add(V(StreamCursorInvalid));
    } else if IsActive(row.status) && row.sequence.value < row.next.value {
      acc.Add(V(ActiveSequenceBehindCursor));
    } else if row.status == Delivered && row.next.Some? && row.sequence.value >= row.next.value {
      acc.Add(V(StreamCursorInvalid));
    }
  }

  method CheckEvents(part: StreamKey -> nat, now: Time, rows: seq<EventRow>, acc: Accumulator)
    requires acc.Valid()
    modifies acc
    ensures acc.Valid() && acc.all == EventsNoted(part, now, old(acc.all), rows)
  {
    for i := 0 to |rows|
      invariant acc.Valid() && acc.all == EventsNoted(part, now, old(acc.all), rows[..i])
    {
      assert rows[..i + 1][..i] == rows[..i];
      CheckEvent(part, now, rows[i], acc);
    }
    assert rows[..|rows|] == rows;
  }

  /** A row passes exactly when its ordering columns are absent, or complete, well placed
      and on the right side of the cursor for its status. */
  predicate EventPasses(part: StreamKey -> nat, row: EventRow) {
    || (row.key.None? && row.sequence.None? && row.partition.None?)
    || (&& row.key.Some? && row.sequence.Some? && row.partition.Some? && !Blank(row.key.value) && row.sequence.value > 0
        && row.partition.value == part(StreamKey(row.destination, row.key.value))
        && (IsActive(row.status) ==> row.next.Some? && row.next.value <= row.sequence.value)
        && (row.status == Delivered && row.next.Some? ==> row.sequence.value < row.next.value))
  }

  lemma EventPassesIff(part: StreamKey -> nat, now: Time, all: seq<Finding>, row: EventRow)
    ensures NoViolations(EventNoted(part, now, all, row)) <==> NoViolations(all) && EventPasses(part, row)
  {}

  lemma {:induction false} EventsPassIff(part: StreamKey -> nat, now: Time, all: seq<Finding>, rows: seq<EventRow>)
    ensures NoViolations(EventsNoted(part, now, all, rows)) <==>
      NoViolations(all) && forall i :: 0 <= i < |rows| ==> EventPasses(part, rows[i])
  {
    if rows != [] {
      var front, last := rows[..|rows| - 1], rows[|rows| - 1];
      EventsPassIff(part, now, all, front);
      EventPassesIff(part, now, EventsNoted(part, now, all, front), last);
      assert forall i :: 0 <= i < |front| ==> front[i] == rows[i];
    }
  }

  // ---------------------------------------------------------------- streams

  datatype StreamState = Idle | Ready | InflightState | RetryWait | Gap | DeadBlocked

  datatype CursorObservation = CursorObservation(
    start: int,
    next: int,
    expectedCount: nat,
    expectedStatus: Option<StatusText>,
    expectedAvailableAt: Option<Time>,
    lowestFuture: Option<int>)

  function ClassifyCursor(now: Time, o: CursorObservation): StreamState {
    if o.expectedCount == 0 then (if o.lowestFuture.Some? then Gap else Idle)
    else if o.expectedStatus == Some(Dead) then DeadBlocked
    else if o.expectedStatus == Some(Inflight) then InflightState
    else if o.expectedStatus == Some(Pending) then
      (if o.expectedAvailableAt.Some? && o.expectedAvailableAt.value > now then RetryWait else Ready)
    else Idle
  }

  datatype StreamRow = StreamRow(stream: StreamKey, partition: int, observation: CursorObservation)

  function StateNoted(all: seq<Finding>, state: StreamState): (r: seq<Finding>)
    ensures NoViolations(r) <==> NoViolations(all)
  {
    match state
    case RetryWait => Noted(all, true, W(StreamRetryWait))
    case Gap => Noted(all, true, W(StreamGap))
    case DeadBlocked => Noted(all, true, W(StreamDeadBlocked))
    case _ => all
  }

  predicate CursorOutOfRange(o: CursorObservation) {
    o.start <= 0 || o.next < o.start
  }

  function StreamNoted(part: StreamKey -> nat, now: Time, all: seq<Finding>, row: StreamRow): seq<Finding> {
    var a := Noted(all, row.partition != part(row.stream), V(StreamPartitionMismatch));
    var b := Noted(a, CursorOutOfRange(row.observation), V(StreamCursorInvalid));
    var c := Noted(b, row.observation.expectedCount > 1, V(ExpectedSequenceDuplicate));
    StateNoted(c, ClassifyCursor(now, row.observation))
  }

  function StreamsNoted(part: StreamKey -> nat, now: Time, all: seq<Finding>, rows: seq<StreamRow>): seq<Finding> {
    if rows == [] then all
    else StreamNoted(part, now, StreamsNoted(part, now, all, rows[..|rows| - 1]), rows[|rows| - 1])
  }

  /** The counters the check keeps per stream state. */
  class StreamSummary {
    var ordered: nat
    var ready: nat
    var inflight: nat
    var retryWait: nat
    var gap: nat
    var deadBlocked: nat
    var blocked: nat

    constructor ()
      ensures Valid() && ordered == 0
    {
      ordered, ready, inflight, retryWait, gap, deadBlocked, blocked := 0, 0, 0, 0, 0, 0, 0;
    }

    /** Blocked streams are the inflight, waiting, gapped and dead ones; nothing is counted twice. */
    ghost predicate Valid()
      reads this
    {
      blocked == inflight + retryWait + gap + deadBlocked && ready + blocked <= ordered
    }

    /** The counter of a state; idle streams are the ones no other counter has. */
    function Counter(state: StreamState): int
      reads this
    {
      match state
      case Idle => ordered - ready - blocked
      case Ready => ready
      case InflightState => inflight
      case RetryWait => retryWait
      case Gap => gap
      case DeadBlocked => deadBlocked
    }

    method Note(state: StreamState)
      requires Valid()
      modifies this
      ensures Valid() && ordered == old(ordered) + 1
      ensures forall s :: Counter(s) == old(Counter(s)) + if s == state then 1 else 0
    {
      ordered := ordered + 1;
      match state {
        case Idle =>
        case Ready => ready := ready + 1;
        case InflightState => inflight, blocked := inflight + 1, blocked + 1;
        case RetryWait => retryWait, blocked := retryWait + 1, blocked + 1;
        case Gap => gap, blocked := gap + 1, blocked + 1;
        case DeadBlocked => deadBlocked, blocked := deadBlocked + 1, blocked + 1;
      }
    }
  }

  method CheckStream(part: StreamKey -> nat, now: Time, row: StreamRow, acc: Accumulator, summary: StreamSummary)
    requires acc.Valid() && summary.Valid()
    modifies acc, summary
    ensures acc.Valid() && acc.all == StreamNoted(part, now, old(acc.all), row)
    ensures summary.Valid() && summary.ordered == old(summary.ordered) + 1
    ensures var state := ClassifyCursor(now, row.observation);
      forall s :: summary.Counter(s) == old(summary.Counter(s)) + if s == state then 1 else 0
  {
    acc.AddIf(row.partition != part(row.stream), V(StreamPartitionMismatch));
    acc.AddIf(CursorOutOfRange(row.observation), V(StreamCursorInvalid));
    acc.AddIf(row.observation.expectedCount > 1, V(ExpectedSequenceDuplicate));
    var state := ClassifyCursor(now, row.observation);
    summary.Note(state);
    match state {
      case RetryWait => acc.Add(W(StreamRetryWait));
      case Gap => acc.Add(W(StreamGap));
      case DeadBlocked => acc.Add(W(StreamDeadBlocked));
      case _ =>
    }
  }

  /** How many streams are in a state. */
  function InStateCount(now: Time, rows: seq<StreamRow>, state: StreamState): nat {
    if rows == [] then 0
    else
      var last := |rows| - 1;
      InStateCount(now, rows[..last], state) + if ClassifyCursor(now, rows[last].observation) == state then 1 else 0
  }

  method CheckStreams(part: StreamKey -> nat, now: Time, rows: seq<StreamRow>, acc: Accumulator, summary: StreamSummary)
    requires acc.Valid() && summary.Valid()
    modifies acc, summary
    ensures acc.Valid() && acc.all == StreamsNoted(part, now, old(acc.all), rows)
    ensures summary.Valid() && summary.ordered == old(summary.ordered) + |rows|
    ensures forall s :: summary.Counter(s) == old(summary.Counter(s)) + InStateCount(now, rows, s)
  {
    for i := 0 to |rows|
      invariant acc.Valid() && acc.all == StreamsNoted(part, now, old(acc.all), rows[..i])
      invariant summary.Valid() && summary.ordered == old(summary.ordered) + i
      invariant forall s :: summary.Counter(s) == old(summary.Counter(s)) + InStateCount(now, rows[..i], s)
    {
      assert rows[..i + 1][..i] == rows[..i];
      CheckStream(part, now, rows[i], acc, summary);
    }
    assert rows[..|rows|] == rows;
  }

  predicate StreamPasses(part: StreamKey -> nat, row: StreamRow) {
    row.partition == part(row.stream) && 0 < row.observation.start <= row.observation.next
      && row.observation.expectedCount <= 1
  }

  lemma {:induction false} StreamsPassIff(part: StreamKey -> nat, now: Time, all: seq<Finding>, rows: seq<StreamRow>)
    ensures NoViolations(StreamsNoted(part, now, all, rows)) <==>
      NoViolations(all) && forall i :: 0 <= i < |rows| ==> StreamPasses(part, rows[i])
  {
    if rows != [] {
      var front := rows[..|rows| - 1];
      StreamsPassIff(part, now, all, front);
      assert forall i :: 0 <= i < |front| ==> front[i] == rows[i];
    }
  }

  // ---------------------------------------------------------------- partitions

  /** A partition row joined with the Relay its lease names: heartbeat, stopped, capable. */
  datatype PartitionRow = PartitionRow(
    id: int,
    owner: Option<string>,
    leaseUntil: Option<Time>,
    epoch: int,
    handoff: Option<Time>,
    publishMs: Option<int>,
    updatedAt: Option<Time>,
    relay: Option<(Time, bool, bool)>)

  predicate LeaseMisshapen(row: PartitionRow) {
    || (row.owner.None? && row.leaseUntil.Some?) || (row.owner.Some? && row.leaseUntil.None?)
    || (row.owner.Some? && Blank(row.owner.value)) || (row.publishMs.Some? && row.publishMs.value <= 0)
  }

  predicate OwnerUnavailable(now: Time, staleAfter: Time, row: PartitionRow) {
    && row.owner.Some? && row.leaseUntil.Some? && row.leaseUntil.value > now
    && (row.relay.None? || row.relay.value.1 || !row.relay.value.2 || row.relay.value.0 < now - staleAfter)
  }

  predicate HandoffOverdue(now: Time, longAfter: Time, row: PartitionRow) {
    row.handoff.Some? && row.handoff.value > now && row.updatedAt.Some? && row.updatedAt.value < now - longAfter
  }

  function PartitionShapeNoted(all: seq<Finding>, row: PartitionRow): (r: seq<Finding>)
    ensures NoViolations(r) <==> NoViolations(all) && PartitionPasses(row)
  {
    var a := Noted(all, row.id < 0 || row.id >= PARTITION_COUNT, V(PartitionIdInvalid));
    var b := Noted(a, row.epoch < 0, V(PartitionEpochInvalid));
    Noted(b, LeaseMisshapen(row), V(PartitionLeaseShapeInvalid))
  }

  function PartitionNoted(now: Time, staleAfter: Time, longAfter: Time, all: seq<Finding>,
                          row: PartitionRow): seq<Finding> {
    var d := Noted(PartitionShapeNoted(all, row), OwnerUnavailable(now, staleAfter, row), W(PartitionOwnerStale));
    Noted(d, HandoffOverdue(now, longAfter, row), W(PartitionHandoffOverdue))
  }

  function PartitionsNoted(now: Time, staleAfter: Time, longAfter: Time, all: seq<Finding>,
                           rows: seq<PartitionRow>): seq<Finding> {
    if rows == [] then all
    else PartitionNoted(now, staleAfter, longAfter,
      PartitionsNoted(now, staleAfter, longAfter, all, rows[..|rows| - 1]), rows[|rows| - 1])
  }

  function MissingNoted(all: seq<Finding>, seen: set<int>, end: nat): seq<Finding> {
    if end == 0 then all else Noted(MissingNoted(all, seen, end - 1), end - 1 !in seen, V(PartitionIdInvalid))
  }

  function IdsSeen(rows: seq<PartitionRow>): set<int> {
    set row | row in rows :: row.id
  }

  function Seed(n: nat): (ids: set<int>)
    ensures forall id :: id in ids <==> 0 <= id < n
    ensures |ids| == n
  {
    if n == 0 then {} else Seed(n - 1) + {n - 1}
  }

  function SeedNoted(all: seq<Finding>, seen: set<int>): seq<Finding> {
    MissingNoted(Noted(all, |seen| != PARTITION_COUNT, V(PartitionCountInvalid)), seen, PARTITION_COUNT)
  }

  method CheckPartitionShape(row: PartitionRow, acc: Accumulator)
    requires acc.Valid()
    modifies acc
    ensures acc.Valid() && acc.all == PartitionShapeNoted(old(acc.all), row)
  {
    acc.AddIf(row.id < 0 || row.id >= PARTITION_COUNT, V(PartitionIdInvalid));
    acc.AddIf(row.epoch < 0, V(PartitionEpochInvalid));
    acc.AddIf(LeaseMisshapen(row), V(PartitionLeaseShapeInvalid));
  }

  method CheckPartition(now: Time, staleAfter: Time, longAfter: Time, row: PartitionRow, acc: Accumulator)
    requires acc.Valid()
    modifies acc
    ensures acc.Valid() && acc.all == PartitionNoted(now, staleAfter, longAfter, old(acc.all), row)
  {
    CheckPartitionShape(row, acc);
    var owned := row.owner.Some? && row.leaseUntil.Some? && row.leaseUntil.value > now;
    var stale := row.relay.None? || row.relay.value.1 || !row.relay.value.2 || row.relay.value.0 < now - staleAfter;
    acc.AddIf(owned && stale, W(PartitionOwnerStale));
    var pending := row.handoff.Some? && row.handoff.value > now;
    acc.AddIf(pending && row.updatedAt.Some? && row.updatedAt.value < now - longAfter, W(PartitionHandoffOverdue));
  }

  method CheckPartitionRows(now: Time, staleAfter: Time, longAfter: Time, rows: seq<PartitionRow>, acc: Accumulator)
    returns (seen: set<int>)
    requires acc.Valid()
    modifies acc
    ensures acc.Valid() && seen == IdsSeen(rows)
    ensures acc.all == PartitionsNoted(now, staleAfter, longAfter, old(acc.all), rows)
  {
    seen := {};
    for i := 0 to |rows|
      invariant acc.Valid() && acc.all == PartitionsNoted(now, staleAfter, longAfter, old(acc.all), rows[..i])
      invariant seen == IdsSeen(rows[..i])
    {
      assert rows[..i + 1][..i] == rows[..i];
      OneMoreSeen(rows, i);
      seen := seen + {rows[i].id};
      CheckPartition(now, staleAfter, longAfter, rows[i], acc);
    }
    assert rows[..|rows|] == rows;
  }

  lemma OneMoreSeen(rows: seq<PartitionRow>, i: nat)
    requires i < |rows|
    ensures IdsSeen(rows[..i + 1]) == IdsSeen(rows[..i]) + {rows[i].id}
  {}

  method CheckPartitions(now: Time, staleAfter: Time, longAfter: Time, rows: seq<PartitionRow>, acc: Accumulator)
    requires acc.Valid()
    modifies acc
    ensures acc.Valid()
    ensures acc.all == SeedNoted(PartitionsNoted(now, staleAfter, longAfter, old(acc.all), rows), IdsSeen(rows))
  {
    var seen := CheckPartitionRows(now, staleAfter, longAfter, rows, acc);
    CheckSeed(seen, acc);
  }

  method CheckSeed(seen: set<int>, acc: Accumulator)
    requires acc.Valid()
    modifies acc
    ensures acc.Valid() && acc.all == SeedNoted(old(acc.all), seen)
  {
    if |seen| != PARTITION_COUNT { acc.Add(V(PartitionCountInvalid)); }
    ghost var before := acc.all;
    for id := 0 to PARTITION_COUNT
      invariant acc.Valid() && acc.all == MissingNoted(before, seen, id)
    {
      if id !in seen { acc.Add(V(PartitionIdInvalid)); }
    }
  }

  predicate PartitionPasses(row: PartitionRow) {
    && 0 <= row.id < PARTITION_COUNT && row.epoch >= 0
    && (row.owner.Some? <==> row.leaseUntil.Some?) && (row.owner.Some? ==> !Blank(row.owner.value))
    && (row.publishMs.Some? ==> row.publishMs.value > 0)
  }

  ghost predicate PartitionsPass(rows: seq<PartitionRow>) {
    forall i :: 0 <= i < |rows| ==> PartitionPasses(rows[i])
  }

  lemma LastPartition(rows: seq<PartitionRow>)
    requires rows != []
    ensures PartitionsPass(rows) <==> PartitionsPass(rows[..|rows| - 1]) && PartitionPasses(rows[|rows| - 1])
  {
    assert rows == rows[..|rows| - 1] + [rows[|rows| - 1]];
  }

  lemma PartitionPassesIff(now: Time, staleAfter: Time, longAfter: Time, all: seq<Finding>, row: PartitionRow)
    ensures NoViolations(PartitionNoted(now, staleAfter, longAfter, all, row)) <==>
      NoViolations(all) && PartitionPasses(row)
  {}

  lemma {:induction false} PartitionsPassIff(now: Time, staleAfter: Time, longAfter: Time, all: seq<Finding>,
                                             rows: seq<PartitionRow>)
    ensures NoViolations(PartitionsNoted(now, staleAfter, longAfter, all, rows)) <==>
      NoViolations(all) && PartitionsPass(rows)
  {
    if rows != [] {
      var front := rows[..|rows| - 1];
      PartitionsPassIff(now, staleAfter, longAfter, all, front);
      PartitionPassesIff(now, staleAfter, longAfter, PartitionsNoted(now, staleAfter, longAfter, all, front),
        rows[|rows| - 1]);
      LastPartition(rows);
    }
  }

  lemma {:induction false} NothingMissing(all: seq<Finding>, seen: set<int>, end: nat)
    ensures NoViolations(MissingNoted(all, seen, end)) <==>
      NoViolations(all) && forall id :: 0 <= id < end ==> id in seen
  {
    if end > 0 { NothingMissing(all, seen, end - 1); }
  }

  /** The seed is complete exactly when the ids seen are 0 .. 63. */
  lemma SeedPassesIff(all: seq<Finding>, seen: set<int>)
    ensures NoViolations(SeedNoted(all, seen)) <==> NoViolations(all) && seen == Seed(PARTITION_COUNT)
  {
    var seed := Seed(PARTITION_COUNT);
    NothingMissing(Noted(all, |seen| != PARTITION_COUNT, V(PartitionCountInvalid)), seen, PARTITION_COUNT);
    if seed <= seen && |seen| == |seed| { SubsetOfSameSize(seed, seen); }
  }

  /** Rows numbered in order show exactly the seed. */
  lemma NumberedRows(rows: seq<PartitionRow>, n: nat)
    requires |rows| == n && forall i :: 0 <= i < n ==> rows[i].id == i
    ensures IdsSeen(rows) == Seed(n)
  {
    forall id | 0 <= id < n ensures id in IdsSeen(rows) { assert rows[id] in rows; }
    assert forall row :: row in rows ==> 0 <= row.id < n;
  }

  lemma SubsetOfSameSize(a: set<int>, b: set<int>)
    requires a <= b && |a| == |b|
    ensures a == b
  {
    assert |b - a| == |b| - |a|;
    assert b == a + (b - a);
  }

  // ---------------------------------------------------------------- inbox

  datatype InboxRow = InboxRow(status: StatusText, attempts: int, processedAt: Option<Time>, leaseOwner: Option<string>,
                               leaseToken: Option<string>, leaseUntil: Option<Time>, sourceTopic: Option<string>,
                               sourcePartition: Option<int>, sourceOffset: Option<int>, sourceTimestamp: Option<Time>)

  function NonBlank(field: Option<string>): nat {
    if field.Some? && !Blank(field.value) then 1 else 0
  }

  function LeaseFields(row: InboxRow): nat {
    NonBlank(row.leaseOwner) + NonBlank(row.leaseToken) + Given(row.leaseUntil)
  }

  function SourceFields(row: InboxRow): nat {
    NonBlank(row.sourceTopic) + Given(row.sourcePartition) + Given(row.sourceOffset)
  }

  predicate KnownStatus(status: StatusText) {
    status != Other && status != Delivered
  }

  predicate InboxLeaseMisshapen(row: InboxRow) {
    (row.status == Inflight && LeaseFields(row) != 3) || (row.status != Inflight && LeaseFields(row) != 0)
  }

  predicate SourceInvalid(row: InboxRow) {
    || (SourceFields(row) != 0 && SourceFields(row) != 3)
    || (row.sourcePartition.Some? && row.sourcePartition.value < 0)
      || (row.sourceOffset.Some? && row.sourceOffset.value < 0)
    || (row.sourceTimestamp.Some? && SourceFields(row) != 3) || (row.status != Processed && SourceFields(row) != 3)
  }

  function InboxStatusNoted(all: seq<Finding>, status: StatusText): (r: seq<Finding>)
    ensures NoViolations(r) <==> NoViolations(all) && KnownStatus(status)
  {
    match status
    case RetryWaiting => Noted(all, true, W(InboxRetryWait))
    case Dead => Noted(all, true, W(InboxDeadBlocked))
    case _ => Noted(all, !KnownStatus(status), V(InboxStateInvalid))
  }

  function InboxCountsNoted(all: seq<Finding>, row: InboxRow): (r: seq<Finding>)
    ensures NoViolations(r) <==> NoViolations(all) && row.attempts >= 0 && LeasePasses(row)
  {
    Noted(Noted(all, row.attempts < 0, V(InboxAttemptsInvalid)), InboxLeaseMisshapen(row), V(InboxLeaseShapeInvalid))
  }

  function InboxNoted(now: Time, all: seq<Finding>, row: InboxRow): seq<Finding> {
    var c := InboxCountsNoted(InboxStatusNoted(all, row.status), row);
    var d := Noted(c, row.status == Inflight && row.leaseUntil.Some? && row.leaseUntil.value <= now,
      W(InboxStaleLease));
    var e := Noted(d, (row.status == Processed) != row.processedAt.Some?, V(InboxProcessedTimestampInvalid));
    Noted(e, SourceInvalid(row), V(InboxSourceMetadataInvalid))
  }

  function InboxRowsNoted(now: Time, all: seq<Finding>, rows: seq<InboxRow>): seq<Finding> {
    if rows == [] then all else InboxNoted(now, InboxRowsNoted(now, all, rows[..|rows| - 1]), rows[|rows| - 1])
  }

  method CheckInboxStatus(status: StatusText, acc: Accumulator)
    requires acc.Valid()
    modifies acc
    ensures acc.Valid() && acc.all == InboxStatusNoted(old(acc.all), status)
  {
    match status {
      case RetryWaiting => acc.Add(W(InboxRetryWait));
      case Dead => acc.Add(W(InboxDeadBlocked));
      case _ => if !KnownStatus(status) { acc.Add(V(InboxStateInvalid)); }
    }
  }

  method CheckInboxCounts(row: InboxRow, acc: Accumulator)
    requires acc.Valid()
    modifies acc
    ensures acc.Valid() && acc.all == InboxCountsNoted(old(acc.all), row)
  {
    if row.attempts < 0 { acc.Add(V(InboxAttemptsInvalid)); }
    if InboxLeaseMisshapen(row) { acc.Add(V(InboxLeaseShapeInvalid)); }
  }

  method CheckInboxRow(now: Time, row: InboxRow, acc: Accumulator)
    requires acc.Valid()
    modifies acc
    ensures acc.Valid() && acc.all == InboxNoted(now, old(acc.all), row)
  {
    CheckInboxStatus(row.status, acc);
    CheckInboxCounts(row, acc);
    if row.status == Inflight && row.leaseUntil.Some? && row.leaseUntil.value <= now { acc.Add(W(InboxStaleLease)); }
    if (row.status == Processed) != row.processedAt.Some? { acc.Add(V(InboxProcessedTimestampInvalid)); }
    if SourceInvalid(row) { acc.Add(V(InboxSourceMetadataInvalid)); }
  }

  method CheckInbox(now: Time, rows: seq<InboxRow>, acc: Accumulator)
    requires acc.Valid()
    modifies acc
    ensures acc.Valid() && acc.all == InboxRowsNoted(now, old(acc.all), rows)
  {
    for i := 0 to |rows|
      invariant acc.Valid() && acc.all == InboxRowsNoted(now, old(acc.all), rows[..i])
    {
      assert rows[..i + 1][..i] == rows[..i];
      CheckInboxRow(now, rows[i], acc);
    }
    assert rows[..|rows|] == rows;
  }

  predicate Shown(field: Option<string>) {
    field.Some? && !Blank(field.value)
  }

  /** Leased exactly while inflight, with owner, token and deadline. */
  predicate LeasePasses(row: InboxRow) {
    if row.status == Inflight then Shown(row.leaseOwner) && Shown(row.leaseToken) && row.leaseUntil.Some?
    else !Shown(row.leaseOwner) && !Shown(row.leaseToken) && row.leaseUntil.None?
  }

  /** Full coordinates, or none at all on a row processed unmanaged. */
  predicate SourcePasses(row: InboxRow) {
    if Shown(row.sourceTopic) then
      row.sourcePartition.Some? && row.sourcePartition.value >= 0 && row.sourceOffset.Some?
        && row.sourceOffset.value >= 0
    else
      row.status == Processed && row.sourcePartition.None? && row.sourceOffset.None? && row.sourceTimestamp.None?
  }

  predicate InboxPasses(row: InboxRow) {
    && KnownStatus(row.status) && row.attempts >= 0 && LeasePasses(row)
    && (row.status == Processed <==> row.processedAt.Some?) && SourcePasses(row)
  }

  lemma InboxRowPassesIff(now: Time, all: seq<Finding>, row: InboxRow)
    ensures NoViolations(InboxNoted(now, all, row)) <==> NoViolations(all) && InboxPasses(row)
  {}

  ghost predicate AllInboxPass(rows: seq<InboxRow>) {
    forall i :: 0 <= i < |rows| ==> InboxPasses(rows[i])
  }

  lemma LastInboxRow(rows: seq<InboxRow>)
    requires rows != []
    ensures AllInboxPass(rows) <==> AllInboxPass(rows[..|rows| - 1]) && InboxPasses(rows[|rows| - 1])
  {
    assert rows == rows[..|rows| - 1] + [rows[|rows| - 1]];
  }

  lemma {:induction false} InboxPassesIff(now: Time, all: seq<Finding>, rows: seq<InboxRow>)
    ensures NoViolations(InboxRowsNoted(now, all, rows)) <==> NoViolations(all) && AllInboxPass(rows)
  {
    if rows != [] {
      var front := rows[..|rows| - 1];
      InboxPassesIff(now, all, front);
      InboxRowPassesIff(now, InboxRowsNoted(now, all, front), rows[|rows| - 1]);
      LastInboxRow(rows);
    }
  }
}
