/** What the integrity report says, finding by finding: how often each code and severity is
    added, against a plain reading of the row that earns it. */
module Findings {
  import opened Types
  import opened Integrity

  /** How often a finding is in a report. */
  function Times(all: seq<Finding>, f: Finding): nat {
    multiset(all)[f]
  }

  function One(condition: bool): nat {
    if condition then 1 else 0
  }

  lemma NotedTimes(all: seq<Finding>, condition: bool, g: Finding, f: Finding)
    ensures Times(Noted(all, condition, g), f) == Times(all, f) + One(condition && f == g)
  {}

  /** How many findings of a severity a report has. */
  function Severe(all: seq<Finding>, severity: Severity): set<nat> {
    set i: nat | i < |all| && all[i].severity == severity
  }

  lemma SevereGrow(all: seq<Finding>, severity: Severity)
    requires all != []
    ensures |Severe(all, severity)| == |Severe(all[..|all| - 1], severity)| + One(all[|all| - 1].severity == severity)
  {
    var last := |all| - 1;
    assert Severe(all, severity)
        == Severe(all[..last], severity) + if all[last].severity == severity then {last} else {};
  }

  /** The summary counts the findings of each severity. */
  lemma {:induction false} TallyCounts(all: seq<Finding>)
    ensures TallyOf(all) == Tally(|Severe(all, Info)|, |Severe(all, Warning)|, |Severe(all, Violation)|)
  {
    if all != [] {
      TallyCounts(all[..|all| - 1]);
      SevereGrow(all, Info);
      SevereGrow(all, Warning);
      SevereGrow(all, Violation);
    }
  }

  // ---------------------------------------------------------------- events

  predicate Unordered(row: EventRow) {
    row.key.None? && row.sequence.None? && row.partition.None?
  }

  predicate Placed(row: EventRow) {
    && row.key.Some? && row.sequence.Some? && row.partition.Some?
    && !Blank(row.key.value) && row.sequence.value > 0
  }

  predicate Unfinished(row: EventRow) {
    row.status in {Pending, Inflight, Dead}
  }

  predicate EventEarns(part: StreamKey -> nat, now: Time, row: EventRow, f: Finding) {
    || (&& f == W(StaleEventLease)
        && row.status == Inflight && row.leaseUntil.Some? && row.leaseUntil.value <= now)
    || (f == V(OrderingFieldsPartial) && !Unordered(row) && !Placed(row))
    || (&& f == V(OrderingPartitionMismatch) && Placed(row)
        && row.partition.value != part(StreamKey(row.destination, row.key.value)))
    || (&& f == V(ActiveSequenceBehindCursor) && Placed(row) && Unfinished(row)
        && row.next.Some? && row.sequence.value < row.next.value)
    || (&& f == V(StreamCursorInvalid) && Placed(row)
        && (|| (Unfinished(row) && row.next.None?)
            || (row.status == Delivered && row.next.Some? && row.sequence.value >= row.next.value)))
  }

  /** The order-free part of an event row's findings. */
  lemma PlacedTimes(part: StreamKey -> nat, a: seq<Finding>, row: EventRow, f: Finding, r: seq<Finding>)
    requires Placed(row)
    requires var b := Noted(a, row.partition.value != part(StreamKey(row.destination, row.key.value)),
                            V(OrderingPartitionMismatch));
      r == if IsActive(row.status) && row.next.None? then Noted(b, true, V(StreamCursorInvalid))
           else if IsActive(row.status)
           then Noted(b, row.sequence.value < row.next.value, V(ActiveSequenceBehindCursor))
           else Noted(b, row.status == Delivered && row.next.Some? && row.sequence.value >= row.next.value,
                      V(StreamCursorInvalid))
    ensures Times(r, f) == Times(a, f) + One(f != W(StaleEventLease) && EventEarns(part, 0, row, f))
  {
    var moved := row.partition.value != part(StreamKey(row.destination, row.key.value));
    NotedTimes(a, moved, V(OrderingPartitionMismatch), f);
    var b := Noted(a, moved, V(OrderingPartitionMismatch));
    if IsActive(row.status) && row.next.None? {
      NotedTimes(b, true, V(StreamCursorInvalid), f);
    } else if IsActive(row.status) {
      NotedTimes(b, row.sequence.value < row.next.value, V(ActiveSequenceBehindCursor), f);
    } else {
      NotedTimes(b, row.status == Delivered && row.next.Some? && row.sequence.value >= row.next.value,
                 V(StreamCursorInvalid), f);
    }
  }

  lemma OtherTimes(part: StreamKey -> nat, now: Time, all: seq<Finding>, row: EventRow, f: Finding)
    requires !Placed(row)
    ensures Times(EventNoted(part, now, all, row), f) == Times(all, f) + One(EventEarns(part, now, row, f))
  {
    var stale := row.status == Inflight && row.leaseUntil.Some? && row.leaseUntil.value <= now;
    NotedTimes(all, stale, W(StaleEventLease), f);
    NotedTimes(Noted(all, stale, W(StaleEventLease)), true, V(OrderingFieldsPartial), f);
    assert PartialFields(row) == !Unordered(row);
  }

  lemma EventTimes(part: StreamKey -> nat, now: Time, all: seq<Finding>, row: EventRow, f: Finding)
    ensures Times(EventNoted(part, now, all, row), f) == Times(all, f) + One(EventEarns(part, now, row, f))
  {
    if Placed(row) {
      var stale := row.status == Inflight && row.leaseUntil.Some? && row.leaseUntil.value <= now;
      NotedTimes(all, stale, W(StaleEventLease), f);
      PlacedTimes(part, Noted(all, stale, W(StaleEventLease)), row, f, EventNoted(part, now, all, row));
    } else {
      OtherTimes(part, now, all, row, f);
    }
  }

  /** How many rows earn a finding. */
  function EventsEarning(part: StreamKey -> nat, now: Time, rows: seq<EventRow>, f: Finding): nat {
    if rows == [] then 0
    else EventsEarning(part, now, rows[..|rows| - 1], f) + One(EventEarns(part, now, rows[|rows| - 1], f))
  }

  /** The event check adds a finding once for every row that earns it. */
  lemma {:induction false} EventFindings(part: StreamKey -> nat, now: Time, all: seq<Finding>, rows: seq<EventRow>,
                                         f: Finding)
    ensures Times(EventsNoted(part, now, all, rows), f) == Times(all, f) + EventsEarning(part, now, rows, f)
  {
    if rows != [] {
      EventFindings(part, now, all, rows[..|rows| - 1], f);
      EventTimes(part, now, EventsNoted(part, now, all, rows[..|rows| - 1]), rows[|rows| - 1], f);
    }
  }

  // ---------------------------------------------------------------- streams

  predicate StreamEarns(part: StreamKey -> nat, now: Time, row: StreamRow, f: Finding) {
    var o := row.observation;
    || (f == V(StreamPartitionMismatch) && row.partition != part(row.stream))
    || (f == V(StreamCursorInvalid) && (o.start < 1 || o.start > o.next))
    || (f == V(ExpectedSequenceDuplicate) && o.expectedCount >= 2)
    || (f == W(StreamGap) && o.expectedCount == 0 && o.lowestFuture.Some?)
    || (f == W(StreamDeadBlocked) && o.expectedCount >= 1 && o.expectedStatus == Some(Dead))
    || (&& f == W(StreamRetryWait) && o.expectedCount >= 1 && o.expectedStatus == Some(Pending)
        && o.expectedAvailableAt.Some? && o.expectedAvailableAt.value > now)
  }

  lemma StateTimes(now: Time, all: seq<Finding>, o: CursorObservation, f: Finding)
    ensures Times(StateNoted(all, ClassifyCursor(now, o)), f) == Times(all, f) + One(
      || (f == W(StreamGap) && o.expectedCount == 0 && o.lowestFuture.Some?)
      || (f == W(StreamDeadBlocked) && o.expectedCount >= 1 && o.expectedStatus == Some(Dead))
      || (&& f == W(StreamRetryWait) && o.expectedCount >= 1 && o.expectedStatus == Some(Pending)
          && o.expectedAvailableAt.Some? && o.expectedAvailableAt.value > now))
  {
    NotedTimes(all, true, W(StreamRetryWait), f);
    NotedTimes(all, true, W(StreamGap), f);
    NotedTimes(all, true, W(StreamDeadBlocked), f);
  }

  lemma StreamTimes(part: StreamKey -> nat, now: Time, all: seq<Finding>, row: StreamRow, f: Finding)
    ensures Times(StreamNoted(part, now, all, row), f) == Times(all, f) + One(StreamEarns(part, now, row, f))
  {
    var a := Noted(all, row.partition != part(row.stream), V(StreamPartitionMismatch));
    var b := Noted(a, CursorOutOfRange(row.observation), V(StreamCursorInvalid));
    NotedTimes(all, row.partition != part(row.stream), V(StreamPartitionMismatch), f);
    NotedTimes(a, CursorOutOfRange(row.observation), V(StreamCursorInvalid), f);
    NotedTimes(b, row.observation.expectedCount > 1, V(ExpectedSequenceDuplicate), f);
    StateTimes(now, Noted(b, row.observation.expectedCount > 1, V(ExpectedSequenceDuplicate)), row.observation, f);
  }

  /** How many rows earn a finding. */
  function StreamsEarning(part: StreamKey -> nat, now: Time, rows: seq<StreamRow>, f: Finding): nat {
    if rows == [] then 0
    else StreamsEarning(part, now, rows[..|rows| - 1], f) + One(StreamEarns(part, now, rows[|rows| - 1], f))
  }

  /** The stream check adds a finding once for every stream that earns it. */
  lemma {:induction false} StreamFindings(part: StreamKey -> nat, now: Time, all: seq<Finding>, rows: seq<StreamRow>,
                                          f: Finding)
    ensures Times(StreamsNoted(part, now, all, rows), f) == Times(all, f) + StreamsEarning(part, now, rows, f)
  {
    if rows != [] {
      StreamFindings(part, now, all, rows[..|rows| - 1], f);
      StreamTimes(part, now, StreamsNoted(part, now, all, rows[..|rows| - 1]), rows[|rows| - 1], f);
    }
  }

  // ---------------------------------------------------------------- partitions

  predicate ShapeEarns(row: PartitionRow, f: Finding) {
    || (f == V(PartitionIdInvalid) && !(0 <= row.id < 64))
    || (f == V(PartitionEpochInvalid) && row.epoch < 0)
    || (&& f == V(PartitionLeaseShapeInvalid)
        && (|| row.owner.Some? != row.leaseUntil.Some? || (row.owner.Some? && Blank(row.owner.value))
            || (row.publishMs.Some? && row.publishMs.value < 1)))
  }

  predicate PartitionEarns(now: Time, staleAfter: Time, longAfter: Time, row: PartitionRow, f: Finding) {
    || ShapeEarns(row, f)
    || (&& f == W(PartitionOwnerStale) && row.owner.Some? && row.leaseUntil.Some? && now < row.leaseUntil.value
        && match row.relay
           case None => true
           case Some((heartbeat, stopped, capable)) => stopped || !capable || heartbeat + staleAfter < now)
    || (&& f == W(PartitionHandoffOverdue) && row.handoff.Some? && now < row.handoff.value
        && row.updatedAt.Some? && row.updatedAt.value + longAfter < now)
  }

  lemma ShapeTimes(all: seq<Finding>, row: PartitionRow, f: Finding)
    ensures Times(PartitionShapeNoted(all, row), f) == Times(all, f) + One(ShapeEarns(row, f))
  {}

  lemma PartitionTimes(now: Time, staleAfter: Time, longAfter: Time, all: seq<Finding>, row: PartitionRow, f: Finding)
    ensures Times(PartitionNoted(now, staleAfter, longAfter, all, row), f)
         == Times(all, f) + One(PartitionEarns(now, staleAfter, longAfter, row, f))
  {
    var c := PartitionShapeNoted(all, row);
    var stale := OwnerUnavailable(now, staleAfter, row);
    ShapeTimes(all, row, f);
    NotedTimes(c, stale, W(PartitionOwnerStale), f);
    var d := Noted(c, stale, W(PartitionOwnerStale));
    NotedTimes(d, HandoffOverdue(now, longAfter, row), W(PartitionHandoffOverdue), f);
  }

  /** How many rows earn a finding. */
  function PartitionsEarning(now: Time, staleAfter: Time, longAfter: Time, rows: seq<PartitionRow>, f: Finding): nat {
    if rows == [] then 0
    else
      PartitionsEarning(now, staleAfter, longAfter, rows[..|rows| - 1], f)
        + One(PartitionEarns(now, staleAfter, longAfter, rows[|rows| - 1], f))
  }

  /** The partition check adds a finding once for every row that earns it. */
  lemma {:induction false} PartitionFindings(now: Time, staleAfter: Time, longAfter: Time, all: seq<Finding>,
                                             rows: seq<PartitionRow>, f: Finding)
    ensures Times(PartitionsNoted(now, staleAfter, longAfter, all, rows), f)
         == Times(all, f) + PartitionsEarning(now, staleAfter, longAfter, rows, f)
  {
    if rows != [] {
      var front := rows[..|rows| - 1];
      PartitionFindings(now, staleAfter, longAfter, all, front, f);
      PartitionTimes(now, staleAfter, longAfter, PartitionsNoted(now, staleAfter, longAfter, all, front),
                     rows[|rows| - 1], f);
    }
  }

  lemma {:induction false} MissingFindings(all: seq<Finding>, seen: set<int>, end: nat, f: Finding)
    ensures Times(MissingNoted(all, seen, end), f)
         == Times(all, f) + if f == V(PartitionIdInvalid) then |set id: nat | id < end && id !in seen| else 0
  {
    if end > 0 {
      MissingFindings(all, seen, end - 1, f);
      assert (set id: nat | id < end && id !in seen)
          == (set id: nat | id < end - 1 && id !in seen) + if end - 1 !in seen then {end - 1} else {};
    }
  }

  /** The seed check reports a wrong number of ids once, and each missing id. */
  lemma SeedFindings(all: seq<Finding>, seen: set<int>, f: Finding)
    ensures Times(SeedNoted(all, seen), f)
         == Times(all, f) + One(f == V(PartitionCountInvalid) && |seen| != 64)
            + if f == V(PartitionIdInvalid) then |set id: nat | id < 64 && id !in seen| else 0
  {
    MissingFindings(Noted(all, |seen| != PARTITION_COUNT, V(PartitionCountInvalid)), seen, PARTITION_COUNT, f);
  }

  // ---------------------------------------------------------------- inbox

  predicate Full(field: Option<string>) {
    field.Some? && !Blank(field.value)
  }

  predicate Leased(row: InboxRow) {
    Full(row.leaseOwner) && Full(row.leaseToken) && row.leaseUntil.Some?
  }

  predicate Loose(row: InboxRow) {
    !Full(row.leaseOwner) && !Full(row.leaseToken) && row.leaseUntil.None?
  }

  predicate Located(row: InboxRow) {
    && Full(row.sourceTopic) && row.sourcePartition.Some? && row.sourceOffset.Some?
    && row.sourcePartition.value >= 0 && row.sourceOffset.value >= 0
  }

  predicate Sourceless(row: InboxRow) {
    && !Full(row.sourceTopic) && row.sourcePartition.None? && row.sourceOffset.None? && row.sourceTimestamp.None?
    && row.status == Processed
  }

  predicate InboxEarns(now: Time, row: InboxRow, f: Finding) {
    || (f == W(InboxRetryWait) && row.status == RetryWaiting)
    || (f == W(InboxDeadBlocked) && row.status == Dead)
    || (f == V(InboxStateInvalid) && row.status in {Other, Delivered})
    || (f == V(InboxAttemptsInvalid) && row.attempts < 0)
    || (f == V(InboxLeaseShapeInvalid) && !(if row.status == Inflight then Leased(row) else Loose(row)))
    || (&& f == W(InboxStaleLease)
        && row.status == Inflight && row.leaseUntil.Some? && row.leaseUntil.value <= now)
    || (f == V(InboxProcessedTimestampInvalid) && !(row.status == Processed <==> row.processedAt.Some?))
    || (f == V(InboxSourceMetadataInvalid) && !Located(row) && !Sourceless(row))
  }

  lemma StatusTimes(all: seq<Finding>, status: StatusText, f: Finding)
    ensures Times(InboxStatusNoted(all, status), f) == Times(all, f) + One(
      || (f == W(InboxRetryWait) && status == RetryWaiting) || (f == W(InboxDeadBlocked) && status == Dead)
      || (f == V(InboxStateInvalid) && status in {Other, Delivered}))
  {
    NotedTimes(all, true, W(InboxRetryWait), f);
    NotedTimes(all, true, W(InboxDeadBlocked), f);
    NotedTimes(all, !KnownStatus(status), V(InboxStateInvalid), f);
  }

  lemma CountsTimes(all: seq<Finding>, row: InboxRow, f: Finding)
    ensures Times(InboxCountsNoted(all, row), f) == Times(all, f) + One(
      || (f == V(InboxAttemptsInvalid) && row.attempts < 0)
      || (f == V(InboxLeaseShapeInvalid) && !(if row.status == Inflight then Leased(row) else Loose(row))))
  {
    var b := Noted(all, row.attempts < 0, V(InboxAttemptsInvalid));
    NotedTimes(all, row.attempts < 0, V(InboxAttemptsInvalid), f);
    NotedTimes(b, InboxLeaseMisshapen(row), V(InboxLeaseShapeInvalid), f);
  }

  lemma SourceIff(row: InboxRow)
    ensures SourceInvalid(row) <==> !Located(row) && !Sourceless(row)
  {}

  lemma LateTimes(now: Time, c: seq<Finding>, row: InboxRow, f: Finding, r: seq<Finding>)
    requires var stale := row.status == Inflight && row.leaseUntil.Some? && row.leaseUntil.value <= now;
      var odd := (row.status == Processed) != row.processedAt.Some?;
      r == Noted(Noted(Noted(c, stale, W(InboxStaleLease)), odd, V(InboxProcessedTimestampInvalid)),
                 SourceInvalid(row), V(InboxSourceMetadataInvalid))
    ensures Times(r, f) == Times(c, f) + One(
      || (f == W(InboxStaleLease) && row.status == Inflight && row.leaseUntil.Some? && row.leaseUntil.value <= now)
      || (f == V(InboxProcessedTimestampInvalid) && !(row.status == Processed <==> row.processedAt.Some?))
      || (f == V(InboxSourceMetadataInvalid) && SourceInvalid(row)))
  {
    var stale := row.status == Inflight && row.leaseUntil.Some? && row.leaseUntil.value <= now;
    var odd := (row.status == Processed) != row.processedAt.Some?;
    var d := Noted(c, stale, W(InboxStaleLease));
    NotedTimes(c, stale, W(InboxStaleLease), f);
    NotedTimes(d, odd, V(InboxProcessedTimestampInvalid), f);
    NotedTimes(Noted(d, odd, V(InboxProcessedTimestampInvalid)), SourceInvalid(row), V(InboxSourceMetadataInvalid), f);
  }

  lemma InboxTimes(now: Time, all: seq<Finding>, row: InboxRow, f: Finding)
    ensures Times(InboxNoted(now, all, row), f) == Times(all, f) + One(InboxEarns(now, row, f))
  {
    var a := InboxStatusNoted(all, row.status);
    StatusTimes(all, row.status, f);
    CountsTimes(a, row, f);
    LateTimes(now, InboxCountsNoted(a, row), row, f, InboxNoted(now, all, row));
    SourceIff(row);
  }

  /** How many rows earn a finding. */
  function InboxEarning(now: Time, rows: seq<InboxRow>, f: Finding): nat {
    if rows == [] then 0
    else InboxEarning(now, rows[..|rows| - 1], f) + One(InboxEarns(now, rows[|rows| - 1], f))
  }

  /** The Inbox check adds a finding once for every row that earns it. */
  lemma {:induction false} InboxFindings(now: Time, all: seq<Finding>, rows: seq<InboxRow>, f: Finding)
    ensures Times(InboxRowsNoted(now, all, rows), f) == Times(all, f) + InboxEarning(now, rows, f)
  {
    if rows != [] {
      InboxFindings(now, all, rows[..|rows| - 1], f);
      InboxTimes(now, InboxRowsNoted(now, all, rows[..|rows| - 1]), rows[|rows| - 1], f);
    }
  }
}
