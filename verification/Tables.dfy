/** The PostgreSQL tables of the outbox and of ordered delivery, and the SQL
    statements that change them. Each statement is one function from the database
    before to the database after, at the database time db.now; a statement whose
    WHERE clause matches no row yields None. */
module Tables {
  import opened Types
  import opened Selection
  import Ownership

  datatype Status = Pending | Inflight | Delivered | Dead

  /** One outbox_events row; optional fields are the nullable columns. */
  datatype Event = Event(
    destination: string,
    messageKey: string,
    key: Option<string>,
    sequence: Option<int>,
    partition: Option<int>,
    status: Status,
    attempts: int,
    availableAt: Time,
    createdAt: Time,
    leaseOwner: Option<string>,
    leaseUntil: Option<Time>,
    deliveredAt: Option<Time>)

  /** One ordering_streams row, the durable cursor of a stream. */
  datatype Stream = Stream(partition: int, start: int, next: int)

  /** One ordering_partitions row. */
  datatype Partition = Partition(
    owner: Option<string>,
    leaseUntil: Option<Time>,
    epoch: int,
    handoff: Option<Time>,
    publishMs: Option<int>)

  /** One relay_instances row. */
  datatype Presence = Presence(heartbeat: Time, stopped: bool, capable: bool)

  datatype Db = Db(
    now: Time,
    paused: bool,
    events: map<Id, Event>,
    streams: map<StreamKey, Stream>,
    partitions: seq<Partition>,
    relays: map<string, Presence>)

  // ---------------------------------------------------------------- producers

  datatype NewEvent = NewEvent(
    destination: string,
    eventType: string,
    messageKey: string,
    orderingKey: string,
    sequence: int,
    startSequence: int,
    availableAt: Option<Time>)

  predicate ValidEvent(e: NewEvent) {
    && !Blank(e.destination) && !Padded(e.destination) && |e.destination| <= 249
    && !Blank(e.eventType) && !Padded(e.eventType)
    && if e.orderingKey == "" then e.sequence == 0 && e.startSequence == 0
       else
         && !Blank(e.orderingKey) && !Padded(e.orderingKey)
         && e.sequence > 0 && 0 <= e.startSequence <= e.sequence
         && (e.messageKey == "" || e.messageKey == e.orderingKey)
  }

  datatype EnqueueResult =
    | Enqueued(db: Db)
    | InvalidEvent
    | OrderingConflict
    | SequenceAlreadyPassed
    | DuplicateSequence
    | DuplicateId

  /** The row a stream position is occupied by, if any. */
  predicate Occupies(e: Event, k: StreamKey, n: int) {
    e.destination == k.destination && e.key == Some(k.key) && e.sequence == Some(n)
  }

  predicate SlotTaken(events: map<Id, Event>, k: StreamKey, n: int) {
    exists id :: id in events && Occupies(events[id], k, n)
  }

  function FreshRow(db: Db, e: NewEvent): Event {
    Event(e.destination, e.messageKey, None, None, None, Pending, 0,
          if e.availableAt.Some? then e.availableAt.value else db.now, db.now, None, None, None)
  }

  /** Writer.Enqueue in a transaction that commits exactly when it succeeds. */
  function Enqueue(part: StreamKey -> nat, db: Db, id: Id, e: NewEvent): EnqueueResult {
    if !ValidEvent(e) then InvalidEvent
    else if e.orderingKey == "" then
      if id in db.events then DuplicateId
      else Enqueued(db.(events := db.events[id := FreshRow(db, e)]))
    else
      var k := StreamKey(e.destination, e.orderingKey);
      var start := if e.startSequence == 0 then 1 else e.startSequence;
      var stream := if k in db.streams then db.streams[k] else Stream(part(k), start, start);
      if stream.partition != part(k) then OrderingConflict
      else if e.startSequence > 0 && stream.start != e.startSequence then OrderingConflict
      else if e.sequence < stream.next then SequenceAlreadyPassed
      else if id in db.events then DuplicateId
      else if SlotTaken(db.events, k, e.sequence) then DuplicateSequence
      else
        var row := FreshRow(db, e).(messageKey := e.orderingKey, key := Some(e.orderingKey),
                                    sequence := Some(e.sequence), partition := Some(part(k)));
        Enqueued(db.(streams := db.streams[k := stream], events := db.events[id := row]))
  }

  // ---------------------------------------------------------------- partitions

  predicate HandoffPassed(p: Partition, now: Time) {
    p.handoff.None? || p.handoff.value <= now
  }

  /** The lease and barrier every ordered claim and attempt must hold. */
  predicate Held(p: Partition, owner: string, now: Time, minimum: Time) {
    p.owner == Some(owner) && p.leaseUntil.Some? && p.leaseUntil.value >= now + minimum && HandoffPassed(p, now)
  }

  /** The lease, epoch and barrier every ordered result must still hold. */
  predicate Fenced(p: Partition, owner: string, epoch: int, now: Time) {
    p.owner == Some(owner) && p.epoch == epoch && p.leaseUntil.Some? && p.leaseUntil.value > now
      && HandoffPassed(p, now)
  }

  function ReleaseBarrier(now: Time, existing: Option<Time>, publishMs: Option<int>, margin: Time): (barrier: Time)
    ensures existing.Some? ==> existing.value <= barrier
    ensures now + (if publishMs.Some? then publishMs.value * MILLISECOND else 0) + margin <= barrier
    ensures
      || existing == Some(barrier)
      || barrier == now + (if publishMs.Some? then publishMs.value * MILLISECOND else 0) + margin
  {
    var barrier := now + (if publishMs.Some? then publishMs.value * MILLISECOND else 0) + margin;
    if existing.Some? && existing.value > barrier then existing.value else barrier
  }

  predicate ValidLease(p: Partition, now: Time) {
    p.owner.Some? && p.leaseUntil.Some? && p.leaseUntil.value > now
  }

  /** What one pass of the reconciliation loop does with a partition row. */
  datatype Verdict = Released | Renewed | Acquired | Kept

  function VerdictOf(p: Partition, desired: Option<string>, owner: string, now: Time): Verdict {
    if p.owner == Some(owner) && desired != Some(owner) then Released
    else if desired == Some(owner) && p.owner == Some(owner) && ValidLease(p, now) then Renewed
    else if desired == Some(owner) && (p.owner.None? || (p.leaseUntil.Some? && p.leaseUntil.value <= now)) then Acquired
    else Kept
  }

  /** What one pass of the reconciliation loop leaves in one partition row. */
  function ReconcileRow(p: Partition, desired: Option<string>, owner: string, now: Time,
                        lease: Time, publishTimeout: Time, margin: Time): Partition
  {
    match VerdictOf(p, desired, owner, now)
    case Released =>
      p.(owner := None, leaseUntil := None, epoch := p.epoch + 1,
         handoff := Some(ReleaseBarrier(now, p.handoff, p.publishMs, margin)))
    case Renewed => p.(leaseUntil := Some(now + lease), publishMs := Some(IntervalMS(publishTimeout)))
    case Acquired =>
      Partition(Some(owner), Some(now + lease), p.epoch + 1,
                if p.owner.None? then p.handoff else Some(ReleaseBarrier(now, p.handoff, p.publishMs, margin)),
                Some(IntervalMS(publishTimeout)))
    case Kept => p
  }

  /** Relays whose heartbeat, capability and stop mark make them members now. */
  function ActiveMembers(db: Db, staleAfter: Time): set<string> {
    set r | r in db.relays && db.relays[r].capable && !db.relays[r].stopped
            && db.relays[r].heartbeat >= db.now - Whole(staleAfter)
  }

  ghost function Reconcile(score: Ownership.Score, db: Db, owner: string, lease: Time,
                           publishTimeout: Time, staleAfter: Time, margin: Time): Db
  {
    var members := ActiveMembers(db, staleAfter);
    db.(partitions := seq(|db.partitions|, i requires 0 <= i < |db.partitions| =>
      ReconcileRow(db.partitions[i], Ownership.Winner(score, i, members), owner, db.now, lease, publishTimeout,
        margin)))
  }

  /** Shutdown: give up every partition the owner holds, behind a barrier. */
  function ReleaseRow(p: Partition, owner: string, now: Time, margin: Time): Partition {
    if p.owner != Some(owner) then p
    else
      var window := ((if p.publishMs.Some? then p.publishMs.value else 0) + IntervalMS(margin)) * MILLISECOND;
      p.(owner := None, leaseUntil := None, epoch := p.epoch + 1,
         handoff := Some(if p.handoff.Some? then Max(p.handoff.value, now + window) else now + window))
  }

  function Release(db: Db, owner: string, margin: Time): Db {
    db.(partitions := seq(|db.partitions|, i requires 0 <= i < |db.partitions| =>
      ReleaseRow(db.partitions[i], owner, db.now, margin)))
  }

  // ---------------------------------------------------------------- presence

  function Register(db: Db, instance: string, capable: bool): Db {
    db.(relays := db.relays[instance := Presence(db.now, false, capable)])
  }

  function Heartbeat(db: Db, instance: string): Db {
    if instance !in db.relays then db
    else db.(relays := db.relays[instance := db.relays[instance].(heartbeat := db.now, stopped := false)])
  }

  function Stop(db: Db, instance: string): Db {
    if instance !in db.relays then db
    else db.(relays := db.relays[instance := db.relays[instance].(heartbeat := db.now, stopped := true)])
  }

  // ---------------------------------------------------------------- claims

  function RankOf(id: Id, e: Event): Rank {
    Rank(e.availableAt, e.createdAt, id)
  }

  predicate Expired(e: Event, now: Time) {
    e.status == Inflight && e.leaseUntil.Some? && e.leaseUntil.value <= now
  }

  /** The trigger on outbox_events: an ordered row changes hands only to a capable,
      running Relay that holds the row's partition past its barrier. */
  predicate ClaimGuard(db: Db, e: Event, owner: string) {
    || (e.status == Inflight && e.leaseOwner == Some(owner))
    || (&& owner in db.relays && db.relays[owner].capable && !db.relays[owner].stopped
        && e.partition.Some? && 0 <= e.partition.value < |db.partitions|
        && var p := db.partitions[e.partition.value];
           p.owner == Some(owner) && p.leaseUntil.Some? && p.leaseUntil.value > db.now && HandoffPassed(p, db.now))
  }

  predicate AtCursor(db: Db, e: Event) {
    && e.key.Some?
    && var k := StreamKey(e.destination, e.key.value);
       k in db.streams && e.sequence == Some(db.streams[k].next)
  }

  predicate ClaimableInOrder(db: Db, e: Event, owner: string, minimumLease: Time) {
    && AtCursor(db, e)
    && e.partition.Some? && 0 <= e.partition.value < |db.partitions|
    && e.availableAt <= db.now
    && (e.status == Pending || Expired(e, db.now))
    && Held(db.partitions[e.partition.value], owner, db.now, minimumLease)
    && !db.paused
  }

  /** The rows of a scan that the trigger lets the owner take; the others are skipped. */
  function Admitted(db: Db, owner: string, ids: seq<Id>): (r: seq<Id>)
    requires forall i :: 0 <= i < |ids| ==> ids[i] in db.events
    requires forall i, j :: 0 <= i < j < |ids| ==> ids[i] != ids[j]
    ensures forall i :: 0 <= i < |r| ==> r[i] in ids && r[i] in db.events && ClaimGuard(db, db.events[r[i]], owner)
    ensures forall i, j :: 0 <= i < j < |r| ==> r[i] != r[j]
  {
    if ids == [] then []
    else
      var last := ids[|ids| - 1];
      var rest := Admitted(db, owner, ids[..|ids| - 1]);
      if ClaimGuard(db, db.events[last], owner) then rest + [last] else rest
  }

  /** Ids a claim leases, first come first served; locked rows are skipped. */
  ghost function OrderedPicks(db: Db, owner: string, limit: nat, minimumLease: Time, locked: set<Id>): (picks: seq<Id>)
    ensures forall i :: 0 <= i < |picks| ==>
      && picks[i] in db.events && picks[i] !in locked && ClaimableInOrder(db, db.events[picks[i]], owner, minimumLease)
      && ClaimGuard(db, db.events[picks[i]], owner)
    ensures forall i, j :: 0 <= i < j < |picks| ==> picks[i] != picks[j]
  {
    Admitted(db, owner, IdsOf(db, Top(limit, InOrderRanks(db, owner, minimumLease, locked))))
  }

  function InOrderRanks(db: Db, owner: string, minimumLease: Time, locked: set<Id>): (ranks: set<Rank>) {
    set id | id in db.events && id !in locked && ClaimableInOrder(db, db.events[id], owner, minimumLease)
      :: RankOf(id, db.events[id])
  }

  ghost predicate Ranks(db: Db, top: seq<Rank>) {
    && (forall i :: 0 <= i < |top| ==> top[i].id in db.events && top[i] == RankOf(top[i].id, db.events[top[i].id]))
    && (forall i, j :: 0 <= i < j < |top| ==> Before(top[i], top[j]))
  }

  function IdsOf(db: Db, top: seq<Rank>): (ids: seq<Id>)
    requires Ranks(db, top)
    ensures |ids| == |top| && forall i :: 0 <= i < |top| ==> ids[i] == top[i].id
    ensures forall i, j :: 0 <= i < j < |ids| ==> ids[i] != ids[j]
  {
    seq(|top|, i requires 0 <= i < |top| => top[i].id)
  }

  predicate ClaimableFreely(db: Db, e: Event) {
    e.availableAt <= db.now && e.key.None? && !db.paused
  }

  function PendingRanks(db: Db, locked: set<Id>): (ranks: set<Rank>) {
    set id | id in db.events && id !in locked && ClaimableFreely(db, db.events[id]) && db.events[id].status == Pending
      :: RankOf(id, db.events[id])
  }

  function ExpiredRanks(db: Db, locked: set<Id>): (ranks: set<Rank>) {
    set id | id in db.events && id !in locked && ClaimableFreely(db, db.events[id]) && Expired(db.events[id], db.now)
      :: RankOf(id, db.events[id])
  }

  ghost function UnorderedPicks(db: Db, limit: nat, locked: set<Id>): (picks: seq<Id>)
    ensures forall i :: 0 <= i < |picks| ==>
      && picks[i] in db.events && picks[i] !in locked && ClaimableFreely(db, db.events[picks[i]])
      && (db.events[picks[i]].status == Pending || Expired(db.events[picks[i]], db.now))
    ensures forall i, j :: 0 <= i < j < |picks| ==> picks[i] != picks[j]
  {
    SplitScanEqualsSingleScan(limit, PendingRanks(db, locked), ExpiredRanks(db, locked));
    IdsOf(db, SplitTop(limit, PendingRanks(db, locked), ExpiredRanks(db, locked)))
  }

  /** The UPDATE both claims end with. */
  function Lease(db: Db, picks: seq<Id>, owner: string, lease: Time): Db {
    db.(events := map id | id in db.events ::
      if id in picks
      then db.events[id].(status := Inflight, leaseOwner := Some(owner), leaseUntil := Some(db.now + Whole(lease)))
      else db.events[id])
  }

  /** No row gains or loses publish attempts. */
  ghost predicate SameAttempts(events: map<Id, Event>, events': map<Id, Event>) {
    forall id :: id in events' ==> id in events && events'[id].attempts == events[id].attempts
  }

  /** The change is confined to events. */
  predicate OnlyEvents(db: Db, db': Db) {
    OnlyRows(db, db') && db'.streams == db.streams
  }

  /** The change is confined to events and cursors. */
  predicate OnlyRows(db: Db, db': Db) {
    db'.now == db.now && db'.partitions == db.partitions && db'.relays == db.relays && db'.paused == db.paused
  }

  // ---------------------------------------------------------------- ordered results

  function PartitionOf(db: Db, e: Event): (p: Option<Partition>) {
    if e.partition.Some? && 0 <= e.partition.value < |db.partitions| then Some(db.partitions[e.partition.value])
    else None
  }

  function BeginOrderedAttempt(db: Db, id: Id, owner: string, epoch: int, maxAttempts: int,
                               minimumLease: Time): (r: Option<Db>)
    ensures r.Some? ==> OnlyEvents(db, r.value)
  {
    if id !in db.events then None
    else
      var e := db.events[id];
      var p := PartitionOf(db, e);
      if p.Some? && e.leaseOwner == Some(owner) && e.status == Inflight
         && e.leaseUntil.Some? && e.leaseUntil.value > db.now && e.attempts < maxAttempts
         && p.value.epoch == epoch && Held(p.value, owner, db.now, minimumLease)
      then Some(db.(events := db.events[id := e.(attempts := e.attempts + 1)]))
      else None
  }

  /** One statement advances the cursor and marks the event delivered, or does neither. */
  function MarkOrderedDelivered(db: Db, id: Id, owner: string, epoch: int, sequence: int): (r: Option<Db>)
    ensures r.Some? ==> OnlyRows(db, r.value) && SameAttempts(db.events, r.value.events)
  {
    if id !in db.events then None
    else
      var e := db.events[id];
      var p := PartitionOf(db, e);
      if p.Some? && e.key.Some? && e.status == Inflight && e.leaseOwner == Some(owner)
         && e.leaseUntil.Some? && e.leaseUntil.value > db.now && e.sequence == Some(sequence)
         && Fenced(p.value, owner, epoch, db.now)
      then
        var k := StreamKey(e.destination, e.key.value);
        if k in db.streams && Some(db.streams[k].partition) == e.partition && db.streams[k].next == sequence then
          Some(db.(streams := db.streams[k := db.streams[k].(next := sequence + 1)],
                   events := db.events[id := Settled(e).(status := Delivered, deliveredAt := Some(db.now))]))
        else None
      else None
  }

  function Settled(e: Event): Event {
    e.(leaseOwner := None, leaseUntil := None)
  }

  predicate OrderedResultFence(db: Db, id: Id, owner: string, epoch: int, sequence: int) {
    && id in db.events
    && var e := db.events[id];
       var p := PartitionOf(db, e);
       && p.Some? && e.leaseOwner == Some(owner) && e.status == Inflight && e.sequence == Some(sequence)
       && Fenced(p.value, owner, epoch, db.now)
  }

  function MarkOrderedRetry(db: Db, id: Id, owner: string, epoch: int, sequence: int, delay: Time): (r: Option<Db>)
    ensures r.Some? ==> OnlyEvents(db, r.value) && SameAttempts(db.events, r.value.events)
  {
    if !OrderedResultFence(db, id, owner, epoch, sequence) then None
    else
      var row := Settled(db.events[id]).(status := Pending, availableAt := db.now + Whole(delay));
      Some(db.(events := db.events[id := row]))
  }

  function MarkOrderedDead(db: Db, id: Id, owner: string, epoch: int, sequence: int): (r: Option<Db>)
    ensures r.Some? ==> OnlyEvents(db, r.value) && SameAttempts(db.events, r.value.events)
  {
    if !OrderedResultFence(db, id, owner, epoch, sequence) then None
    else Some(db.(events := db.events[id := Settled(db.events[id]).(status := Dead)]))
  }

  // ---------------------------------------------------------------- unordered results

  predicate Owned(db: Db, id: Id, owner: string) {
    id in db.events && db.events[id].leaseOwner == Some(owner) && db.events[id].status == Inflight
  }

  function BeginAttempt(db: Db, id: Id, owner: string, maxAttempts: int): (r: Option<Db>)
    ensures r.Some? ==> OnlyEvents(db, r.value)
  {
    if !Owned(db, id, owner) || db.events[id].attempts >= maxAttempts then None
    else Some(db.(events := db.events[id := db.events[id].(attempts := db.events[id].attempts + 1)]))
  }

  function MarkDelivered(db: Db, id: Id, owner: string): (r: Option<Db>)
    ensures r.Some? ==> OnlyEvents(db, r.value) && SameAttempts(db.events, r.value.events)
  {
    if !Owned(db, id, owner) then None
    else Some(db.(events := db.events[id := Settled(db.events[id]).(status := Delivered, deliveredAt := Some(db.now))]))
  }

  function MarkRetry(db: Db, id: Id, owner: string, delay: Time): (r: Option<Db>)
    ensures r.Some? ==> OnlyEvents(db, r.value) && SameAttempts(db.events, r.value.events)
  {
    if !Owned(db, id, owner) then None
    else
      var row := Settled(db.events[id]).(status := Pending, availableAt := db.now + Whole(delay));
      Some(db.(events := db.events[id := row]))
  }

  function MarkDead(db: Db, id: Id, owner: string): (r: Option<Db>)
    ensures r.Some? ==> OnlyEvents(db, r.value) && SameAttempts(db.events, r.value.events)
  {
    if !Owned(db, id, owner) then None
    else Some(db.(events := db.events[id := Settled(db.events[id]).(status := Dead)]))
  }

  // ---------------------------------------------------------------- operators

  function RetryDead(db: Db, id: Id): Option<Db> {
    if id !in db.events || db.events[id].status != Dead then None
    else
      var row := Settled(db.events[id]).(status := Pending, availableAt := db.now, attempts := 0);
      Some(db.(events := db.events[id := row]))
  }

  /** Replay clones a settled event under a new id; the clone of an ordered event must
      be unordered and never touches a stream. */
  function Replay(db: Db, source: Id, id: Id, unordered: bool): Option<Db> {
    if source !in db.events || id in db.events then None
    else
      var e := db.events[source];
      if !(e.status == Delivered || e.status == Dead) || (e.key.Some? && !unordered) then None
      else Some(db.(events := db.events[id :=
        Event(e.destination, e.messageKey, None, None, None, Pending, 0, db.now, db.now, None, None, None)]))
  }

  /** Retention: the scan's batch is any bounded set of unlocked rows. */
  function CleanupDelivered(db: Db, retention: Time, batch: set<Id>): Db {
    if retention <= 0 then db
    else db.(events := map id | id in db.events && !(id in batch && Doomed(db, id, retention)) :: db.events[id])
  }

  predicate Doomed(db: Db, id: Id, retention: Time)
    requires id in db.events
  {
    var e := db.events[id];
    e.status == Delivered && e.deliveredAt.Some? && e.deliveredAt.value < db.now - Whole(retention)
  }
}
