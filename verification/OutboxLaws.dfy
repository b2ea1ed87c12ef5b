/** What each statement on the outbox does, told by the columns it reads and writes: when
    it takes effect, for every row and every caller, and what it leaves alone. */
module OutboxLaws {
  import opened Types
  import opened Selection
  import opened Tables
  import opened Protocol
  import Ownership

  // ---------------------------------------------------------------- claims

  /** No Relay is at work on the row, by its columns: it waits, or its lease has run out. */
  predicate Unleased(e: Event, now: Time) {
    e.status == Pending || (e.status == Inflight && e.leaseUntil.Some? && e.leaseUntil.value <= now)
  }

  /** Claim order: first available, then first created, then by id. */
  predicate Earlier(events: map<Id, Event>, a: Id, b: Id)
    requires a in events && b in events
  {
    var x, y := events[a], events[b];
    if x.availableAt != y.availableAt then x.availableAt < y.availableAt
    else if x.createdAt != y.createdAt then x.createdAt < y.createdAt
    else a < b
  }

  /** The partition's row lets this Relay claim for at least this long. */
  predicate Claims(p: Partition, owner: string, now: Time, minimum: Time) {
    && p.owner == Some(owner) && p.leaseUntil.Some? && now + minimum <= p.leaseUntil.value
    && (p.handoff.None? || p.handoff.value <= now)
  }

  /** Ordered rows an owner could take: due, at their cursor, in a partition it holds. */
  function InTurn(db: Db, owner: string, minimum: Time, locked: set<Id>): set<Id> {
    set id | id in db.events && id !in locked && !db.paused
      && var e := db.events[id];
         && e.key.Some? && e.sequence.Some? && e.partition.Some?
         && StreamKey(e.destination, e.key.value) in db.streams
         && db.streams[StreamKey(e.destination, e.key.value)].next == e.sequence.value
         && e.availableAt <= db.now && Unleased(e, db.now)
         && 0 <= e.partition.value < |db.partitions|
         && Claims(db.partitions[e.partition.value], owner, db.now, minimum)
  }

  /** Unordered rows anyone could take. */
  function Takeable(db: Db, locked: set<Id>): set<Id> {
    set id | id in db.events && id !in locked && !db.paused
      && db.events[id].key.None? && db.events[id].availableAt <= db.now && Unleased(db.events[id], db.now)
  }

  function Before(db: Db, ids: set<Id>, id: Id): set<Id>
    requires id in db.events && forall j :: j in ids ==> j in db.events
  {
    set j | j in ids && Earlier(db.events, j, id)
  }

  /** The database lets a Relay that is listed as capable and running change the row's hands. */
  predicate Listed(db: Db, owner: string) {
    owner in db.relays && db.relays[owner].capable && !db.relays[owner].stopped
  }

  function RanksOf(db: Db, ids: set<Id>): set<Rank>
    requires forall j :: j in ids ==> j in db.events
  {
    set j | j in ids :: RankOf(j, db.events[j])
  }

  lemma {:induction false} RanksCount(db: Db, ids: set<Id>)
    requires forall j :: j in ids ==> j in db.events
    ensures |RanksOf(db, ids)| == |ids|
    decreases |ids|
  {
    if ids != {} {
      var j :| j in ids;
      RanksCount(db, ids - {j});
      assert RanksOf(db, ids) == RanksOf(db, ids - {j}) + {RankOf(j, db.events[j])};
    }
  }

  lemma AheadCount(db: Db, ids: set<Id>, id: Id)
    requires id in db.events && forall j :: j in ids ==> j in db.events
    ensures |Ahead(RanksOf(db, ids), RankOf(id, db.events[id]))| == |Before(db, ids, id)|
  {
    RanksCount(db, Before(db, ids, id));
    assert Ahead(RanksOf(db, ids), RankOf(id, db.events[id])) == RanksOf(db, Before(db, ids, id));
  }

  lemma RankIn(db: Db, ids: set<Id>, id: Id)
    requires id in db.events && forall j :: j in ids ==> j in db.events
    ensures RankOf(id, db.events[id]) in RanksOf(db, ids) <==> id in ids
  {}

  lemma {:induction false} AdmittedIff(db: Db, owner: string, ids: seq<Id>, id: Id)
    requires forall i :: 0 <= i < |ids| ==> ids[i] in db.events
    requires forall i, j :: 0 <= i < j < |ids| ==> ids[i] != ids[j]
    ensures id in Admitted(db, owner, ids) <==> id in ids && ClaimGuard(db, db.events[id], owner)
  {
    if ids != [] { AdmittedIff(db, owner, ids[..|ids| - 1], id); }
  }

  /** An ordered claim takes a row exactly when the row is in turn, fewer than the limit are in
      turn before it, and the Relay is listed or takes its own lapsed row again. */
  lemma OrderedClaimTakesIff(db: Db, owner: string, limit: nat, minimum: Time, locked: set<Id>, id: Id)
    requires minimum > 0
    ensures id in OrderedPicks(db, owner, limit, minimum, locked) <==>
      && id in InTurn(db, owner, minimum, locked)
      && |Before(db, InTurn(db, owner, minimum, locked), id)| < limit
      && (Listed(db, owner) || (db.events[id].status == Inflight && db.events[id].leaseOwner == Some(owner)))
  {
    if id in db.events {
      var ids := InTurn(db, owner, minimum, locked);
      var ranks := InOrderRanks(db, owner, minimum, locked);
      assert ranks == RanksOf(db, ids);
      TopIff(limit, ranks, RankOf(id, db.events[id]));
      AheadCount(db, ids, id);
      RankIn(db, ids, id);
      ScannedIff(db, limit, ranks, id);
      AdmittedIff(db, owner, IdsOf(db, Top(limit, ranks)), id);
    }
  }

  lemma ScannedIff(db: Db, limit: nat, ranks: set<Rank>, id: Id)
    requires id in db.events && Ranks(db, Top(limit, ranks))
    ensures id in IdsOf(db, Top(limit, ranks)) <==> RankOf(id, db.events[id]) in Top(limit, ranks)
  {
    var top := Top(limit, ranks);
    if RankOf(id, db.events[id]) in top {
      var i :| 0 <= i < |top| && top[i] == RankOf(id, db.events[id]);
      assert IdsOf(db, top)[i] == id;
    }
  }

  /** An unordered claim takes a row exactly when anyone could and fewer than the limit of
      such rows come before it. */
  lemma UnorderedClaimTakesIff(db: Db, limit: nat, locked: set<Id>, id: Id)
    ensures id in UnorderedPicks(db, limit, locked) <==>
      id in Takeable(db, locked) && |Before(db, Takeable(db, locked), id)| < limit
  {
    if id in db.events {
      var ids := Takeable(db, locked);
      var pending, expired := PendingRanks(db, locked), ExpiredRanks(db, locked);
      assert pending + expired == RanksOf(db, ids);
      SplitScanEqualsSingleScan(limit, pending, expired);
      TopIff(limit, pending + expired, RankOf(id, db.events[id]));
      AheadCount(db, ids, id);
      RankIn(db, ids, id);
      ScannedIff(db, limit, pending + expired, id);
    }
  }

  /** What a claim does to a row it takes: it is inflight for the caller until the lease ends. */
  predicate TakenBy(e: Event, e': Event, owner: string, now: Time, lease: Time) {
    && e'.status == Inflight && e'.leaseOwner == Some(owner) && e'.leaseUntil == Some(now + Whole(lease))
    && e'.attempts == e.attempts && e'.availableAt == e.availableAt && e'.createdAt == e.createdAt
    && e'.deliveredAt == e.deliveredAt && e'.destination == e.destination && e'.messageKey == e.messageKey
    && e'.key == e.key && e'.sequence == e.sequence && e'.partition == e.partition
  }

  lemma LeaseTakes(db: Db, picks: seq<Id>, owner: string, lease: Time, id: Id)
    requires id in db.events
    ensures var db' := Lease(db, picks, owner, lease);
      && db' == db.(events := db'.events) && db'.events.Keys == db.events.Keys
      && if id in picks then TakenBy(db.events[id], db'.events[id], owner, db.now, lease)
         else db'.events[id] == db.events[id]
  {}

  /** No claim touches a row whose lease is still running, whoever holds it and whoever claims;
      nor a settled row, nor one that is not due, nor anything while the Relays are paused. */
  lemma ClaimsLeaveBusyRowsAlone(env: Env, w: World, step: Step, id: Id)
    requires ValidEnv(env) && ClaimStep(step) && id in w.db.events && Busy(w.db, id, step.locked)
    ensures var w' := Apply(env, w, step); id in w'.db.events && w'.db.events[id] == w.db.events[id]
  {
    assert Apply(env, w, step) == Dispatch(env, w, step.owner, Picks(env, w, step));
    BusyRowsAreNotPicked(env, w, step, id);
    LeaseTakes(w.db, Picks(env, w, step), step.owner, env.cfg(step.owner).eventLease, id);
  }

  /** A row no claim may touch. */
  predicate Busy(db: Db, id: Id, locked: set<Id>)
    requires id in db.events
  {
    var e := db.events[id];
    || (e.status == Inflight && e.leaseUntil.Some? && db.now < e.leaseUntil.value)
    || e.status == Delivered || e.status == Dead || db.now < e.availableAt || db.paused || id in locked
  }

  lemma BusyRowsAreNotPicked(env: Env, w: World, step: Step, id: Id)
    requires ValidEnv(env) && ClaimStep(step) && id in w.db.events && Busy(w.db, id, step.locked)
    ensures id !in Picks(env, w, step)
  {
    if step.ClaimOrdered? {
      assert env.cfg(step.owner).Valid();
      OrderedClaimTakesIff(w.db, step.owner, step.limit, env.cfg(step.owner).PublishWindow(), step.locked, id);
    } else {
      UnorderedClaimTakesIff(w.db, step.limit, step.locked, id);
    }
  }

  // ---------------------------------------------------------------- attempts and results

  /** The row is inflight for this Relay. */
  predicate HeldBy(db: Db, id: Id, owner: string) {
    id in db.events && db.events[id].status == Inflight && db.events[id].leaseOwner == Some(owner)
  }

  predicate LeaseRuns(db: Db, id: Id)
    requires id in db.events
  {
    db.events[id].leaseUntil.Some? && db.now < db.events[id].leaseUntil.value
  }

  /** The row's partition is held by this Relay under this epoch, past its barrier, and its
      lease lasts at least until then. */
  predicate InEpoch(db: Db, id: Id, owner: string, epoch: int, until: Time)
    requires id in db.events
  {
    && db.events[id].partition.Some? && 0 <= db.events[id].partition.value < |db.partitions|
    && var p := db.partitions[db.events[id].partition.value];
       && p.owner == Some(owner) && p.epoch == epoch && p.leaseUntil.Some? && until <= p.leaseUntil.value
       && (p.handoff.None? || p.handoff.value <= db.now)
  }

  /** Only this row changes. */
  predicate OnlyRow(db: Db, db': Db, id: Id) {
    && id in db.events && id in db'.events
    && db' == db.(events := db.events[id := db'.events[id]])
    && var e, e' := db.events[id], db'.events[id];
       && e'.destination == e.destination && e'.messageKey == e.messageKey && e'.createdAt == e.createdAt
       && e'.key == e.key && e'.sequence == e.sequence && e'.partition == e.partition
  }

  /** The lease and its times stay as they were. */
  predicate SameLease(e: Event, e': Event) {
    && e'.status == e.status && e'.leaseOwner == e.leaseOwner && e'.leaseUntil == e.leaseUntil
    && e'.availableAt == e.availableAt && e'.deliveredAt == e.deliveredAt
  }

  lemma OrderedAttemptBeginsIff(db: Db, id: Id, owner: string, epoch: int, maxAttempts: int, minimum: Time)
    ensures var r := BeginOrderedAttempt(db, id, owner, epoch, maxAttempts, minimum);
      && (r.Some? <==>
            && HeldBy(db, id, owner) && LeaseRuns(db, id) && db.events[id].attempts < maxAttempts
            && InEpoch(db, id, owner, epoch, db.now + minimum))
      && (r.Some? ==> OnlyRow(db, r.value, id) && SameLease(db.events[id], r.value.events[id])
                      && r.value.events[id].attempts == db.events[id].attempts + 1)
  {}

  lemma UnorderedAttemptBeginsIff(db: Db, id: Id, owner: string, maxAttempts: int)
    ensures var r := BeginAttempt(db, id, owner, maxAttempts);
      && (r.Some? <==> HeldBy(db, id, owner) && db.events[id].attempts < maxAttempts)
      && (r.Some? ==> OnlyRow(db, r.value, id) && SameLease(db.events[id], r.value.events[id])
                      && r.value.events[id].attempts == db.events[id].attempts + 1)
  {}

  /** The row is settled: nobody leases it any more, and its attempts stand. */
  predicate SettledAs(e: Event, e': Event, status: Status) {
    e'.status == status && e'.leaseOwner.None? && e'.leaseUntil.None? && e'.attempts == e.attempts
  }

  predicate DeliveredAt(e: Event, e': Event, now: Time) {
    SettledAs(e, e', Delivered) && e'.deliveredAt == Some(now) && e'.availableAt == e.availableAt
  }

  predicate RetriedAt(e: Event, e': Event, at: Time) {
    SettledAs(e, e', Pending) && e'.availableAt == at && e'.deliveredAt == e.deliveredAt
  }

  predicate Buried(e: Event, e': Event) {
    SettledAs(e, e', Dead) && e'.availableAt == e.availableAt && e'.deliveredAt == e.deliveredAt
  }

  /** The stream of this row expects exactly this sequence, in the row's own partition. */
  predicate AtItsCursor(db: Db, id: Id, sequence: int)
    requires id in db.events
  {
    && db.events[id].key.Some? && db.events[id].partition.Some?
    && var k := StreamKey(db.events[id].destination, db.events[id].key.value);
       k in db.streams && db.streams[k].next == sequence && db.streams[k].partition == db.events[id].partition.value
  }

  /** The cursor of one stream moves by one; nothing else about any stream does. */
  predicate CursorMoves(db: Db, db': Db, k: StreamKey) {
    && k in db.streams && k in db'.streams
    && db'.streams == db.streams[k := Stream(db.streams[k].partition, db.streams[k].start, db.streams[k].next + 1)]
  }

  /** An ordered delivery takes effect exactly while the event's own lease runs, for its holder,
      in its epoch, at its cursor; then row and cursor move together. */
  lemma OrderedDeliveryIff(db: Db, id: Id, owner: string, epoch: int, sequence: int)
    ensures var r := MarkOrderedDelivered(db, id, owner, epoch, sequence);
      && (r.Some? <==>
            && HeldBy(db, id, owner) && LeaseRuns(db, id) && db.events[id].sequence == Some(sequence)
            && AtItsCursor(db, id, sequence) && InEpoch(db, id, owner, epoch, db.now + 1))
      && (r.Some? ==>
            && OnlyRow(db, r.value.(streams := db.streams), id)
            && DeliveredAt(db.events[id], r.value.events[id], db.now)
            && CursorMoves(db, r.value, StreamKey(db.events[id].destination, db.events[id].key.value)))
  {}

  lemma OrderedRetryIff(db: Db, id: Id, owner: string, epoch: int, sequence: int, delay: Time)
    ensures var r := MarkOrderedRetry(db, id, owner, epoch, sequence, delay);
      && (r.Some? <==>
            && HeldBy(db, id, owner) && db.events[id].sequence == Some(sequence)
            && InEpoch(db, id, owner, epoch, db.now + 1))
      && (r.Some? ==> OnlyRow(db, r.value, id) && RetriedAt(db.events[id], r.value.events[id], db.now + Whole(delay)))
  {}

  lemma OrderedBurialIff(db: Db, id: Id, owner: string, epoch: int, sequence: int)
    ensures var r := MarkOrderedDead(db, id, owner, epoch, sequence);
      && (r.Some? <==>
            && HeldBy(db, id, owner) && db.events[id].sequence == Some(sequence)
            && InEpoch(db, id, owner, epoch, db.now + 1))
      && (r.Some? ==> OnlyRow(db, r.value, id) && Buried(db.events[id], r.value.events[id]))
  {}

  /** Unordered results ask only who holds the row. */
  lemma UnorderedResultsIff(db: Db, id: Id, owner: string, delay: Time)
    ensures var r := Tables.MarkDelivered(db, id, owner);
      && (r.Some? <==> HeldBy(db, id, owner))
      && (r.Some? ==> OnlyRow(db, r.value, id) && DeliveredAt(db.events[id], r.value.events[id], db.now))
    ensures var r := Tables.MarkRetry(db, id, owner, delay);
      && (r.Some? <==> HeldBy(db, id, owner))
      && (r.Some? ==> OnlyRow(db, r.value, id) && RetriedAt(db.events[id], r.value.events[id], db.now + Whole(delay)))
    ensures var r := Tables.MarkDead(db, id, owner);
      && (r.Some? <==> HeldBy(db, id, owner))
      && (r.Some? ==> OnlyRow(db, r.value, id) && Buried(db.events[id], r.value.events[id]))
  {}

  // ---------------------------------------------------------------- operators and retention

  lemma RevivalIff(db: Db, id: Id)
    ensures var r := Tables.RetryDead(db, id);
      && (r.Some? <==> id in db.events && db.events[id].status == Dead)
      && (r.Some? ==>
            && OnlyRow(db, r.value, id)
            && var e' := r.value.events[id];
               && e'.status == Pending && e'.attempts == 0 && e'.availableAt == db.now
               && e'.leaseOwner.None? && e'.leaseUntil.None? && e'.deliveredAt == db.events[id].deliveredAt)
  {}

  /** A replay adds one fresh, unordered, due row for the same destination and key. */
  lemma ReplayIff(db: Db, source: Id, id: Id, unordered: bool)
    ensures var r := Tables.Replay(db, source, id, unordered);
      && (r.Some? <==>
            && source in db.events && id !in db.events
            && db.events[source].status != Pending && db.events[source].status != Inflight
            && (db.events[source].key.None? || unordered))
      && (r.Some? ==>
            && id in r.value.events && r.value == db.(events := db.events[id := r.value.events[id]])
            && var e, e' := db.events[source], r.value.events[id];
               && e'.destination == e.destination && e'.messageKey == e.messageKey
               && e'.key.None? && e'.sequence.None? && e'.partition.None?
               && e'.status == Pending && e'.attempts == 0 && e'.availableAt == db.now && e'.createdAt == db.now
               && e'.leaseOwner.None? && e'.leaseUntil.None? && e'.deliveredAt.None?)
  {}

  /** Retention removes a row exactly when it is in the batch and was delivered long enough ago. */
  lemma CleanupRemovesIff(db: Db, retention: Time, batch: set<Id>, id: Id)
    requires id in db.events
    ensures var db' := CleanupDelivered(db, retention, batch);
      && db' == db.(events := db'.events) && (id in db'.events ==> db'.events[id] == db.events[id])
      && db'.events.Keys <= db.events.Keys
      && (id !in db'.events <==>
            && retention > 0 && id in batch && db.events[id].status == Delivered
            && db.events[id].deliveredAt.Some? && db.events[id].deliveredAt.value + Whole(retention) < db.now)
  {}

  // ---------------------------------------------------------------- presence

  /** Registering lists a Relay afresh, a heartbeat keeps what it can do, stopping marks it;
      each shows the Relay at this instant and concerns nobody else. */
  lemma PresenceSteps(db: Db, r: string, capable: bool)
    ensures Tables.Register(db, r, capable) == db.(relays := db.relays[r := Presence(db.now, false, capable)])
    ensures var db' := Tables.Heartbeat(db, r);
      if r in db.relays then db' == db.(relays := db.relays[r := Presence(db.now, false, db.relays[r].capable)])
      else db' == db
    ensures var db' := Tables.Stop(db, r);
      if r in db.relays then db' == db.(relays := db.relays[r := Presence(db.now, true, db.relays[r].capable)])
      else db' == db
  {}
}
