/** The integrity verifier against the protocol: on every reachable state its checks find
    no violation, and the three stream classifiers tell the same story. */
module Soundness {
  import opened Types
  import opened Selection
  import opened Tables
  import opened Protocol
  import opened Consistency
  import opened Windows
  import Inbox
  import Integrity

  // ---------------------------------------------------------------- what the queries return

  function TextOf(status: Status): Integrity.StatusText {
    match status
    case Pending => Integrity.Pending
    case Inflight => Integrity.Inflight
    case Delivered => Integrity.Delivered
    case Dead => Integrity.Dead
  }

  function EventRowOf(db: Db, e: Event): Integrity.EventRow {
    var next := if e.key.Some? && StreamKey(e.destination, e.key.value) in db.streams
                then Some(db.streams[StreamKey(e.destination, e.key.value)].next) else None;
    Integrity.EventRow(e.destination, TextOf(e.status), e.leaseUntil, e.key, e.sequence, e.partition, next)
  }

  function PartitionRowOf(db: Db, i: nat, updatedAt: Option<Time>): Integrity.PartitionRow
    requires i < |db.partitions|
  {
    var p := db.partitions[i];
    var relay := if p.owner.Some? && p.owner.value in db.relays
                 then var r := db.relays[p.owner.value]; Some((r.heartbeat, r.stopped, r.capable)) else None;
    Integrity.PartitionRow(i, p.owner, p.leaseUntil, p.epoch, p.handoff, p.publishMs, updatedAt, relay)
  }

  function InboxText(status: Inbox.Status): Integrity.StatusText {
    match status
    case Pending => Integrity.Pending
    case Inflight => Integrity.Inflight
    case RetryWait => Integrity.RetryWaiting
    case Processed => Integrity.Processed
    case Dead => Integrity.Dead
  }

  /** Tokens are shown as text; any rendering that is not blank will do. */
  function InboxRowOf(row: Inbox.Row, text: nat -> string): Integrity.InboxRow {
    Integrity.InboxRow(InboxText(row.status), row.attempts, row.processedAt, row.leaseOwner,
      if row.token.Some? then Some(text(row.token.value)) else None, row.leaseUntil,
      if row.source.Some? then Some(row.source.value.topic) else None,
      if row.source.Some? then Some(row.source.value.partition) else None,
      if row.source.Some? then Some(row.source.value.offset) else None, row.sourceTimestamp)
  }

  // ---------------------------------------------------------------- aggregates over a stream's rows

  ghost predicate IsLeast(m: int, s: set<int>) {
    m in s && forall x :: x in s ==> m <= x
  }

  lemma HasMember(s: set<int>)
    ensures s == {} || exists a: int :: a in s
  {
    if forall a: int :: a !in s { assert s == {}; }
  }

  lemma {:induction false} LeastExists(s: set<int>)
    requires s != {}
    ensures exists m :: IsLeast(m, s)
  {
    HasMember(s);
    var a: int :| a in s;
    var rest := s - {a};
    if rest == {} {
      assert s == {a};
      assert IsLeast(a, s);
    } else {
      LeastExists(rest);
      var m :| IsLeast(m, rest);
      forall x | x in s ensures Min(a, m) <= x { assert x == a || x in rest; }
      assert IsLeast(Min(a, m), s);
    }
  }

  /** SQL MIN: absent over no rows. */
  ghost function Least(s: set<int>): (m: Option<int>)
    ensures m.None? <==> s == {}
    ensures m.Some? ==> IsLeast(m.value, s)
  {
    if s == {} then None
    else
      LeastExists(s);
      var m :| IsLeast(m, s);
      Some(m)
  }

  predicate Retained(e: Event) {
    e.status != Delivered
  }

  /** Active rows of a stream at one sequence. */
  function ActiveAt(events: Events, k: StreamKey, n: int): set<Id> {
    set id | id in events && Occupies(events[id], k, n) && Retained(events[id])
  }

  function AnyAt(events: Events, k: StreamKey, n: int): set<Id> {
    set id | id in events && Occupies(events[id], k, n)
  }

  predicate Ahead(e: Event, k: StreamKey, n: int) {
    e.destination == k.destination && e.key == Some(k.key) && e.sequence.Some? && e.sequence.value > n
  }

  function ActiveAhead(events: Events, k: StreamKey, n: int): set<int> {
    set id | id in events && Ahead(events[id], k, n) && Retained(events[id]) :: events[id].sequence.value
  }

  function AnyAhead(events: Events, k: StreamKey, n: int): set<int> {
    set id | id in events && Ahead(events[id], k, n) :: events[id].sequence.value
  }

  /** MIN over status text, which sorts dead, inflight, pending. */
  function LeastStatus(statuses: set<Status>): Option<Integrity.StatusText> {
    if Dead in statuses then Some(Integrity.Dead)
    else if Inflight in statuses then Some(Integrity.Inflight)
    else if Pending in statuses then Some(Integrity.Pending)
    else None
  }

  /** The verifier's query looks at active rows only, and aggregates them. */
  ghost function ObservationOf(db: Db, k: StreamKey): Integrity.CursorObservation
    requires k in db.streams
  {
    var s := db.streams[k];
    var expected := ActiveAt(db.events, k, s.next);
    Integrity.CursorObservation(s.start, s.next, |expected|,
      LeastStatus(set id | id in expected :: db.events[id].status),
      Least(set id | id in expected :: db.events[id].availableAt),
      Least(ActiveAhead(db.events, k, s.next)))
  }

  ghost function StreamRowOf(db: Db, k: StreamKey): Integrity.StreamRow
    requires k in db.streams
  {
    Integrity.StreamRow(k, db.streams[k].partition, ObservationOf(db, k))
  }

  /** The CASE expression of the admin API and of the soak runner: one row at the cursor
      and the lowest sequence ahead of it, whatever their status. */
  function SqlState(now: Time, next: Option<Event>, future: Option<int>): Integrity.StreamState {
    if next.Some? && next.value.status == Dead then Integrity.DeadBlocked
    else if next.Some? && next.value.status == Inflight then Integrity.InflightState
    else if next.Some? && next.value.status == Pending && next.value.availableAt > now then Integrity.RetryWait
    else if next.Some? then Integrity.Ready
    else if future.Some? then Integrity.Gap
    else Integrity.Ready
  }

  /** LIMIT 1 may return any row at the cursor. */
  predicate NextRow(db: Db, k: StreamKey, next: Option<Event>)
    requires k in db.streams
  {
    var at := AnyAt(db.events, k, db.streams[k].next);
    if next.None? then at == {} else exists id :: id in at && db.events[id] == next.value
  }

  function IdleIsReady(state: Integrity.StreamState): Integrity.StreamState {
    if state == Integrity.Idle then Integrity.Ready else state
  }

  // ---------------------------------------------------------------- at most one row per position

  lemma OneRowAt(env: Env, events: Events, streams: Streams, k: StreamKey, n: int, a: Id, b: Id)
    requires Rows(env, events, streams) && a in AnyAt(events, k, n) && b in AnyAt(events, k, n)
    ensures a == b
  {}

  /** At and beyond the cursor every row is active. */
  lemma NothingDeliveredAhead(env: Env, db: Db, k: StreamKey)
    requires Rows(env, db.events, db.streams) && k in db.streams
    ensures ActiveAt(db.events, k, db.streams[k].next) == AnyAt(db.events, k, db.streams[k].next)
    ensures ActiveAhead(db.events, k, db.streams[k].next) == AnyAhead(db.events, k, db.streams[k].next)
  {}

  lemma ExpectedIsUnique(env: Env, db: Db, k: StreamKey)
    requires Rows(env, db.events, db.streams) && k in db.streams
    ensures |AnyAt(db.events, k, db.streams[k].next)| <= 1
  {
    var at := AnyAt(db.events, k, db.streams[k].next);
    if at != {} {
      var a :| a in at;
      forall b | b in at ensures b == a { OneRowAt(env, db.events, db.streams, k, db.streams[k].next, a, b); }
      assert at == {a};
    }
  }

  // ---------------------------------------------------------------- the classifiers agree

  lemma Classified(env: Env, db: Db, k: StreamKey, next: Option<Event>)
    requires Rows(env, db.events, db.streams) && k in db.streams && NextRow(db, k, next)
    ensures SqlState(db.now, next, Least(AnyAhead(db.events, k, db.streams[k].next)))
         == IdleIsReady(Integrity.ClassifyCursor(db.now, ObservationOf(db, k)))
  {
    NothingDeliveredAhead(env, db, k);
    var at := AnyAt(db.events, k, db.streams[k].next);
    if next.Some? {
      var id :| id in at && db.events[id] == next.value;
      forall b | b in at ensures b == id { OneRowAt(env, db.events, db.streams, k, db.streams[k].next, id, b); }
      assert at == {id};
      assert RowOk(db.streams, db.events[id]);
      assert (set i | i in at :: db.events[i].status) == {next.value.status};
      assert (set i | i in at :: db.events[i].availableAt) == {next.value.availableAt};
    }
  }

  /** The verifier, the admin API and the soak runner classify every stream alike. */
  lemma ClassifiersAgree(env: Env, w: World, a: Assumed, k: StreamKey, next: Option<Event>)
    requires ValidEnv(env) && Reachable(env, w, a) && k in w.db.streams && NextRow(w.db, k, next)
    ensures SqlState(w.db.now, next, Least(AnyAhead(w.db.events, k, w.db.streams[k].next)))
         == IdleIsReady(Integrity.ClassifyCursor(w.db.now, ObservationOf(w.db, k)))
  {
    ReachableIsSound(env, w, a);
    Classified(env, w.db, k, next);
  }

  // ---------------------------------------------------------------- no violation is reachable

  lemma EventIsSound(env: Env, db: Db, id: Id)
    requires Rows(env, db.events, db.streams) && id in db.events
    ensures Integrity.EventPasses(env.part, EventRowOf(db, db.events[id]))
  {}

  lemma StreamIsSound(env: Env, db: Db, k: StreamKey)
    requires Rows(env, db.events, db.streams) && k in db.streams
    ensures Integrity.StreamPasses(env.part, StreamRowOf(db, k))
  {
    assert StreamOk(env, k, db.streams[k]);
    NothingDeliveredAhead(env, db, k);
    ExpectedIsUnique(env, db, k);
  }

  lemma PartitionIsSound(env: Env, db: Db, i: nat, updatedAt: Option<Time>)
    requires Partitions(env, db.now, db.partitions) && i < |db.partitions|
    ensures Integrity.PartitionPasses(PartitionRowOf(db, i, updatedAt))
  {}

  lemma InboxIsSound(s: Inbox.State, key: Inbox.Key, text: nat -> string)
    requires Inbox.Sound(s) && key in s.rows && forall t :: !Blank(text(t))
    ensures Integrity.InboxPasses(InboxRowOf(s.rows[key], text))
  {}

  /** The findings of the four table checks, one after the other, over chosen rows. */
  ghost function FullReport(env: Env, w: World, s: Inbox.State, now: Time, staleAfter: Time, longAfter: Time,
                            ids: seq<Id>, keys: seq<StreamKey>,
                            updatedAt: Option<Time>, inboxKeys: seq<Inbox.Key>, text: nat -> string)
    : seq<Integrity.Finding>
    requires forall i :: 0 <= i < |ids| ==> ids[i] in w.db.events
    requires forall i :: 0 <= i < |keys| ==> keys[i] in w.db.streams
    requires forall i :: 0 <= i < |inboxKeys| ==> inboxKeys[i] in s.rows
  {
    var partitions := PartitionRows(w.db, updatedAt);
    var a := Integrity.SeedNoted(Integrity.PartitionsNoted(now, staleAfter, longAfter, [], partitions),
      Integrity.IdsSeen(partitions));
    var b := Integrity.EventsNoted(env.part, now, a,
      seq(|ids|, i requires 0 <= i < |ids| => EventRowOf(w.db, w.db.events[ids[i]])));
    var c := Integrity.InboxRowsNoted(now, b,
      seq(|inboxKeys|, i requires 0 <= i < |inboxKeys| => InboxRowOf(s.rows[inboxKeys[i]], text)));
    Integrity.StreamsNoted(env.part, now, c, seq(|keys|, i requires 0 <= i < |keys| => StreamRowOf(w.db, keys[i])))
  }

  function PartitionRows(db: Db, updatedAt: Option<Time>): seq<Integrity.PartitionRow> {
    seq(|db.partitions|, i requires 0 <= i < |db.partitions| => PartitionRowOf(db, i, updatedAt))
  }

  lemma PartitionsAreSound(env: Env, db: Db, now: Time, staleAfter: Time, longAfter: Time, updatedAt: Option<Time>)
    requires Partitions(env, db.now, db.partitions)
    ensures var rows := PartitionRows(db, updatedAt);
      Integrity.NoViolations(Integrity.SeedNoted(Integrity.PartitionsNoted(now, staleAfter, longAfter, [], rows),
        Integrity.IdsSeen(rows)))
  {
    var rows := PartitionRows(db, updatedAt);
    AllPartitionsPass(env, db, updatedAt);
    Integrity.PartitionsPassIff(now, staleAfter, longAfter, [], rows);
    SeedIsSeen(db, updatedAt);
    Integrity.SeedPassesIff(Integrity.PartitionsNoted(now, staleAfter, longAfter, [], rows), Integrity.IdsSeen(rows));
  }

  lemma AllPartitionsPass(env: Env, db: Db, updatedAt: Option<Time>)
    requires Partitions(env, db.now, db.partitions)
    ensures Integrity.PartitionsPass(PartitionRows(db, updatedAt))
  {
    var rows := PartitionRows(db, updatedAt);
    forall i | 0 <= i < |rows| ensures Integrity.PartitionPasses(rows[i]) { PartitionIsSound(env, db, i, updatedAt); }
  }

  lemma SeedIsSeen(db: Db, updatedAt: Option<Time>)
    requires |db.partitions| == PARTITION_COUNT
    ensures Integrity.IdsSeen(PartitionRows(db, updatedAt)) == Integrity.Seed(PARTITION_COUNT)
  {
    Integrity.NumberedRows(PartitionRows(db, updatedAt), PARTITION_COUNT);
  }

  /** Whatever rows the scans return, no check reports a violation on a reachable state of
      the outbox and a reachable state of the Inbox. */
  lemma NoViolationIsReachable(env: Env, w: World, assumed: Assumed, s: Inbox.State, now: Time, staleAfter: Time,
                               longAfter: Time, ids: seq<Id>,
                               keys: seq<StreamKey>, updatedAt: Option<Time>, inboxKeys: seq<Inbox.Key>,
                               text: nat -> string)
    requires ValidEnv(env) && Reachable(env, w, assumed) && Inbox.Reachable(s) && forall t :: !Blank(text(t))
    requires forall i :: 0 <= i < |ids| ==> ids[i] in w.db.events
    requires forall i :: 0 <= i < |keys| ==> keys[i] in w.db.streams
    requires forall i :: 0 <= i < |inboxKeys| ==> inboxKeys[i] in s.rows
    ensures Integrity.NoViolations(
      FullReport(env, w, s, now, staleAfter, longAfter, ids, keys, updatedAt, inboxKeys, text))
  {
    ReachableIsSound(env, w, assumed);
    Inbox.ReachableIsSound(s);
    var partitions := PartitionRows(w.db, updatedAt);
    PartitionsAreSound(env, w.db, now, staleAfter, longAfter, updatedAt);
    var a := Integrity.SeedNoted(Integrity.PartitionsNoted(now, staleAfter, longAfter, [], partitions),
      Integrity.IdsSeen(partitions));
    var events := seq(|ids|, i requires 0 <= i < |ids| => EventRowOf(w.db, w.db.events[ids[i]]));
    forall i | 0 <= i < |ids| ensures Integrity.EventPasses(env.part, events[i]) { EventIsSound(env, w.db, ids[i]); }
    Integrity.EventsPassIff(env.part, now, a, events);
    var b := Integrity.EventsNoted(env.part, now, a, events);
    var inbox := seq(|inboxKeys|, i requires 0 <= i < |inboxKeys| => InboxRowOf(s.rows[inboxKeys[i]], text));
    forall i | 0 <= i < |inbox| ensures Integrity.InboxPasses(inbox[i]) { InboxIsSound(s, inboxKeys[i], text); }
    Integrity.InboxPassesIff(now, b, inbox);
    var c := Integrity.InboxRowsNoted(now, b, inbox);
    var streams := seq(|keys|, i requires 0 <= i < |keys| => StreamRowOf(w.db, keys[i]));
    forall i | 0 <= i < |keys| ensures Integrity.StreamPasses(env.part, streams[i]) {
      StreamIsSound(env, w.db, keys[i]);
    }
    Integrity.StreamsPassIff(env.part, now, c, streams);
  }
}
