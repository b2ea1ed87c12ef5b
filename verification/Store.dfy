/** The PostgreSQL store as an object whose methods update the tables in place. Each
    method is proved to have exactly the effect of the statement it stands for in Tables,
    so what is proved of those statements holds of the store. */
module Store {
  import opened Types
  import opened Selection
  import opened Tables
  import Ownership

  lemma TopTakes(k: nat, rows: set<Rank>, m: Rank, top: seq<Rank>, all: seq<Rank>)
    requires k > 0 && IsEarliest(m, rows) && all == top + Top(k, rows)
    ensures all == (top + [m]) + Top(k - 1, rows - {m})
  {
    assert m == Earliest(rows);
    assert Top(k, rows) == [m] + Top(k - 1, rows - {m});
  }

  /** ORDER BY available_at, created_at, id LIMIT k. */
  method FirstRows(k: nat, rows: set<Rank>) returns (top: seq<Rank>)
    ensures top == Top(k, rows)
  {
    top := [];
    var rest, left := rows, k;
    ghost var all := Top(k, rows);
    while left > 0 && rest != {}
      invariant all == top + Top(left, rest)
      decreases left
    {
      var least := Least(rest);
      TopTakes(left, rest, least, top, all);
      rest, left, top := rest - {least}, left - 1, top + [least];
    }
  }

  method Least(rows: set<Rank>) returns (least: Rank)
    requires rows != {}
    ensures IsEarliest(least, rows)
  {
    least :| least in rows;
    var rest := rows - {least};
    while rest != {}
      invariant rest <= rows && least in rows && least !in rest
      invariant forall x :: x in rows && x !in rest && x != least ==> Before(least, x)
      decreases rest
    {
      var row :| row in rest;
      if Before(row, least) { least := row; }
      rest := rest - {row};
    }
  }

  /** Two bounded scans, merged and cut again. */
  method MergedRows(k: nat, pending: set<Rank>, expired: set<Rank>) returns (top: seq<Rank>)
    ensures top == SplitTop(k, pending, expired)
  {
    var first := FirstRows(k, pending);
    var second := FirstRows(k, expired);
    var candidates := (set x | x in first) + (set x | x in second);
    assert candidates == Elements(first) + Elements(second);
    top := FirstRows(k, candidates);
  }

  /** Due, and waiting or inflight with a lease that has run out. */
  predicate IsFree(e: Event, now: Time) {
    && e.availableAt <= now
    && (e.status == Pending || (e.status == Inflight && e.leaseUntil.Some? && e.leaseUntil.value <= now))
  }

  /** Event.validate: the checks in their order, for the fields that reach the tables. */
  method Validate(e: NewEvent) returns (ok: bool)
    ensures ok == ValidEvent(e)
  {
    if Blank(e.destination) { return false; }
    if Padded(e.destination) { return false; }
    if |e.destination| > 249 { return false; }
    if Blank(e.eventType) { return false; }
    if Padded(e.eventType) { return false; }
    if e.orderingKey == "" {
      if e.sequence != 0 { return false; }
      if e.startSequence != 0 { return false; }
      return true;
    }
    if Blank(e.orderingKey) { return false; }
    if Padded(e.orderingKey) { return false; }
    if e.sequence <= 0 { return false; }
    if e.startSequence < 0 { return false; }
    if e.startSequence > e.sequence { return false; }
    if |e.messageKey| > 0 && e.messageKey != e.orderingKey { return false; }
    return true;
  }

  /** How many partition rows meet this verdict. */
  ghost function Tally(rows: seq<Partition>, score: Ownership.Score, members: set<string>, owner: string, now: Time,
                       v: Verdict): nat {
    if rows == [] then 0
    else
      var last := |rows| - 1;
      Tally(rows[..last], score, members, owner, now, v)
        + (if VerdictOf(rows[last], Ownership.Winner(score, last, members), owner, now) == v then 1 else 0)
  }

  lemma TallyOneMore(rows: seq<Partition>, i: nat, score: Ownership.Score, members: set<string>, owner: string,
                     now: Time, seen: Verdict)
    requires i < |rows| && seen == VerdictOf(rows[i], Ownership.Winner(score, i, members), owner, now)
    ensures forall v :: (Tally(rows[..i + 1], score, members, owner, now, v)
                         == Tally(rows[..i], score, members, owner, now, v) + if v == seen then 1 else 0)
  {
    assert rows[..i + 1][..i] == rows[..i];
  }

  ghost function EpochSum(rows: seq<Partition>): int {
    if rows == [] then 0 else EpochSum(rows[..|rows| - 1]) + rows[|rows| - 1].epoch
  }

  /** Every acquisition and every release, and nothing else, moves an epoch by one. */
  lemma {:induction false} EpochsCountHandoffs(rows: seq<Partition>, rows': seq<Partition>, score: Ownership.Score,
                                               members: set<string>,
                                               owner: string, now: Time, lease: Time, publishTimeout: Time,
                                               margin: Time)
    requires |rows'| == |rows|
    requires forall i :: 0 <= i < |rows| ==>
      rows'[i] == ReconcileRow(rows[i], Ownership.Winner(score, i, members), owner, now, lease, publishTimeout, margin)
    ensures EpochSum(rows')
      == EpochSum(rows)
         + Tally(rows, score, members, owner, now, Acquired) + Tally(rows, score, members, owner, now, Released)
  {
    if rows != [] {
      var last := |rows| - 1;
      EpochsCountHandoffs(rows[..last], rows'[..last], score, members, owner, now, lease, publishTimeout, margin);
    }
  }

  /** The desired owner of a partition, absent when nobody is active. */
  method Desired(score: Ownership.Score, p: nat, members: seq<string>, ghost active: set<string>)
    returns (desired: Option<string>)
    requires Ownership.MemberSet(members) == active && "" !in active
    ensures desired == Ownership.Winner(score, p, active)
  {
    assert "" in members ==> "" in Ownership.MemberSet(members);
    var winner := Ownership.DesiredOwner(score, p, members);
    desired := if members == [] then None else Some(winner);
  }

  class Store {
    var now: Time
    var paused: bool
    var events: map<Id, Event>
    var streams: map<StreamKey, Stream>
    var relays: map<string, Presence>
    const partitions: array<Partition>

    constructor (rows: array<Partition>)
      ensures partitions == rows && View() == Db(0, false, map[], map[], rows[..], map[])
    {
      partitions := rows;
      now, paused, events, streams, relays := 0, false, map[], map[], map[];
    }

    function View(): Db
      reads this, partitions
    {
      Db(now, paused, events, streams, partitions[..], relays)
    }

    // -------------------------------------------------------------- producers

    method Enqueue(part: StreamKey -> nat, id: Id, e: NewEvent) returns (result: EnqueueResult)
      modifies this
      ensures result == Tables.Enqueue(part, old(View()), id, e)
      ensures View() == if result.Enqueued? then result.db else old(View())
      ensures result.Enqueued? && e.orderingKey != "" ==>
        var k := StreamKey(e.destination, e.orderingKey);
        && k in streams && streams[k].next <= e.sequence
        && (e.startSequence > 0 ==> streams[k].start == e.startSequence)
        && (if k in old(streams) then streams[k] == old(streams)[k]
            else streams[k].next == streams[k].start && (e.startSequence == 0 ==> streams[k].start == 1))
    {
      var valid := Validate(e);
      if !valid { return InvalidEvent; }
      var row := Event(e.destination, e.messageKey, None, None, None, Pending, 0, now, now, None, None, None);
      if e.availableAt.Some? { row := row.(availableAt := e.availableAt.value); }
      if e.orderingKey != "" {
        var k := StreamKey(e.destination, e.orderingKey);
        var start := if e.startSequence == 0 then 1 else e.startSequence;
        var stream := if k in streams then streams[k] else Stream(part(k), start, start);
        if stream.partition != part(k) { return OrderingConflict; }
        if e.startSequence > 0 && stream.start != e.startSequence { return OrderingConflict; }
        if e.sequence < stream.next { return SequenceAlreadyPassed; }
        if id in events { return DuplicateId; }
        if SlotTaken(events, k, e.sequence) { return DuplicateSequence; }
        streams := streams[k := stream];
        row := row.(messageKey := e.orderingKey, key := Some(e.orderingKey), sequence := Some(e.sequence),
          partition := Some(part(k)));
      } else if id in events {
        return DuplicateId;
      }
      events := events[id := row];
      return Enqueued(View());
    }

    // -------------------------------------------------------------- claims

    method ClaimOrdered(owner: string, limit: nat, lease: Time, minimumLease: Time, locked: set<Id>)
      returns (picks: seq<Id>)
      modifies this
      ensures picks == OrderedPicks(old(View()), owner, limit, minimumLease, locked)
      ensures View() == Lease(old(View()), picks, owner, lease)
      ensures forall id :: id in picks ==> id in old(events) && id !in locked && IsFree(old(events)[id], now)
      ensures forall id :: id in old(events) && id !in picks ==> id in events && events[id] == old(events)[id]
    {
      var top := FirstRows(limit, InOrderRanks(View(), owner, minimumLease, locked));
      picks := Admitted(View(), owner, IdsOf(View(), top));
      LeaseRows(picks, owner, lease);
    }

    /** The UPDATE both claims end with, row by row. */
    method LeaseRows(picks: seq<Id>, owner: string, lease: Time)
      requires forall i :: 0 <= i < |picks| ==> picks[i] in events
      modifies this`events
      ensures View() == Lease(old(View()), picks, owner, lease)
    {
      for i := 0 to |picks|
        invariant View() == Lease(old(View()), picks[..i], owner, lease)
      {
        var e := events[picks[i]];
        events := events[picks[i] := e.(status := Inflight, leaseOwner := Some(owner),
          leaseUntil := Some(now + Whole(lease)))];
        assert picks[..i + 1] == picks[..i] + [picks[i]];
      }
      assert picks[..|picks|] == picks;
    }

    /** The two bounded scans, their merge, and the update. */
    method Claim(owner: string, limit: nat, lease: Time, locked: set<Id>) returns (picks: seq<Id>)
      modifies this
      ensures picks == UnorderedPicks(old(View()), limit, locked)
      ensures View() == Lease(old(View()), picks, owner, lease)
      ensures forall id :: id in picks ==> id in old(events) && id !in locked && IsFree(old(events)[id], now)
      ensures forall id :: id in old(events) && id !in picks ==> id in events && events[id] == old(events)[id]
    {
      var top := MergedRows(limit, PendingRanks(View(), locked), ExpiredRanks(View(), locked));
      SplitScanEqualsSingleScan(limit, PendingRanks(View(), locked), ExpiredRanks(View(), locked));
      picks := IdsOf(View(), top);
      LeaseRows(picks, owner, lease);
    }

    // -------------------------------------------------------------- ordered results

    method BeginOrderedAttempt(id: Id, owner: string, epoch: int, maxAttempts: int, minimumLease: Time)
      returns (attempt: Option<int>)
      modifies this`events
      ensures var r := Tables.BeginOrderedAttempt(old(View()), id, owner, epoch, maxAttempts, minimumLease);
        && View() == (if r.Some? then r.value else old(View()))
        && attempt == (if r.Some? && id in r.value.events then Some(r.value.events[id].attempts) else None)
    {
      attempt := None;
      if id in events {
        var e := events[id];
        if e.partition.Some? && 0 <= e.partition.value < partitions.Length {
          var p := partitions[e.partition.value];
          if e.leaseOwner == Some(owner) && e.status == Inflight && e.leaseUntil.Some? && e.leaseUntil.value > now
             && e.attempts < maxAttempts && p.epoch == epoch && Held(p, owner, now, minimumLease)
          {
            events := events[id := e.(attempts := e.attempts + 1)];
            attempt := Some(e.attempts + 1);
          }
        }
      }
    }

    method MarkOrderedDelivered(id: Id, owner: string, epoch: int, sequence: int) returns (ok: bool)
      modifies this`events, this`streams
      ensures var r := Tables.MarkOrderedDelivered(old(View()), id, owner, epoch, sequence);
        ok == r.Some? && View() == if ok then r.value else old(View())
      ensures ok ==> id in old(events) && old(events)[id].leaseUntil.Some? && now < old(events)[id].leaseUntil.value
    {
      if id !in events { return false; }
      var e := events[id];
      if e.partition.None? || !(0 <= e.partition.value < partitions.Length) || e.key.None? { return false; }
      if e.status != Inflight || e.leaseOwner != Some(owner) || e.leaseUntil.None? || e.leaseUntil.value <= now {
        return false;
      }
      if e.sequence != Some(sequence) || !Fenced(partitions[e.partition.value], owner, epoch, now) { return false; }
      var k := StreamKey(e.destination, e.key.value);
      if k !in streams || streams[k].partition != e.partition.value || streams[k].next != sequence { return false; }
      streams := streams[k := streams[k].(next := sequence + 1)];
      events := events[id := Settled(e).(status := Delivered, deliveredAt := Some(now))];
      return true;
    }

    /** The WHERE clause of the retry and dead statements. */
    method StillFenced(id: Id, owner: string, epoch: int, sequence: int) returns (ok: bool)
      ensures ok == OrderedResultFence(View(), id, owner, epoch, sequence)
    {
      if id !in events { return false; }
      var e := events[id];
      if e.partition.None? || !(0 <= e.partition.value < partitions.Length) { return false; }
      var p := partitions[e.partition.value];
      if e.leaseOwner != Some(owner) || e.status != Inflight { return false; }
      if p.owner != Some(owner) || p.epoch != epoch { return false; }
      if p.leaseUntil.None? || p.leaseUntil.value <= now { return false; }
      if e.sequence != Some(sequence) { return false; }
      return p.handoff.None? || p.handoff.value <= now;
    }

    method MarkOrderedRetry(id: Id, owner: string, epoch: int, sequence: int, delay: Time) returns (ok: bool)
      modifies this`events
      ensures var r := Tables.MarkOrderedRetry(old(View()), id, owner, epoch, sequence, delay);
        ok == r.Some? && View() == if ok then r.value else old(View())
    {
      ok := StillFenced(id, owner, epoch, sequence);
      if ok {
        events := events[id := events[id].(status := Pending, availableAt := now + Whole(delay), leaseOwner := None,
          leaseUntil := None)];
      }
    }

    method MarkOrderedDead(id: Id, owner: string, epoch: int, sequence: int) returns (ok: bool)
      modifies this`events
      ensures var r := Tables.MarkOrderedDead(old(View()), id, owner, epoch, sequence);
        ok == r.Some? && View() == if ok then r.value else old(View())
    {
      ok := StillFenced(id, owner, epoch, sequence);
      if ok {
        events := events[id := events[id].(status := Dead, leaseOwner := None, leaseUntil := None)];
      }
    }

    // -------------------------------------------------------------- unordered results

    method BeginAttempt(id: Id, owner: string, maxAttempts: int) returns (attempt: Option<int>)
      modifies this`events
      ensures var r := Tables.BeginAttempt(old(View()), id, owner, maxAttempts);
        && View() == (if r.Some? then r.value else old(View()))
        && attempt == (if r.Some? && id in r.value.events then Some(r.value.events[id].attempts) else None)
    {
      attempt := None;
      if Owned(View(), id, owner) && events[id].attempts < maxAttempts {
        attempt := Some(events[id].attempts + 1);
        events := events[id := events[id].(attempts := events[id].attempts + 1)];
      }
    }

    method MarkDelivered(id: Id, owner: string) returns (ok: bool)
      modifies this`events
      ensures var r := Tables.MarkDelivered(old(View()), id, owner);
        ok == r.Some? && View() == if ok then r.value else old(View())
    {
      ok := Owned(View(), id, owner);
      if ok { events := events[id := Settled(events[id]).(status := Delivered, deliveredAt := Some(now))]; }
    }

    method MarkRetry(id: Id, owner: string, delay: Time) returns (ok: bool)
      modifies this`events
      ensures var r := Tables.MarkRetry(old(View()), id, owner, delay);
        ok == r.Some? && View() == if ok then r.value else old(View())
    {
      ok := Owned(View(), id, owner);
      if ok { events := events[id := Settled(events[id]).(status := Pending, availableAt := now + Whole(delay))]; }
    }

    method MarkDead(id: Id, owner: string) returns (ok: bool)
      modifies this`events
      ensures var r := Tables.MarkDead(old(View()), id, owner);
        ok == r.Some? && View() == if ok then r.value else old(View())
    {
      ok := Owned(View(), id, owner);
      if ok { events := events[id := Settled(events[id]).(status := Dead)]; }
    }

    // -------------------------------------------------------------- partitions

    /** The active members, in no particular order. */
    method Members(staleAfter: Time) returns (members: seq<string>)
      ensures Ownership.MemberSet(members) == ActiveMembers(View(), staleAfter)
      ensures forall r :: r in members <==>
        && r in relays && relays[r].capable && !relays[r].stopped && relays[r].heartbeat >= now - Whole(staleAfter)
    {
      var rest := relays.Keys;
      members := [];
      while rest != {}
        invariant rest <= relays.Keys
        invariant Ownership.MemberSet(members) == ActiveMembers(View(), staleAfter) - rest
        decreases rest
      {
        var m :| m in rest;
        rest := rest - {m};
        var r := relays[m];
        if r.capable && !r.stopped && r.heartbeat >= now - Whole(staleAfter) {
          assert Ownership.MemberSet(members + [m]) == Ownership.MemberSet(members) + {m};
          members := members + [m];
        }
      }
      forall r ensures r in members <==> r in ActiveMembers(View(), staleAfter) {
        assert r in members <==> r in Ownership.MemberSet(members);
      }
    }

    /** The body of the reconciliation loop, for the row of one partition. */
    method ReconcileOne(i: nat, desired: Option<string>, owner: string, lease: Time, publishTimeout: Time, margin: Time)
      returns (verdict: Verdict)
      requires i < partitions.Length
      modifies partitions
      ensures verdict == VerdictOf(old(partitions[i]), desired, owner, now)
      ensures var row := ReconcileRow(old(partitions[i]), desired, owner, now, lease, publishTimeout, margin);
        partitions[..] == old(partitions[..])[i := row]
    {
      var row := partitions[i];
      if row.owner == Some(owner) && desired != Some(owner) {
        partitions[i] := row.(owner := None, leaseUntil := None, epoch := row.epoch + 1,
                              handoff := Some(ReleaseBarrier(now, row.handoff, row.publishMs, margin)));
        return Released;
      }
      if desired == Some(owner) && row.owner == Some(owner) && ValidLease(row, now) {
        partitions[i] := row.(leaseUntil := Some(now + lease), publishMs := Some(IntervalMS(publishTimeout)));
        return Renewed;
      }
      if desired == Some(owner) && (row.owner.None? || (row.leaseUntil.Some? && row.leaseUntil.value <= now)) {
        var barrier := row.handoff;
        if row.owner.Some? { barrier := Some(ReleaseBarrier(now, barrier, row.publishMs, margin)); }
        partitions[i] := Partition(Some(owner), Some(now + lease), row.epoch + 1, barrier,
          Some(IntervalMS(publishTimeout)));
        return Acquired;
      }
      return Kept;
    }

    /** One pass over the locked partition rows. */
    method Reconcile(score: Ownership.Score, owner: string, lease: Time, publishTimeout: Time, staleAfter: Time,
                     margin: Time)
      returns (ok: bool, acquired: nat, renewed: nat, released: nat)
      requires "" !in relays
      modifies partitions
      ensures ok <==> partitions.Length == PARTITION_COUNT
      ensures !ok ==> View() == old(View())
      ensures ok ==> View() == Tables.Reconcile(score, old(View()), owner, lease, publishTimeout, staleAfter, margin)
      ensures ok ==> var rows, members := old(partitions[..]), ActiveMembers(old(View()), staleAfter);
        && acquired == Tally(rows, score, members, owner, now, Acquired)
        && renewed == Tally(rows, score, members, owner, now, Renewed)
        && released == Tally(rows, score, members, owner, now, Released)
    {
      var members := Members(staleAfter);
      ghost var active, rows := ActiveMembers(View(), staleAfter), partitions[..];
      ghost var target := Tables.Reconcile(score, View(), owner, lease, publishTimeout, staleAfter, margin).partitions;
      ok, acquired, renewed, released := partitions.Length == PARTITION_COUNT, 0, 0, 0;
      if !ok { return; }
      for i := 0 to partitions.Length
        invariant |target| == partitions.Length == |rows|
        invariant forall j :: 0 <= j < i ==> partitions[j] == target[j]
        invariant forall j :: i <= j < |rows| ==> partitions[j] == rows[j]
        invariant acquired == Tally(rows[..i], score, active, owner, now, Acquired)
        invariant renewed == Tally(rows[..i], score, active, owner, now, Renewed)
        invariant released == Tally(rows[..i], score, active, owner, now, Released)
      {
        var desired := Desired(score, i, members, active);
        assert target[i] == ReconcileRow(rows[i], desired, owner, now, lease, publishTimeout, margin);
        ghost var before := partitions[..];
        var verdict := ReconcileOne(i, desired, owner, lease, publishTimeout, margin);
        assert forall j :: 0 <= j < |rows| && j != i ==> partitions[..][j] == before[j];
        TallyOneMore(rows, i, score, active, owner, now, verdict);
        match verdict {
          case Released => released := released + 1;
          case Renewed => renewed := renewed + 1;
          case Acquired => acquired := acquired + 1;
          case Kept =>
        }
      }
      assert rows[..partitions.Length] == rows;
      assert partitions[..] == target;
    }

    method Release(owner: string, margin: Time)
      modifies partitions
      ensures View() == Tables.Release(old(View()), owner, margin)
    {
      ghost var rows := partitions[..];
      for i := 0 to partitions.Length
        invariant forall j :: 0 <= j < i ==> partitions[j] == ReleaseRow(rows[j], owner, now, margin)
        invariant forall j :: i <= j < partitions.Length ==> partitions[j] == rows[j]
      {
        var p := partitions[i];
        if p.owner == Some(owner) {
          var window := if p.publishMs.Some? then p.publishMs.value else 0;
          var barrier := now + (window + IntervalMS(margin)) * MILLISECOND;
          if p.handoff.Some? && p.handoff.value > barrier { barrier := p.handoff.value; }
          partitions[i] := p.(owner := None, leaseUntil := None, epoch := p.epoch + 1, handoff := Some(barrier));
        }
      }
    }

    // -------------------------------------------------------------- operators

    method RetryDead(id: Id) returns (ok: bool)
      modifies this`events
      ensures var r := Tables.RetryDead(old(View()), id);
        ok == r.Some? && View() == if ok then r.value else old(View())
    {
      ok := id in events && events[id].status == Dead;
      if ok {
        events := events[id := Settled(events[id]).(status := Pending, availableAt := now, attempts := 0)];
      }
    }

    method Replay(source: Id, id: Id, unordered: bool) returns (ok: bool)
      modifies this`events
      ensures var r := Tables.Replay(old(View()), source, id, unordered);
        ok == r.Some? && View() == if ok then r.value else old(View())
    {
      if source !in events || id in events { return false; }
      var e := events[source];
      if e.status != Delivered && e.status != Dead { return false; }
      if e.key.Some? && !unordered { return false; }
      var clone := Event(e.destination, e.messageKey, None, None, None, Pending, 0, now, now, None, None, None);
      events := events[id := clone];
      return true;
    }

    method DeleteRows(rows: seq<Rank>) returns (deleted: nat)
      modifies this`events
      ensures events == old(events) - Named(rows) && deleted == |rows|
    {
      deleted := 0;
      for i := 0 to |rows|
        invariant events == old(events) - Named(rows[..i]) && deleted == i
      {
        assert rows[..i + 1] == rows[..i] + [rows[i]];
        events := events - {rows[i].id};
        deleted := deleted + 1;
      }
      assert rows[..|rows|] == rows;
    }

    /** Delete the rows delivered longest ago, at most limit of those retention is over for. */
    method CleanupDelivered(retention: Time, limit: int, locked: set<Id>) returns (deleted: nat, ghost batch: set<Id>)
      modifies this`events
      ensures retention <= 0 || limit <= 0 ==> View() == old(View()) && deleted == 0
      ensures retention > 0 && limit > 0 ==>
        && View() == Tables.CleanupDelivered(old(View()), retention, batch)
        && OldestDoomed(old(View()), retention, limit, locked, batch)
        && deleted == |batch|
    {
      deleted, batch := 0, {};
      if retention <= 0 || limit <= 0 { return; }
      var top := FirstRows(limit, DoomedRanks(View(), retention, locked));
      batch := Named(top);
      TopIsOldest(View(), retention, limit, locked);
      deleted := DeleteRows(top);
    }
  }

  function Named(ranks: seq<Rank>): set<Id> {
    set r | r in ranks :: r.id
  }

  predicate MayDelete(db: Db, id: Id, retention: Time, locked: set<Id>) {
    id in db.events && id !in locked && Doomed(db, id, retention)
  }

  function Deletable(db: Db, retention: Time, locked: set<Id>): set<Id> {
    set id | id in db.events && MayDelete(db, id, retention, locked)
  }

  function DeliveryRank(db: Db, id: Id): Rank {
    Rank(if id in db.events && db.events[id].deliveredAt.Some? then db.events[id].deliveredAt.value else 0, 0, id)
  }

  /** Rows whose retention is over, ranked by the time they were delivered. */
  function DoomedRanks(db: Db, retention: Time, locked: set<Id>): set<Rank> {
    set id | id in Deletable(db, retention, locked) :: DeliveryRank(db, id)
  }

  /** The batch holds as many deletable rows as the limit allows, none delivered after one
      that is left behind. */
  ghost predicate OldestDoomed(db: Db, retention: Time, limit: int, locked: set<Id>, batch: set<Id>) {
    var all := Deletable(db, retention, locked);
    && batch <= all && |batch| == Min(limit, |all|)
    && forall a, b :: a in batch && b in all && b !in batch ==>
         db.events[a].deliveredAt.value <= db.events[b].deliveredAt.value
  }

  lemma {:induction false} RankedCount(db: Db, ids: set<Id>)
    ensures |set id | id in ids :: DeliveryRank(db, id)| == |ids|
    decreases |ids|
  {
    if ids != {} {
      var id :| id in ids;
      RankedCount(db, ids - {id});
      var ranks := set i | i in ids - {id} :: DeliveryRank(db, i);
      assert (set i | i in ids :: DeliveryRank(db, i)) == ranks + {DeliveryRank(db, id)};
    }
  }

  lemma {:induction false} NamedCount(ranks: seq<Rank>)
    requires forall i, j :: 0 <= i < j < |ranks| ==> ranks[i].id != ranks[j].id
    ensures |Named(ranks)| == |ranks|
  {
    if ranks != [] {
      var last := |ranks| - 1;
      NamedCount(ranks[..last]);
      assert ranks == ranks[..last] + [ranks[last]];
      assert Named(ranks) == Named(ranks[..last]) + {ranks[last].id};
    }
  }

  lemma Sorted(db: Db, retention: Time, limit: nat, locked: set<Id>, a: Id, b: Id)
    requires var top := Top(limit, DoomedRanks(db, retention, locked)); a in Named(top) && b !in Named(top)
    requires b in Deletable(db, retention, locked)
    ensures a in Deletable(db, retention, locked) && db.events[a].deliveredAt.value <= db.events[b].deliveredAt.value
  {
    var rows := DoomedRanks(db, retention, locked);
    TopIsTheEarliest(limit, rows);
    assert DeliveryRank(db, a) in Top(limit, rows) && DeliveryRank(db, b) in rows;
  }

  lemma Removed(db: Db, retention: Time, batch: set<Id>)
    requires retention > 0 && forall id :: id in batch ==> id in db.events && Doomed(db, id, retention)
    ensures Tables.CleanupDelivered(db, retention, batch) == db.(events := db.events - batch)
  {
    assert Tables.CleanupDelivered(db, retention, batch).events == db.events - batch;
  }

  lemma TopIsOldest(db: Db, retention: Time, limit: nat, locked: set<Id>)
    requires retention > 0
    ensures var top := Top(limit, DoomedRanks(db, retention, locked)); var batch := Named(top);
      && |batch| == |top| && OldestDoomed(db, retention, limit, locked, batch)
      && Tables.CleanupDelivered(db, retention, batch) == db.(events := db.events - batch)
  {
    var all := Deletable(db, retention, locked);
    var rows := DoomedRanks(db, retention, locked);
    var top := Top(limit, rows);
    TopIsTheEarliest(limit, rows);
    RankedCount(db, all);
    NamedCount(top);
    forall a, b | a in Named(top) && b in all && b !in Named(top)
      ensures db.events[a].deliveredAt.value <= db.events[b].deliveredAt.value
    {
      Sorted(db, retention, limit, locked, a, b);
    }
    Removed(db, retention, Named(top));
  }
}
