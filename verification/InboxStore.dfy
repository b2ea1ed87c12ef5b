/** The Inbox tables updated in place, statement by statement, and proved equal to the
    lifecycle transitions of Inbox. */
module InboxStore {
  import opened Types
  import opened Inbox

  class InboxStore {
    var now: Time
    var rows: Rows

    constructor ()
      ensures rows == map[]
    {
      now, rows := 0, map[];
    }

    /** Insert the row unless it exists, check its coordinates, lease it if due, and
        otherwise say why not; a conflict rolls everything back. */
    method Claim(q: Request, token: nat) returns (result: ClaimResult)
      modifies this`rows
      ensures (rows, result) == Inbox.Claim(old(rows), now, q, token)
    {
      if Blank(q.key.consumer) || q.key.id == NIL { return Invalid; }
      if Blank(q.source.topic) || q.source.partition < 0 || q.source.offset < 0 { return Invalid; }
      if Blank(q.owner) || q.lease <= 0 { return Invalid; }
      var savepoint := rows;
      if q.key !in rows && !SourceTaken(rows, q.key.consumer, q.source) {
        rows := rows[q.key := Row(Pending, 0, now, None, None, None, None, Some(q.source), q.timestamp)];
      }
      if SourceElsewhere(rows, q.key, q.source) {
        rows := savepoint;
        assert SourceElsewhere(rows, q.key, q.source);
        return Conflict;
      }
      assert q.key in rows;
      var row := rows[q.key];
      var due := (row.status == Pending || row.status == RetryWait) && row.availableAt <= now;
      var expired := row.status == Inflight && row.leaseUntil.Some? && row.leaseUntil.value <= now;
      if due || expired {
        var until := now + Whole(q.lease);
        rows := rows[q.key := row.(status := Inflight, attempts := row.attempts + 1, leaseOwner := Some(q.owner),
                                   token := Some(token), leaseUntil := Some(until))];
        return Claimed(row.attempts + 1, until);
      }
      match row.status {
        case Processed => return AlreadyProcessed;
        case Dead => return ClaimDead;
        case _ =>
          var resumeAt := row.availableAt;
          if row.leaseUntil.Some? && row.leaseUntil.value > resumeAt { resumeAt := row.leaseUntil.value; }
          return Waiting(resumeAt);
      }
    }

    method Renew(key: Key, token: nat, lease: Time) returns (ok: bool)
      modifies this`rows
      ensures var r := Inbox.Renew(old(rows), now, key, token, lease);
        ok == r.Some? && rows == if ok then r.value else old(rows)
    {
      ok := lease > 0 && Holds(rows, key, token);
      if ok { rows := rows[key := rows[key].(leaseUntil := Some(now + Whole(lease)))]; }
    }

    method MarkProcessed(key: Key, token: nat) returns (ok: bool)
      modifies this`rows
      ensures var r := Inbox.MarkProcessed(old(rows), now, key, token);
        ok == r.Some? && rows == if ok then r.value else old(rows)
    {
      ok := Holds(rows, key, token);
      if ok {
        rows := rows[key := Unleased(rows[key]).(status := Processed, processedAt := Some(now), availableAt := now)];
      }
    }

    method MarkRetry(key: Key, token: nat, delay: Time) returns (ok: bool)
      modifies this`rows
      ensures var r := Inbox.MarkRetry(old(rows), now, key, token, delay);
        ok == r.Some? && rows == if ok then r.value else old(rows)
    {
      ok := delay >= 0 && Holds(rows, key, token);
      if ok {
        rows := rows[key := Unleased(rows[key]).(status := RetryWait, processedAt := None,
          availableAt := now + Whole(delay))];
      }
    }

    method MarkDead(key: Key, token: nat) returns (ok: bool)
      modifies this`rows
      ensures var r := Inbox.MarkDead(old(rows), now, key, token);
        ok == r.Some? && rows == if ok then r.value else old(rows)
    {
      ok := Holds(rows, key, token);
      if ok { rows := rows[key := Unleased(rows[key]).(status := Dead, processedAt := None, availableAt := now)]; }
    }

    method RetryDead(key: Key) returns (ok: bool)
      modifies this`rows
      ensures var r := Inbox.RetryDead(old(rows), now, key); ok == r.Some? && rows == if ok then r.value else old(rows)
    {
      ok := key in rows && rows[key].status == Dead;
      if ok { rows := rows[key := Unleased(rows[key]).(status := RetryWait, processedAt := None, availableAt := now)]; }
    }

    /** The unmanaged path inside a savepoint: marker, callback, release or roll back. */
    method Process(key: Key, callback: bool) returns (result: LegacyResult)
      modifies this`rows
      ensures (rows, result) == Inbox.Process(old(rows), now, key, callback)
    {
      if Blank(key.consumer) { return Invalidated; }
      var savepoint := rows;
      if key in rows && rows[key].status != Processed { return ActiveConflict; }
      if key in rows { return Duplicate; }
      rows := rows[key := Row(Processed, 0, now, None, None, None, Some(now), None, None)];
      if !callback {
        rows := savepoint;
        return CallbackFailed;
      }
      return Done;
    }
  }

  /** The unique index on a consumer's record coordinates. */
  predicate SourceTaken(rows: Rows, consumer: string, source: Source) {
    exists k :: k in rows && k.consumer == consumer && rows[k].source == Some(source)
  }
}
