/** What each Inbox statement does, told by the columns it reads and writes: every answer to a
    claim, and exactly when a token still lets its holder renew, commit, retry or bury. */
module InboxLaws {
  import opened Types
  import opened Selection
  import opened Inbox

  // ---------------------------------------------------------------- claims

  predicate Complete(q: Request) {
    && !Blank(q.key.consumer) && q.key.id != 0 && !Blank(q.source.topic)
    && q.source.partition >= 0 && q.source.offset >= 0 && !Blank(q.owner) && q.lease > 0
  }

  /** Another event of the consumer came from the same record. */
  ghost predicate Disputed(rows: Rows, q: Request) {
    exists k :: k in rows && k != q.key && k.consumer == q.key.consumer && rows[k].source == Some(q.source)
  }

  /** Nobody is at work on the event: it is new, due, or its lease has run out. */
  predicate Free(rows: Rows, key: Key, now: Time) {
    key !in rows
    || ((rows[key].status == Pending || rows[key].status == RetryWait) && rows[key].availableAt <= now)
    || (rows[key].status == Inflight && rows[key].leaseUntil.Some? && rows[key].leaseUntil.value <= now)
  }

  predicate InState(rows: Rows, key: Key, status: Status) {
    key in rows && rows[key].status == status
  }

  /** Every answer to a claim. */
  lemma ClaimAnswers(rows: Rows, now: Time, q: Request, token: nat)
    ensures var answer := Inbox.Claim(rows, now, q, token).1; var heard := Complete(q) && !Disputed(rows, q);
      && (answer.Invalid? <==> !Complete(q))
      && (answer.Conflict? <==> Complete(q) && Disputed(rows, q))
      && (answer.Claimed? <==> heard && Free(rows, q.key, now))
      && (answer.AlreadyProcessed? <==> heard && InState(rows, q.key, Processed))
      && (answer.ClaimDead? <==> heard && InState(rows, q.key, Dead))
      && (answer.Waiting? ==>
            && heard && q.key in rows && answer.resumeAt >= rows[q.key].availableAt
            && (rows[q.key].leaseUntil.Some? ==> answer.resumeAt >= rows[q.key].leaseUntil.value)
            && (|| answer.resumeAt == rows[q.key].availableAt
                || (rows[q.key].leaseUntil.Some? && answer.resumeAt == rows[q.key].leaseUntil.value)))
      && (answer.Claimed? ==>
            && answer.attempts == (if q.key in rows then rows[q.key].attempts else 0) + 1
            && answer.leaseUntil == now + Whole(q.lease))
  {
    assert SourceElsewhere(rows, q.key, q.source) <==> Disputed(rows, q);
  }

  /** A claim that succeeds leases its own row to the caller under the new token, counting one
      attempt; any other claim changes nothing. */
  lemma ClaimLeases(rows: Rows, now: Time, q: Request, token: nat)
    ensures var r := Inbox.Claim(rows, now, q, token);
      && (!r.1.Claimed? ==> r.0 == rows)
      && (r.1.Claimed? ==>
            && q.key in r.0 && r.0 == rows[q.key := r.0[q.key]]
            && var row := r.0[q.key];
               && row.status == Inflight && row.token == Some(token) && row.leaseOwner == Some(q.owner)
               && row.leaseUntil == Some(now + Whole(q.lease))
               && row.attempts == (if q.key in rows then rows[q.key].attempts else 0) + 1
               && row.availableAt == (if q.key in rows then rows[q.key].availableAt else now)
               && row.processedAt == (if q.key in rows then rows[q.key].processedAt else None)
               && row.source == (if q.key in rows then rows[q.key].source else Some(q.source))
               && row.sourceTimestamp == (if q.key in rows then rows[q.key].sourceTimestamp else q.timestamp))
  {}

  // ---------------------------------------------------------------- results

  /** The token is the one the row was last leased under, and the row is still inflight. */
  predicate TokenHolds(rows: Rows, key: Key, token: nat) {
    InState(rows, key, Inflight) && rows[key].token == Some(token)
  }

  predicate OnlyRow(rows: Rows, rows': Rows, key: Key) {
    && key in rows && key in rows' && rows' == rows[key := rows'[key]]
    && rows'[key].attempts == rows[key].attempts && rows'[key].source == rows[key].source
    && rows'[key].sourceTimestamp == rows[key].sourceTimestamp
  }

  predicate Released(row: Row) {
    row.leaseOwner.None? && row.token.None? && row.leaseUntil.None?
  }

  lemma RenewsIff(rows: Rows, now: Time, key: Key, token: nat, lease: Time)
    ensures var r := Inbox.Renew(rows, now, key, token, lease);
      && (r.Some? <==> lease > 0 && TokenHolds(rows, key, token))
      && (r.Some? ==>
            && OnlyRow(rows, r.value, key) && TokenHolds(r.value, key, token)
            && r.value[key].leaseUntil == Some(now + Whole(lease))
            && r.value[key].leaseOwner == rows[key].leaseOwner && r.value[key].availableAt == rows[key].availableAt
            && r.value[key].processedAt == rows[key].processedAt)
  {}

  lemma ProcessesIff(rows: Rows, now: Time, key: Key, token: nat)
    ensures var r := Inbox.MarkProcessed(rows, now, key, token);
      && (r.Some? <==> TokenHolds(rows, key, token))
      && (r.Some? ==>
            && OnlyRow(rows, r.value, key) && Released(r.value[key])
            && r.value[key].status == Processed && r.value[key].processedAt == Some(now)
            && r.value[key].availableAt == now)
  {}

  lemma RetriesIff(rows: Rows, now: Time, key: Key, token: nat, delay: Time)
    ensures var r := Inbox.MarkRetry(rows, now, key, token, delay);
      && (r.Some? <==> delay >= 0 && TokenHolds(rows, key, token))
      && (r.Some? ==>
            && OnlyRow(rows, r.value, key) && Released(r.value[key]) && r.value[key].status == RetryWait
            && r.value[key].processedAt.None? && r.value[key].availableAt == now + Whole(delay))
  {}

  lemma BuriesIff(rows: Rows, now: Time, key: Key, token: nat)
    ensures var r := Inbox.MarkDead(rows, now, key, token);
      && (r.Some? <==> TokenHolds(rows, key, token))
      && (r.Some? ==>
            && OnlyRow(rows, r.value, key) && Released(r.value[key]) && r.value[key].status == Dead
            && r.value[key].processedAt.None? && r.value[key].availableAt == now)
  {}

  lemma RevivesIff(rows: Rows, now: Time, key: Key)
    ensures var r := Inbox.RetryDead(rows, now, key);
      && (r.Some? <==> InState(rows, key, Dead))
      && (r.Some? ==>
            && OnlyRow(rows, r.value, key) && Released(r.value[key]) && r.value[key].status == RetryWait
            && r.value[key].processedAt.None? && r.value[key].availableAt == now)
  {}

  /** The unmanaged path runs its callback once per event, and never beside a managed claim. */
  lemma UnmanagedAnswers(rows: Rows, now: Time, key: Key, callback: bool)
    ensures var (rows', answer) := Inbox.Process(rows, now, key, callback);
      && (answer.Invalidated? <==> Blank(key.consumer))
      && (answer.Duplicate? <==> !Blank(key.consumer) && InState(rows, key, Processed))
      && (answer.ActiveConflict? <==> !Blank(key.consumer) && key in rows && rows[key].status != Processed)
      && (answer.CallbackFailed? <==> !Blank(key.consumer) && key !in rows && !callback)
      && (answer.Done? <==> !Blank(key.consumer) && key !in rows && callback)
      && (!answer.Done? ==> rows' == rows)
      && (answer.Done? ==>
            && key in rows' && rows' == rows[key := rows'[key]]
            && rows'[key].status == Processed && rows'[key].processedAt == Some(now) && rows'[key].availableAt == now
            && rows'[key].attempts == 0 && Released(rows'[key])
            && rows'[key].source.None? && rows'[key].sourceTimestamp.None?)
  {}

  // ---------------------------------------------------------------- over runs

  /** While a lease runs, a claim of the row changes nothing, whoever makes it. */
  lemma RunningLeasesAreRespected(s: State, q: Request)
    requires InState(s.rows, q.key, Inflight)
    requires s.rows[q.key].leaseUntil.Some? && s.now < s.rows[q.key].leaseUntil.value
    ensures Apply(s, TakeClaim(q)) == s
  {
    ClaimAnswers(s.rows, s.now, q, |s.claims|);
    ClaimLeases(s.rows, s.now, q, |s.claims|);
  }

  /** Whatever has happened, an event that is neither processed nor dead can still be processed:
      once its delay and its lease are over, a claim is granted and its commit takes effect. */
  lemma EventsCanStillBeProcessed(s: State, q: Request, d: nat)
    requires Complete(q) && !Disputed(s.rows, q)
    requires q.key in s.rows ==>
      && s.rows[q.key].status != Processed && s.rows[q.key].status != Dead && s.rows[q.key].availableAt <= s.now + d
      && (s.rows[q.key].status == Inflight ==>
            s.rows[q.key].leaseUntil.Some? && s.rows[q.key].leaseUntil.value <= s.now + d)
    ensures var s' := Exec(s, [Tick(d), TakeClaim(q), Commit(|s.claims|)]);
      && InState(s'.rows, q.key, Processed) && s'.now == s.now + d
      && EffectsOn(s', q.key) == EffectsOn(s, q.key) + [ByClaim(|s.claims|)]
  {
    var t := |s.claims|;
    var ticked := Apply(s, Tick(d));
    ClaimAnswers(ticked.rows, ticked.now, q, t);
    ClaimLeases(ticked.rows, ticked.now, q, t);
    var claimed := Apply(ticked, TakeClaim(q));
    assert claimed.claims == s.claims + [q.key];
    ProcessesIff(claimed.rows, claimed.now, q.key, t);
    var steps := [Tick(d), TakeClaim(q), Commit(t)];
    assert steps[1..] == [TakeClaim(q), Commit(t)] && steps[1..][1..] == [Commit(t)] && steps[1..][1..][1..] == [];
    assert Exec(s, steps) == Exec(ticked, steps[1..]) == Exec(claimed, [Commit(t)]) == Apply(claimed, Commit(t));
  }

  /** The holder's renewal, retry and burial, and an operator's revival, take effect as steps. */
  lemma ResultSteps(s: State, token: nat, lease: Time, delay: Time, key: Key)
    requires token < |s.claims| && s.claims[token] == key && TokenHolds(s.rows, key, token)
    ensures lease > 0 ==> Apply(s, RenewClaim(token, lease)).rows[key].leaseUntil == Some(s.now + Whole(lease))
    ensures delay >= 0 ==> InState(Apply(s, Retry(token, delay)).rows, key, RetryWait)
    ensures InState(Apply(s, Bury(token)).rows, key, Dead)
    ensures InState(Apply(Apply(s, Bury(token)), Revive(key)).rows, key, RetryWait)
  {
    BuriesIff(s.rows, s.now, key, token);
  }
}
