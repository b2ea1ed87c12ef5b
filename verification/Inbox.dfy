/** The managed Inbox: one row per consumer and event, whose lifecycle is guarded by a
    lease token that changes with every claim. Effects of a handler become visible only
    when its transaction commits together with the processed mark. */
module Inbox {
  import opened Types
  import opened Selection

  datatype Status = Pending | Inflight | RetryWait | Processed | Dead

  datatype Key = Key(consumer: string, id: Id)

  /** Kafka coordinates of a record. */
  datatype Source = Source(topic: string, partition: int, offset: int)

  datatype Row = Row(
    status: Status,
    attempts: int,
    availableAt: Time,
    leaseOwner: Option<string>,
    token: Option<nat>,
    leaseUntil: Option<Time>,
    processedAt: Option<Time>,
    source: Option<Source>,
    sourceTimestamp: Option<Time>)

  type Rows = map<Key, Row>

  /** The all-zero event id. */
  const NIL: Id := 0

  // ---------------------------------------------------------------- statements

  datatype Request = Request(key: Key, source: Source, timestamp: Option<Time>, owner: string, lease: Time)

  datatype ClaimResult =
    | Invalid
    | Conflict
    | Claimed(attempts: int, leaseUntil: Time)
    | AlreadyProcessed
    | ClaimDead
    | Waiting(resumeAt: Time)

  predicate ValidRequest(q: Request) {
    && !Blank(q.key.consumer) && q.key.id != NIL
    && !Blank(q.source.topic) && q.source.partition >= 0 && q.source.offset >= 0
    && !Blank(q.owner) && q.lease > 0
  }

  /** The record's coordinates already belong to another event of this consumer. */
  predicate SourceElsewhere(rows: Rows, key: Key, source: Source) {
    exists k :: k in rows && k != key && k.consumer == key.consumer && rows[k].source == Some(source)
  }

  predicate Claimable(row: Row, now: Time) {
    || ((row.status == Pending || row.status == RetryWait) && row.availableAt <= now)
    || (row.status == Inflight && row.leaseUntil.Some? && row.leaseUntil.value <= now)
  }

  function NewRow(now: Time, q: Request): Row {
    Row(Pending, 0, now, None, None, None, None, Some(q.source), q.timestamp)
  }

  /** When a waiting record is worth another look. */
  function ResumeAt(row: Row): Time {
    if row.leaseUntil.Some? then Max(row.availableAt, row.leaseUntil.value) else row.availableAt
  }

  /** Claim creates the row if it is new, then leases it under a fresh token if it is due. */
  function Claim(rows: Rows, now: Time, q: Request, token: nat): (r: (Rows, ClaimResult))
    ensures r.1.Claimed? ==> q.key in r.0
  {
    if !ValidRequest(q) then (rows, Invalid)
    else if SourceElsewhere(rows, q.key, q.source) then (rows, Conflict)
    else
      var seen := if q.key in rows then rows else rows[q.key := NewRow(now, q)];
      var row := seen[q.key];
      if Claimable(row, now) then
        var leased := row.(status := Inflight, attempts := row.attempts + 1, leaseOwner := Some(q.owner),
                           token := Some(token), leaseUntil := Some(now + Whole(q.lease)));
        (seen[q.key := leased], Claimed(row.attempts + 1, now + Whole(q.lease)))
      else if row.status == Processed then (seen, AlreadyProcessed)
      else if row.status == Dead then (seen, ClaimDead)
      else (seen, Waiting(ResumeAt(row)))
  }

  /** The fence every result carries. */
  predicate Holds(rows: Rows, key: Key, token: nat) {
    key in rows && rows[key].status == Inflight && rows[key].token == Some(token)
  }

  function Unleased(row: Row): Row {
    row.(leaseOwner := None, token := None, leaseUntil := None)
  }

  function Renew(rows: Rows, now: Time, key: Key, token: nat, lease: Time): (r: Option<Rows>) {
    if lease <= 0 || !Holds(rows, key, token) then None
    else Some(rows[key := rows[key].(leaseUntil := Some(now + Whole(lease)))])
  }

  function MarkProcessed(rows: Rows, now: Time, key: Key, token: nat): (r: Option<Rows>) {
    if !Holds(rows, key, token) then None
    else Some(rows[key := Unleased(rows[key]).(status := Processed, processedAt := Some(now), availableAt := now)])
  }

  function MarkRetry(rows: Rows, now: Time, key: Key, token: nat, delay: Time): (r: Option<Rows>) {
    if delay < 0 || !Holds(rows, key, token) then None
    else
      var row := Unleased(rows[key]).(status := RetryWait, processedAt := None, availableAt := now + Whole(delay));
      Some(rows[key := row])
  }

  function MarkDead(rows: Rows, now: Time, key: Key, token: nat): (r: Option<Rows>) {
    if !Holds(rows, key, token) then None
    else Some(rows[key := Unleased(rows[key]).(status := Dead, processedAt := None, availableAt := now)])
  }

  function RetryDead(rows: Rows, now: Time, key: Key): (r: Option<Rows>) {
    if key !in rows || rows[key].status != Dead then None
    else Some(rows[key := Unleased(rows[key]).(status := RetryWait, processedAt := None, availableAt := now)])
  }

  datatype LegacyResult = Invalidated | Done | Duplicate | ActiveConflict | CallbackFailed

  /** The unmanaged path: insert a processed marker, run the callback, keep both or neither.
      A trigger refuses the marker while a managed row is active. */
  function Process(rows: Rows, now: Time, key: Key, callback: bool): (r: (Rows, LegacyResult)) {
    if Blank(key.consumer) then (rows, Invalidated)
    else if key in rows then (rows, if rows[key].status == Processed then Duplicate else ActiveConflict)
    else if !callback then (rows, CallbackFailed)
    else (rows[key := Row(Processed, 0, now, None, None, None, Some(now), None, None)], Done)
  }

  // ---------------------------------------------------------------- runs

  /** Who committed an effect: the handler of a claim, or an unmanaged call. */
  datatype Effect = ByClaim(token: nat) | ByProcess

  /** claims[t] is the row the claim with token t leased. */
  datatype State = State(now: Time, rows: Rows, claims: seq<Key>, effects: map<Key, seq<Effect>>)

  datatype Step =
    | Tick(elapsed: nat)
    | TakeClaim(request: Request)
    | RenewClaim(token: nat, lease: Time)
    | Commit(token: nat)
    | Retry(token: nat, delay: Time)
    | Bury(token: nat)
    | Revive(key: Key)
    | Unmanaged(key: Key, callback: bool)

  function Init(now: Time): State {
    State(now, map[], [], map[])
  }

  function EffectsOn(s: State, key: Key): seq<Effect> {
    if key in s.effects then s.effects[key] else []
  }

  function WithRows(s: State, rows: Option<Rows>): State {
    if rows.Some? then s.(rows := rows.value) else s
  }

  function StepClaim(s: State, q: Request): State {
    var (rows, result) := Claim(s.rows, s.now, q, |s.claims|);
    s.(rows := rows, claims := if result.Claimed? then s.claims + [q.key] else s.claims)
  }

  /** The handler transaction and the processed mark commit as one. */
  function StepCommit(s: State, token: nat): State
    requires token < |s.claims|
  {
    var key := s.claims[token];
    var rows := MarkProcessed(s.rows, s.now, key, token);
    if rows.None? then s
    else s.(rows := rows.value, effects := s.effects[key := EffectsOn(s, key) + [ByClaim(token)]])
  }

  function StepUnmanaged(s: State, key: Key, callback: bool): State {
    var (rows, result) := Process(s.rows, s.now, key, callback);
    if result.Done? then s.(rows := rows, effects := s.effects[key := EffectsOn(s, key) + [ByProcess]]) else s
  }

  function Apply(s: State, step: Step): State {
    match step
    case Tick(elapsed) => s.(now := s.now + elapsed)
    case TakeClaim(q) => StepClaim(s, q)
    case RenewClaim(t, lease) => if t < |s.claims| then WithRows(s, Renew(s.rows, s.now, s.claims[t], t, lease)) else s
    case Commit(t) => if t < |s.claims| then StepCommit(s, t) else s
    case Retry(t, delay) => if t < |s.claims| then WithRows(s, MarkRetry(s.rows, s.now, s.claims[t], t, delay)) else s
    case Bury(t) => if t < |s.claims| then WithRows(s, MarkDead(s.rows, s.now, s.claims[t], t)) else s
    case Revive(key) => WithRows(s, RetryDead(s.rows, s.now, key))
    case Unmanaged(key, callback) => StepUnmanaged(s, key, callback)
  }

  function Exec(s: State, steps: seq<Step>): State
    decreases |steps|
  {
    if steps == [] then s else Exec(Apply(s, steps[0]), steps[1..])
  }

  ghost predicate Reachable(s: State) {
    exists start, steps :: s == Exec(Init(start), steps)
  }

  // ---------------------------------------------------------------- what every step keeps

  predicate ValidSource(row: Row) {
    match row.source
    case None => row.sourceTimestamp.None? && row.status == Processed
    case Some(source) => !Blank(source.topic) && source.partition >= 0 && source.offset >= 0
  }

  predicate Shaped(row: Row) {
    && row.attempts >= 0
    && (row.status == Inflight <==> row.leaseOwner.Some?) && (row.leaseOwner.Some? ==> !Blank(row.leaseOwner.value))
    && (row.status == Inflight <==> row.token.Some?)
    && (row.status == Inflight <==> row.leaseUntil.Some?)
    && (row.status == Processed <==> row.processedAt.Some?)
    && ValidSource(row)
  }

  /** No claim on the row is later than the one with this token. */
  ghost predicate Latest(claims: seq<Key>, token: nat, key: Key) {
    && token < |claims| && claims[token] == key
    && forall t :: token < t < |claims| ==> claims[t] != key
  }

  ghost predicate RowOk(claims: seq<Key>, key: Key, row: Row) {
    Shaped(row) && !Blank(key.consumer) && (row.token.Some? ==> Latest(claims, row.token.value, key))
  }

  predicate IsProcessed(rows: Rows, key: Key) {
    key in rows && rows[key].status == Processed
  }

  ghost predicate EffectsOk(s: State, key: Key) {
    |EffectsOn(s, key)| == if IsProcessed(s.rows, key) then 1 else 0
  }

  ghost predicate UniqueSources(rows: Rows) {
    forall a, b ::
      (a in rows && b in rows && a.consumer == b.consumer && rows[a].source.Some? && rows[a].source == rows[b].source)
        ==> a == b
  }

  ghost predicate Sound(s: State) {
    && (forall key :: key in s.rows ==> RowOk(s.claims, key, s.rows[key]))
    && UniqueSources(s.rows)
    && (forall key :: EffectsOk(s, key))
  }

  /** One row changes; it was not processed, keeps its source, and its effects keep pace. */
  ghost predicate OneRow(s: State, s': State, key: Key) {
    && key in s'.rows && s'.rows == s.rows[key := s'.rows[key]]
    && (forall t :: 0 <= t < |s.claims| ==> t < |s'.claims| && s'.claims[t] == s.claims[t])
    && (forall t :: |s.claims| <= t < |s'.claims| ==> s'.claims[t] == key)
    && RowOk(s'.claims, key, s'.rows[key])
    && (key in s.rows ==> s'.rows[key].source == s.rows[key].source)
    && (key !in s.rows && s'.rows[key].source.Some? ==> !SourceElsewhere(s.rows, key, s'.rows[key].source.value))
    && (forall k :: k != key ==> EffectsOn(s', k) == EffectsOn(s, k)) && EffectsOk(s', key)
  }

  lemma OneRowKeeps(s: State, s': State, key: Key)
    requires Sound(s) && OneRow(s, s', key)
    ensures Sound(s')
  {
    forall k | k in s'.rows && k != key ensures RowOk(s'.claims, k, s'.rows[k]) {
      assert RowOk(s.claims, k, s.rows[k]);
    }
    forall a, b | a in s'.rows && b in s'.rows && a.consumer == b.consumer && s'.rows[a].source.Some?
      && s'.rows[a].source == s'.rows[b].source
      ensures a == b
    {
      if key !in s.rows && a != b && (a == key || b == key) {
        var other := if a == key then b else a;
        assert other in s.rows && s.rows[other].source == s'.rows[key].source;
        assert SourceElsewhere(s.rows, key, s'.rows[key].source.value);
        assert false;
      }
    }
    forall k ensures EffectsOk(s', k) {
      assert EffectsOk(s, k);
    }
  }

  lemma ClaimKeeps(s: State, q: Request)
    requires Sound(s)
    ensures Sound(StepClaim(s, q))
  {
    var s' := StepClaim(s, q);
    if ValidRequest(q) && !SourceElsewhere(s.rows, q.key, q.source) {
      assert EffectsOk(s, q.key);
      if q.key in s.rows { assert RowOk(s.claims, q.key, s.rows[q.key]); }
      OneRowKeeps(s, s', q.key);
    }
  }

  lemma HeldKeeps(s: State, token: nat, row: Row)
    requires Sound(s) && token < |s.claims| && Holds(s.rows, s.claims[token], token)
    requires Shaped(row) && row.status != Processed && row.source == s.rows[s.claims[token]].source
    requires row.token.Some? ==> row.token == Some(token)
    ensures Sound(s.(rows := s.rows[s.claims[token] := row]))
  {
    var key := s.claims[token];
    assert RowOk(s.claims, key, s.rows[key]) && EffectsOk(s, key);
    OneRowKeeps(s, s.(rows := s.rows[key := row]), key);
  }

  lemma CommitKeeps(s: State, token: nat)
    requires Sound(s) && token < |s.claims|
    ensures Sound(StepCommit(s, token))
  {
    var key := s.claims[token];
    if Holds(s.rows, key, token) {
      assert RowOk(s.claims, key, s.rows[key]) && EffectsOk(s, key);
      OneRowKeeps(s, StepCommit(s, token), key);
    }
  }

  lemma ReviveKeeps(s: State, key: Key)
    requires Sound(s)
    ensures Sound(WithRows(s, RetryDead(s.rows, s.now, key)))
  {
    if RetryDead(s.rows, s.now, key).Some? {
      assert RowOk(s.claims, key, s.rows[key]) && EffectsOk(s, key);
      OneRowKeeps(s, WithRows(s, RetryDead(s.rows, s.now, key)), key);
    }
  }

  lemma UnmanagedKeeps(s: State, key: Key, callback: bool)
    requires Sound(s)
    ensures Sound(StepUnmanaged(s, key, callback))
  {
    if Process(s.rows, s.now, key, callback).1.Done? {
      assert EffectsOk(s, key);
      OneRowKeeps(s, StepUnmanaged(s, key, callback), key);
    }
  }

  lemma StepKeeps(s: State, step: Step)
    requires Sound(s)
    ensures Sound(Apply(s, step))
  {
    match step
    case Tick(_) =>
      forall k ensures EffectsOk(Apply(s, step), k) { assert EffectsOk(s, k); }
    case TakeClaim(q) => ClaimKeeps(s, q);
    case RenewClaim(t, lease) => if t < |s.claims| && Renew(s.rows, s.now, s.claims[t], t, lease).Some? {
      assert RowOk(s.claims, s.claims[t], s.rows[s.claims[t]]);
      HeldKeeps(s, t, Renew(s.rows, s.now, s.claims[t], t, lease).value[s.claims[t]]);
    }
    case Commit(t) => if t < |s.claims| { CommitKeeps(s, t); }
    case Retry(t, delay) => if t < |s.claims| && MarkRetry(s.rows, s.now, s.claims[t], t, delay).Some? {
      assert RowOk(s.claims, s.claims[t], s.rows[s.claims[t]]);
      HeldKeeps(s, t, MarkRetry(s.rows, s.now, s.claims[t], t, delay).value[s.claims[t]]);
    }
    case Bury(t) => if t < |s.claims| && MarkDead(s.rows, s.now, s.claims[t], t).Some? {
      assert RowOk(s.claims, s.claims[t], s.rows[s.claims[t]]);
      HeldKeeps(s, t, MarkDead(s.rows, s.now, s.claims[t], t).value[s.claims[t]]);
    }
    case Revive(key) => ReviveKeeps(s, key);
    case Unmanaged(key, callback) => UnmanagedKeeps(s, key, callback);
  }

  lemma {:induction false} RunKeeps(s: State, steps: seq<Step>)
    requires Sound(s)
    ensures Sound(Exec(s, steps))
    decreases |steps|
  {
    if steps != [] {
      StepKeeps(s, steps[0]);
      RunKeeps(Apply(s, steps[0]), steps[1..]);
    }
  }

  lemma ReachableIsSound(s: State)
    requires Reachable(s)
    ensures Sound(s)
  {
    var start, steps :| s == Exec(Init(start), steps);
    RunKeeps(Init(start), steps);
  }

  // ---------------------------------------------------------------- exactly once

  /** Over any run of claims, expiries, reclaims, renewals, stale handlers, operator
      retries and unmanaged calls, one transaction at most has committed for a row, and
      one has exactly when the row is processed. */
  lemma EffectsCommitExactlyOnce(s: State, key: Key)
    requires Reachable(s)
    ensures |EffectsOn(s, key)| <= 1
    ensures |EffectsOn(s, key)| == 1 <==> IsProcessed(s.rows, key)
  {
    ReachableIsSound(s);
    assert EffectsOk(s, key);
  }

  /** No step leaves the processed state, or adds an effect to it. */
  lemma {:induction false} ProcessedIsFinal(s: State, steps: seq<Step>, key: Key)
    requires Sound(s) && IsProcessed(s.rows, key)
    ensures IsProcessed(Exec(s, steps).rows, key) && EffectsOn(Exec(s, steps), key) == EffectsOn(s, key)
    decreases |steps|
  {
    if steps != [] {
      StepKeeps(s, steps[0]);
      ProcessedStays(s, steps[0], key);
      ProcessedIsFinal(Apply(s, steps[0]), steps[1..], key);
    }
  }

  lemma ProcessedStays(s: State, step: Step, key: Key)
    requires Sound(s) && IsProcessed(s.rows, key)
    ensures IsProcessed(Apply(s, step).rows, key) && EffectsOn(Apply(s, step), key) == EffectsOn(s, key)
  {
    assert RowOk(s.claims, key, s.rows[key]);
  }

  /** A commit that takes effect comes from the latest claim on its row: a handler whose
      lease was taken over can no longer commit. */
  lemma OnlyTheLatestClaimCommits(s: State, token: nat)
    requires Reachable(s) && token < |s.claims| && StepCommit(s, token) != s
    ensures Latest(s.claims, token, s.claims[token]) && !IsProcessed(s.rows, s.claims[token])
    ensures IsProcessed(StepCommit(s, token).rows, s.claims[token])
  {
    ReachableIsSound(s);
    assert RowOk(s.claims, s.claims[token], s.rows[s.claims[token]]);
  }
}
