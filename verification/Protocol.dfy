/** The delivery protocol as a state machine: the database, the Relays' event
    handlers, the broker's logs, and a record of what has happened so far.

    Every SQL statement or short transaction is one atomic step at the time shown
    by a single monotone database clock. Steps are labels; a label whose guard does
    not hold changes nothing, so every sequence of labels is a run. */
module Protocol {
  import opened Types
  import opened Selection
  import opened Tables
  import Ownership

  /** The Relay settings the protocol depends on. */
  datatype Config = Config(
    batchSize: int,
    concurrency: int,
    pollInterval: Time,
    idleBackoffMax: Time,
    eventLease: Time,
    maxAttempts: int,
    baseDelay: Time,
    maxDelay: Time,
    publishTimeout: Time,
    heartbeatInterval: Time,
    staleAfter: Time,
    rebalanceInterval: Time,
    orderingLease: Time,
    safetyMargin: Time)
  {
    /** Config.Validate, for the settings above. */
    predicate Valid() {
      && batchSize > 0 && concurrency > 0
      && pollInterval > 0 && idleBackoffMax >= pollInterval
      && maxAttempts >= 1
      && baseDelay > 0 && maxDelay >= baseDelay
      && 0 < publishTimeout < eventLease
      && 0 < heartbeatInterval < staleAfter
      && safetyMargin > 0
      && orderingLease > publishTimeout + safetyMargin
      && 0 < rebalanceInterval < orderingLease
    }

    /** The partition lease an ordered claim or attempt asks for, as SQL sees it. */
    function PublishWindow(): Time {
      Whole(publishTimeout + safetyMargin)
    }
  }

  /** The same checks in the order they are made, for the settings the model keeps. */
  method Validate(c: Config) returns (ok: bool)
    ensures ok == c.Valid()
  {
    if c.batchSize <= 0 || c.concurrency <= 0 { return false; }
    if c.pollInterval <= 0 || c.idleBackoffMax <= 0 || c.idleBackoffMax < c.pollInterval { return false; }
    if c.eventLease <= 0 || c.maxAttempts < 1 { return false; }
    if c.baseDelay <= 0 || c.maxDelay < c.baseDelay { return false; }
    if c.publishTimeout <= 0 || c.publishTimeout >= c.eventLease { return false; }
    if c.heartbeatInterval <= 0 || c.staleAfter <= c.heartbeatInterval { return false; }
    if c.rebalanceInterval <= 0 || c.orderingLease <= 0 || c.safetyMargin <= 0 { return false; }
    if c.orderingLease <= c.publishTimeout + c.safetyMargin { return false; }
    if c.rebalanceInterval >= c.orderingLease { return false; }
    return true;
  }

  /** What never changes during a run: the partition hash, the ownership hash, and
      the configuration each Relay instance id runs with. */
  datatype Env = Env(part: StreamKey -> nat, score: Ownership.Score, cfg: string -> Config)

  ghost predicate ValidEnv(env: Env) {
    && (forall k :: env.part(k) < PARTITION_COUNT)
    && (forall r :: env.cfg(r).Valid())
  }

  predicate InstanceId(r: string) {
    !Blank(r) && !Padded(r)
  }

  /** A position in an ordered stream. */
  datatype Slot = Slot(stream: StreamKey, sequence: int)

  datatype Phase = Claimed | Publishing | Acked | Failed(permanent: bool) | Finished

  /** One run of Relay.handle, from its claim to its return. */
  datatype Handler = Handler(
    owner: string,
    id: Id,
    slot: Option<Slot>,
    partition: int,
    epoch: int,
    attempts: int,
    claimedAt: Time,
    begun: bool,
    beganAt: Time,
    phase: Phase,
    alive: bool,
    appended: bool)

  /** One broker record of an ordered event, with the attempt that produced it. */
  datatype Record = Record(id: Id, sequence: int, handler: nat, at: Time)

  type Log = map<StreamKey, seq<Record>>

  datatype World = World(
    db: Db,
    handlers: seq<Handler>,
    log: Log,
    enqueued: map<Id, Option<Slot>>,
    acked: set<Id>,
    deliveredBy: map<Slot, Id>,
    begins: map<Id, nat>,
    retries: map<Id, nat>)

  datatype Step =
    | Tick(elapsed: nat)
    | SetPaused(paused: bool)
    | Register(instance: string, capable: bool)
    | Heartbeat(instance: string)
    | Stop(instance: string)
    | Enqueue(id: Id, event: NewEvent)
    | Replay(source: Id, id: Id, unordered: bool)
    | RetryDead(id: Id)
    | Cleanup(retention: Time, batch: set<Id>)
    | Reconcile(owner: string)
    | Release(owner: string)
    | ClaimOrdered(owner: string, limit: nat, locked: set<Id>)
    | ClaimUnordered(owner: string, limit: nat, locked: set<Id>)
    | Begin(h: nat)
    | Append(h: nat)
    | Ack(h: nat)
    | Fail(h: nat, permanent: bool)
    | MarkDelivered(h: nat)
    | MarkRetry(h: nat, delay: Time)
    | MarkDead(h: nat)
    | Abandon(h: nat)
    | Crash(owner: string)

  function SlotOf(e: Event): Option<Slot> {
    if e.key.Some? && e.sequence.Some? then Some(Slot(StreamKey(e.destination, e.key.value), e.sequence.value))
    else None
  }

  function LogFor(log: Log, k: StreamKey): seq<Record> {
    if k in log then log[k] else []
  }

  function LogOf(w: World, k: StreamKey): seq<Record> {
    LogFor(w.log, k)
  }

  function Count(m: map<Id, nat>, id: Id): nat {
    if id in m then m[id] else 0
  }

  function Init(now: Time): World {
    World(Db(now, false, map[], map[], seq(PARTITION_COUNT, _ => Partition(None, None, 0, None, None)), map[]),
          [], map[], map[], {}, map[], map[], map[])
  }

  // ---------------------------------------------------------------- handler steps

  /** Handlers never touch the clock, the partitions, presence, or the record of
      enqueues and operator retries. */
  predicate Private(w: World, w': World) {
    && w'.db.now == w.db.now && w'.db.partitions == w.db.partitions && w'.db.relays == w.db.relays
    && w'.db.paused == w.db.paused && w'.enqueued == w.enqueued && w'.retries == w.retries
    && |w'.handlers| == |w.handlers|
  }

  /** Nor do most of them touch the broker, the cursors, or the record of deliveries. */
  predicate Silent(w: World, w': World) {
    Private(w, w') && w'.log == w.log && w'.db.streams == w.db.streams && w'.deliveredBy == w.deliveredBy
  }

  /** Only beginning an attempt counts one. */
  ghost predicate Uncounted(w: World, w': World) {
    w'.begins == w.begins && SameAttempts(w.db.events, w'.db.events)
  }

  predicate Running(w: World, h: nat) {
    h < |w.handlers| && w.handlers[h].alive
  }

  function NewHandler(db: Db, owner: string, id: Id): Handler
    requires id in db.events
  {
    var e := db.events[id];
    var p := PartitionOf(db, e);
    Handler(owner, id, SlotOf(e), if e.partition.Some? then e.partition.value else 0,
            if p.Some? then p.value.epoch else 0, e.attempts, db.now, false, db.now, Claimed, true, false)
  }

  /** A claim leases its picks and dispatches one handler for each. */
  function Dispatch(env: Env, w: World, owner: string, picks: seq<Id>): (w': World)
    requires forall i :: 0 <= i < |picks| ==> picks[i] in w.db.events
    ensures OnlyEvents(w.db, w'.db) && w'.log == w.log && w'.enqueued == w.enqueued && w'.acked == w.acked
    ensures w'.deliveredBy == w.deliveredBy && w'.retries == w.retries && Uncounted(w, w')
  {
    w.(db := Lease(w.db, picks, owner, env.cfg(owner).eventLease),
       handlers := w.handlers + seq(|picks|, i requires 0 <= i < |picks| => NewHandler(w.db, owner, picks[i])))
  }

  ghost function ClaimedIds(env: Env, w: World, owner: string, limit: nat, locked: set<Id>): seq<Id> {
    OrderedPicks(w.db, owner, limit, env.cfg(owner).PublishWindow(), locked)
  }

  function SetPhase(w: World, h: nat, phase: Phase): World
    requires h < |w.handlers|
  {
    w.(handlers := w.handlers[h := w.handlers[h].(phase := phase)])
  }

  function BeginResult(env: Env, db: Db, x: Handler): (result: Option<Db>)
    ensures result.Some? ==> x.id in db.events && x.id in result.value.events && OnlyEvents(db, result.value)
  {
    var c := env.cfg(x.owner);
    if x.slot.Some? then BeginOrderedAttempt(db, x.id, x.owner, x.epoch, c.maxAttempts, c.PublishWindow())
    else BeginAttempt(db, x.id, x.owner, c.maxAttempts)
  }

  /** The attempt budget is checked first, then the attempt is recorded under its fence. */
  function StepBegin(env: Env, w: World, h: nat): (w': World)
    ensures Silent(w, w') && w'.acked == w.acked
  {
    if !Running(w, h) || w.handlers[h].phase != Claimed
       || w.handlers[h].attempts >= env.cfg(w.handlers[h].owner).maxAttempts then w
    else
      var x := w.handlers[h];
      var result := BeginResult(env, w.db, x);
      if result.None? then SetPhase(w, h, Finished)
      else
        w.(db := result.value,
           handlers := w.handlers[h := x.(phase := Publishing, begun := true, beganAt := w.db.now,
                                          attempts := result.value.events[x.id].attempts)],
           begins := w.begins[x.id := Count(w.begins, x.id) + 1])
  }

  /** The broker accepts the record of an attempt: a request once sent may land at any
      later time, any number of times, whether or not its Publish call has returned. */
  function StepAppend(w: World, h: nat): (w': World)
    ensures Private(w, w') && w'.db == w.db && w'.deliveredBy == w.deliveredBy
    ensures Uncounted(w, w')
  {
    if h >= |w.handlers| || !w.handlers[h].begun then w
    else
      var x := w.handlers[h];
      var w' := w.(handlers := w.handlers[h := x.(appended := true)]);
      if x.slot.None? then w'
      else
        var k := x.slot.value.stream;
        w'.(log := w.log[k := LogOf(w, k) + [Record(x.id, x.slot.value.sequence, h, w.db.now)]])
  }

  function StepAck(w: World, h: nat): (w': World)
    ensures Silent(w, w')
    ensures Uncounted(w, w')
  {
    if !Running(w, h) || w.handlers[h].phase != Publishing || !w.handlers[h].appended then w
    else SetPhase(w, h, Acked).(acked := w.acked + {w.handlers[h].id})
  }

  function StepFail(w: World, h: nat, permanent: bool): (w': World)
    ensures Silent(w, w')
    ensures Uncounted(w, w')
  {
    if !Running(w, h) || w.handlers[h].phase != Publishing then w else SetPhase(w, h, Failed(permanent))
  }

  function DeliveredResult(db: Db, x: Handler): (r: Option<Db>)
    ensures r.Some? ==> OnlyRows(db, r.value) && SameAttempts(db.events, r.value.events)
    ensures r.Some? && x.slot.None? ==> OnlyEvents(db, r.value)
  {
    if x.slot.Some? then MarkOrderedDelivered(db, x.id, x.owner, x.epoch, x.slot.value.sequence)
    else Tables.MarkDelivered(db, x.id, x.owner)
  }

  function StepMarkDelivered(w: World, h: nat): (w': World)
    ensures Private(w, w') && w'.log == w.log
    ensures Uncounted(w, w')
  {
    if !Running(w, h) || w.handlers[h].phase != Acked then w
    else
      var x := w.handlers[h];
      var result := DeliveredResult(w.db, x);
      var done := SetPhase(w, h, Finished);
      if result.None? then done
      else done.(db := result.value,
                 deliveredBy := if x.slot.Some? then w.deliveredBy[x.slot.value := x.id] else w.deliveredBy)
  }

  predicate MayRetry(env: Env, x: Handler) {
    x.phase == Failed(false) && x.attempts < env.cfg(x.owner).maxAttempts
  }

  predicate MayBury(env: Env, x: Handler) {
    var spent := x.attempts >= env.cfg(x.owner).maxAttempts;
    (x.phase == Claimed && spent) || (x.phase.Failed? && (x.phase.permanent || spent))
  }

  function RetryResult(db: Db, x: Handler, delay: Time): (r: Option<Db>)
    ensures r.Some? ==> OnlyEvents(db, r.value) && SameAttempts(db.events, r.value.events)
  {
    if x.slot.Some? then MarkOrderedRetry(db, x.id, x.owner, x.epoch, x.slot.value.sequence, delay)
    else Tables.MarkRetry(db, x.id, x.owner, delay)
  }

  function DeadResult(db: Db, x: Handler): (r: Option<Db>)
    ensures r.Some? ==> OnlyEvents(db, r.value) && SameAttempts(db.events, r.value.events)
  {
    if x.slot.Some? then MarkOrderedDead(db, x.id, x.owner, x.epoch, x.slot.value.sequence)
    else Tables.MarkDead(db, x.id, x.owner)
  }

  function StepMarkRetry(env: Env, w: World, h: nat, delay: Time): (w': World)
    ensures Silent(w, w')
    ensures Uncounted(w, w')
  {
    if !Running(w, h) || !MayRetry(env, w.handlers[h]) then w
    else
      var result := RetryResult(w.db, w.handlers[h], delay);
      var done := SetPhase(w, h, Finished);
      if result.None? then done else done.(db := result.value)
  }

  function StepMarkDead(env: Env, w: World, h: nat): (w': World)
    ensures Silent(w, w')
    ensures Uncounted(w, w')
  {
    if !Running(w, h) || !MayBury(env, w.handlers[h]) then w
    else
      var result := DeadResult(w.db, w.handlers[h]);
      var done := SetPhase(w, h, Finished);
      if result.None? then done else done.(db := result.value)
  }

  /** A handler returns without recording a result; it never does so inside Publish. */
  function StepAbandon(w: World, h: nat): (w': World)
    ensures Silent(w, w')
    ensures Uncounted(w, w')
  {
    if !Running(w, h) || w.handlers[h].phase == Publishing then w else SetPhase(w, h, Finished)
  }

  /** A process dies: its handlers stop, but requests already sent may still land. */
  function StepCrash(w: World, owner: string): (w': World)
    ensures Silent(w, w')
    ensures Uncounted(w, w')
  {
    w.(handlers := seq(|w.handlers|, i requires 0 <= i < |w.handlers| =>
      if w.handlers[i].owner == owner then w.handlers[i].(alive := false) else w.handlers[i]))
  }

  predicate ClockStep(step: Step) {
    step.Tick? || step.SetPaused? || step.Register? || step.Heartbeat? || step.Stop?
  }

  predicate PartitionStep(step: Step) {
    step.Reconcile? || step.Release?
  }

  predicate TableStep(step: Step) {
    step.Enqueue? || step.Replay? || step.RetryDead? || step.Cleanup?
  }

  predicate ClaimStep(step: Step) {
    step.ClaimOrdered? || step.ClaimUnordered?
  }

  predicate HandlerStep(step: Step) {
    !ClockStep(step) && !PartitionStep(step) && !TableStep(step) && !ClaimStep(step)
  }

  function ApplyClock(db: Db, step: Step): (db': Db)
    requires ClockStep(step)
    ensures db'.events == db.events && db'.streams == db.streams && db'.partitions == db.partitions && db.now <= db'.now
  {
    match step
    case Tick(elapsed) => db.(now := db.now + elapsed)
    case SetPaused(paused) => db.(paused := paused)
    case Register(r, capable) => if InstanceId(r) then Tables.Register(db, r, capable) else db
    case Heartbeat(r) => Tables.Heartbeat(db, r)
    case Stop(r) => Tables.Stop(db, r)
  }

  ghost function ApplyPartition(env: Env, db: Db, step: Step): (db': Db)
    requires PartitionStep(step)
    ensures db'.events == db.events && db'.streams == db.streams && db'.now == db.now
    ensures |db'.partitions| == |db.partitions|
    ensures db'.relays == db.relays && db'.paused == db.paused
  {
    var c := env.cfg(step.owner);
    if step.Release? then Tables.Release(db, step.owner, c.safetyMargin)
    else if InstanceId(step.owner)
    then Tables.Reconcile(env.score, db, step.owner, c.orderingLease, c.publishTimeout, c.staleAfter, c.safetyMargin)
    else db
  }

  function ApplyTable(env: Env, w: World, step: Step): (w': World)
    requires TableStep(step)
    ensures OnlyRows(w.db, w'.db) && w'.handlers == w.handlers && w'.log == w.log
    ensures w'.acked == w.acked && w'.deliveredBy == w.deliveredBy && w'.begins == w.begins
  {
    match step
    case Enqueue(id, event) => (
      var result := Tables.Enqueue(env.part, w.db, id, event);
      if result.Enqueued? && id in result.db.events
      then w.(db := result.db, enqueued := w.enqueued[id := SlotOf(result.db.events[id])])
      else w)
    case Replay(source, id, unordered) => (
      var result := Tables.Replay(w.db, source, id, unordered);
      if result.Some? then w.(db := result.value, enqueued := w.enqueued[id := None]) else w)
    case RetryDead(id) => (
      var result := Tables.RetryDead(w.db, id);
      if result.Some? then w.(db := result.value, retries := w.retries[id := Count(w.retries, id) + 1]) else w)
    case Cleanup(retention, batch) => w.(db := CleanupDelivered(w.db, retention, batch))
  }

  ghost function Picks(env: Env, w: World, step: Step): (picks: seq<Id>)
    requires ClaimStep(step)
    ensures forall i :: 0 <= i < |picks| ==> picks[i] in w.db.events
  {
    if step.ClaimOrdered? then ClaimedIds(env, w, step.owner, step.limit, step.locked)
    else UnorderedPicks(w.db, step.limit, step.locked)
  }

  function ApplyHandler(env: Env, w: World, step: Step): (w': World)
    requires HandlerStep(step)
    ensures Private(w, w')
    ensures !step.Append? ==> w'.log == w.log
    ensures !step.MarkDelivered? ==> w'.db.streams == w.db.streams && w'.deliveredBy == w.deliveredBy
    ensures !step.Begin? ==> Uncounted(w, w')
  {
    match step
    case Begin(h) => StepBegin(env, w, h)
    case Append(h) => StepAppend(w, h)
    case Ack(h) => StepAck(w, h)
    case Fail(h, permanent) => StepFail(w, h, permanent)
    case MarkDelivered(h) => StepMarkDelivered(w, h)
    case MarkRetry(h, delay) => StepMarkRetry(env, w, h, delay)
    case MarkDead(h) => StepMarkDead(env, w, h)
    case Abandon(h) => StepAbandon(w, h)
    case Crash(r) => StepCrash(w, r)
  }

  ghost function Apply(env: Env, w: World, step: Step): World {
    if ClockStep(step) then w.(db := ApplyClock(w.db, step))
    else if PartitionStep(step) then w.(db := ApplyPartition(env, w.db, step))
    else if TableStep(step) then ApplyTable(env, w, step)
    else if ClaimStep(step) then Dispatch(env, w, step.owner, Picks(env, w, step))
    else ApplyHandler(env, w, step)
  }

  // ---------------------------------------------------------------- runs

  ghost function Exec(env: Env, w: World, steps: seq<Step>): World
    decreases |steps|
  {
    if steps == [] then w else Exec(env, Apply(env, w, steps[0]), steps[1..])
  }

  /** The instant an attempt's publication window closes. */
  function WindowEnd(env: Env, x: Handler): Time {
    x.beganAt + env.cfg(x.owner).publishTimeout + env.cfg(x.owner).safetyMargin
  }

  /** A handler that may still act: its process runs and it has not returned, or its
      process died inside Publish and the request may still be accepted. */
  predicate Live(env: Env, x: Handler, now: Time) {
    || (x.alive && x.phase != Finished)
    || (x.phase == Publishing && now < WindowEnd(env, x))
  }

  /** Event ids are UUIDs: no producer or replay reuses one. */
  predicate FreshIds(w: World, step: Step) {
    && (step.Enqueue? ==> step.id !in w.enqueued)
    && (step.Replay? ==> step.id !in w.enqueued)
  }

  /** The broker accepts an attempt's record only before the Publish call returns and
      strictly inside the attempt's window. */
  predicate Timely(env: Env, w: World, step: Step) {
    step.Append? && step.h < |w.handlers| ==>
      w.handlers[step.h].phase == Publishing && w.db.now < WindowEnd(env, w.handlers[step.h])
  }

  /** Within one epoch, an event is not reclaimed while an earlier handler is live. */
  ghost predicate Exclusive(env: Env, w: World, step: Step) {
    step.ClaimOrdered? ==>
      var picks := ClaimedIds(env, w, step.owner, step.limit, step.locked);
      forall i, h :: 0 <= i < |picks| && 0 <= h < |w.handlers|
        && w.handlers[h].slot.Some? && w.handlers[h].id == picks[i]
        && w.handlers[h].epoch == NewHandler(w.db, step.owner, picks[i]).epoch
        ==> !Live(env, w.handlers[h], w.db.now)
  }

  /** Which hypotheses a run is assumed to meet besides fresh ids. */
  datatype Assumed = Assumed(timely: bool, exclusive: bool)

  ghost predicate Allowed(env: Env, w: World, step: Step, a: Assumed) {
    && FreshIds(w, step)
    && (a.timely ==> Timely(env, w, step))
    && (a.exclusive ==> Exclusive(env, w, step))
  }

  ghost predicate Run(env: Env, w: World, steps: seq<Step>, a: Assumed)
    decreases |steps|
  {
    steps == [] || (Allowed(env, w, steps[0], a) && Run(env, Apply(env, w, steps[0]), steps[1..], a))
  }

  ghost predicate Reachable(env: Env, w: World, a: Assumed) {
    exists start, steps :: Run(env, Init(start), steps, a) && w == Exec(env, Init(start), steps)
  }
}
