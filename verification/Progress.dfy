/** Never stuck: while a stream's expected event is retained and not dead, one running
    Relay can by itself advance the cursor or bury the event, through steps that respect
    both timing assumptions, its batch size and its concurrency, and with every other row
    free to be claimed before it, if and only if its ordering lease covers the publish
    window in whole milliseconds. Config.Validate compares the two before rounding. */
module Progress {
  import opened Types
  import opened Selection
  import opened Tables
  import opened Protocol
  import opened Consistency
  import opened Windows
  import Ownership

  /** A continuation must respect both timing assumptions. */
  const STRICT := Assumed(true, true)

  /** The event a stream waits for is retained and not dead. */
  predicate Expected(db: Db, slot: Slot, id: Id) {
    && slot.stream in db.streams && db.streams[slot.stream].next == slot.sequence
    && id in db.events && SlotOf(db.events[id]) == Some(slot) && db.events[id].status != Dead
  }

  predicate Unstuck(db: Db, slot: Slot, id: Id) {
    || (slot.stream in db.streams && db.streams[slot.stream].next == slot.sequence + 1)
    || (id in db.events && SlotOf(db.events[id]) == Some(slot) && db.events[id].status == Dead)
  }

  /** Steps that belong to Relay r, its broker requests, or the clock. */
  predicate Own(w: World, r: string, step: Step) {
    match step
    case Tick(_) => true
    case Register(s, _) => s == r
    case Heartbeat(s) => s == r
    case Stop(s) => s == r
    case Reconcile(s) => s == r
    case Release(s) => s == r
    case ClaimOrdered(s, _, _) => s == r
    case ClaimUnordered(s, _, _) => s == r
    case Crash(s) => s == r
    case Begin(h) => Mine(w, r, h)
    case Append(h) => Mine(w, r, h)
    case Ack(h) => Mine(w, r, h)
    case Fail(h, _) => Mine(w, r, h)
    case MarkDelivered(h) => Mine(w, r, h)
    case MarkRetry(h, _) => Mine(w, r, h)
    case MarkDead(h) => Mine(w, r, h)
    case Abandon(h) => Mine(w, r, h)
    case _ => false
  }

  predicate Mine(w: World, r: string, h: nat) {
    h < |w.handlers| && w.handlers[h].owner == r
  }

  /** A run of Relay r's own steps, whatever it claims and whatever others have locked. */
  ghost predicate Solo(env: Env, w: World, r: string, steps: seq<Step>)
    decreases |steps|
  {
    steps == [] || (Own(w, r, steps[0]) && Solo(env, Apply(env, w, steps[0]), r, steps[1..]))
  }

  /** The handlers of Relay r that have not returned. */
  function Busy(handlers: seq<Handler>, r: string): nat {
    if handlers == [] then 0
    else
      var x := handlers[|handlers| - 1];
      Busy(handlers[..|handlers| - 1], r) + if x.owner == r && x.alive && x.phase != Finished then 1 else 0
  }

  /** A claim asks for no more than a batch and the Relay's free handlers, and no other
      session's row locks hide anything from it. */
  predicate Afforded(env: Env, w: World, r: string, step: Step) {
    ClaimStep(step) ==>
      && step.locked == {}
      && step.limit <= env.cfg(r).batchSize
      && Busy(w.handlers, r) + step.limit <= env.cfg(r).concurrency
  }

  /** A run of Relay r's own steps within its means and without help from anybody's locks. */
  ghost predicate Unaided(env: Env, w: World, r: string, steps: seq<Step>)
    decreases |steps|
  {
    || steps == []
    || (&& Own(w, r, steps[0]) && Afforded(env, w, r, steps[0])
        && Unaided(env, Apply(env, w, steps[0]), r, steps[1..]))
  }

  lemma {:induction false} UnaidedIsSolo(env: Env, w: World, r: string, steps: seq<Step>)
    requires Unaided(env, w, r, steps)
    ensures Solo(env, w, r, steps)
    decreases |steps|
  {
    if steps != [] { UnaidedIsSolo(env, Apply(env, w, steps[0]), r, steps[1..]); }
  }

  /** Relay r alone can move the stream past this event. */
  ghost predicate CanFinish(env: Env, w: World, r: string, slot: Slot, id: Id) {
    exists steps ::
      Run(env, w, steps, STRICT) && Unaided(env, w, r, steps) && Unstuck(Exec(env, w, steps).db, slot, id)
  }

  // ---------------------------------------------------------------- where the Relay can get by itself

  ghost predicate Reaches(env: Env, w: World, r: string, w': World) {
    exists steps :: Run(env, w, steps, STRICT) && Unaided(env, w, r, steps) && Exec(env, w, steps) == w'
  }

  lemma Stays(env: Env, w: World, r: string)
    ensures Reaches(env, w, r, w)
  {
    assert Run(env, w, [], STRICT) && Unaided(env, w, r, []) && Exec(env, w, []) == w;
  }

  lemma Takes(env: Env, w: World, r: string, step: Step)
    requires Allowed(env, w, step, STRICT) && Own(w, r, step) && Afforded(env, w, r, step)
    ensures Reaches(env, w, r, Apply(env, w, step))
  {
    var w' := Apply(env, w, step);
    var steps := [step];
    assert steps[0] == step && steps[1..] == [];
    assert Run(env, w', [], STRICT) && Unaided(env, w', r, []) && Exec(env, w', []) == w';
    assert Run(env, w, steps, STRICT) && Unaided(env, w, r, steps) && Exec(env, w, steps) == w';
  }

  lemma {:induction false} Joined(env: Env, w: World, r: string, first: seq<Step>, rest: seq<Step>)
    requires Run(env, w, first, STRICT) && Unaided(env, w, r, first)
    requires Run(env, Exec(env, w, first), rest, STRICT) && Unaided(env, Exec(env, w, first), r, rest)
    ensures Run(env, w, first + rest, STRICT) && Unaided(env, w, r, first + rest)
    ensures Exec(env, w, first + rest) == Exec(env, Exec(env, w, first), rest)
    decreases |first|
  {
    if first == [] {
      assert first + rest == rest;
    } else {
      assert (first + rest)[0] == first[0] && (first + rest)[1..] == first[1..] + rest;
      Joined(env, Apply(env, w, first[0]), r, first[1..], rest);
    }
  }

  lemma Onwards(env: Env, a: World, r: string, b: World, c: World)
    requires Reaches(env, a, r, b) && Reaches(env, b, r, c)
    ensures Reaches(env, a, r, c)
  {
    var first :| Run(env, a, first, STRICT) && Unaided(env, a, r, first) && Exec(env, a, first) == b;
    var rest :| Run(env, b, rest, STRICT) && Unaided(env, b, r, rest) && Exec(env, b, rest) == c;
    Joined(env, a, r, first, rest);
  }

  lemma Finishes(env: Env, w: World, r: string, w': World, slot: Slot, id: Id)
    requires Reaches(env, w, r, w') && Unstuck(w'.db, slot, id)
    ensures CanFinish(env, w, r, slot, id)
  {
    var steps :| Run(env, w, steps, STRICT) && Unaided(env, w, r, steps) && Exec(env, w, steps) == w';
  }

  lemma ReachesKeeps(env: Env, w: World, r: string, w': World)
    requires ValidEnv(env) && Consistent(env, w) && Separated(env, w) && Reaches(env, w, r, w')
    ensures Consistent(env, w') && Separated(env, w')
  {
    var steps :| Run(env, w, steps, STRICT) && Unaided(env, w, r, steps) && Exec(env, w, steps) == w';
    RunSeparates(env, w, steps, STRICT);
  }

  lemma TakesClock(env: Env, w: World, r: string, step: Step)
    requires ClockStep(step) && Own(w, r, step)
    ensures Reaches(env, w, r, w.(db := ApplyClock(w.db, step)))
  {
    assert Apply(env, w, step) == w.(db := ApplyClock(w.db, step));
    Takes(env, w, r, step);
  }

  lemma TakesReconcile(env: Env, w: World, r: string)
    requires InstanceId(r)
    ensures Reaches(env, w, r, w.(db := ReconcileAs(env, w.db, r)))
  {
    assert Apply(env, w, Step.Reconcile(r)) == w.(db := ReconcileAs(env, w.db, r));
    Takes(env, w, r, Step.Reconcile(r));
  }

  lemma TakesHandler(env: Env, w: World, r: string, step: Step)
    requires HandlerStep(step) && Own(w, r, step) && Timely(env, w, step)
    ensures Reaches(env, w, r, ApplyHandler(env, w, step))
  {
    assert Apply(env, w, step) == ApplyHandler(env, w, step);
    Takes(env, w, r, step);
  }

  lemma TakesBegin(env: Env, w: World, r: string, h: nat)
    requires Mine(w, r, h)
    ensures Reaches(env, w, r, StepBegin(env, w, h))
  {
    TakesHandler(env, w, r, Begin(h));
  }

  lemma TakesAppend(env: Env, w: World, r: string, h: nat)
    requires Mine(w, r, h) && Timely(env, w, Append(h))
    ensures Reaches(env, w, r, StepAppend(w, h))
  {
    TakesHandler(env, w, r, Append(h));
  }

  lemma TakesAck(env: Env, w: World, r: string, h: nat)
    requires Mine(w, r, h)
    ensures Reaches(env, w, r, StepAck(w, h))
  {
    TakesHandler(env, w, r, Ack(h));
  }

  lemma TakesDelivered(env: Env, w: World, r: string, h: nat)
    requires Mine(w, r, h)
    ensures Reaches(env, w, r, StepMarkDelivered(w, h))
  {
    TakesHandler(env, w, r, Step.MarkDelivered(h));
  }

  lemma TakesDead(env: Env, w: World, r: string, h: nat)
    requires Mine(w, r, h)
    ensures Reaches(env, w, r, StepMarkDead(env, w, h))
  {
    TakesHandler(env, w, r, Step.MarkDead(h));
  }

  lemma TakesFail(env: Env, w: World, r: string, h: nat)
    requires Mine(w, r, h)
    ensures Reaches(env, w, r, StepFail(w, h, false))
  {
    TakesHandler(env, w, r, Fail(h, false));
  }

  lemma TakesAbandon(env: Env, w: World, r: string, h: nat)
    requires Mine(w, r, h)
    ensures Reaches(env, w, r, StepAbandon(w, h))
  {
    TakesHandler(env, w, r, Abandon(h));
  }

  /** Time passes, the Relay shows itself, and it reconciles. */
  lemma TakesRound(env: Env, w: World, d: nat, wake: Step, r: string)
    requires InstanceId(r) && (wake == Step.Heartbeat(r) || wake == Step.Register(r, true))
    ensures Reaches(env, w, r, w.(db := ReconcileAs(env, ApplyClock(w.db.(now := w.db.now + d), wake), r)))
  {
    var ticked := w.(db := ApplyClock(w.db, Tick(d)));
    var awake := ticked.(db := ApplyClock(ticked.db, wake));
    TakesClock(env, w, r, Tick(d));
    TakesClock(env, ticked, r, wake);
    TakesReconcile(env, awake, r);
    Onwards(env, w, r, ticked, awake);
    Onwards(env, w, r, awake, awake.(db := ReconcileAs(env, awake.db, r)));
  }

  ghost function ReconcileAs(env: Env, db: Db, r: string): Db
  {
    var c := env.cfg(r);
    Tables.Reconcile(env.score, db, r, c.orderingLease, c.publishTimeout, c.staleAfter, c.safetyMargin)
  }

  // ---------------------------------------------------------------- from the claim to the result

  /** A handler of the expected event whose every fence holds right now. */
  predicate Working(env: Env, db: Db, x: Handler, slot: Slot, id: Id) {
    && x.alive && x.id == id && x.slot == Some(slot)
    && slot.stream in db.streams && db.streams[slot.stream].next == slot.sequence
    && id in db.events
    && var e := db.events[id];
       && SlotOf(e) == Some(slot) && e.partition == Some(db.streams[slot.stream].partition)
       && e.status == Inflight && e.leaseOwner == Some(x.owner) && e.leaseUntil.Some? && e.leaseUntil.value > db.now
       && e.attempts == x.attempts
       && PartitionOf(db, e).Some?
       && var p := PartitionOf(db, e).value;
          p.epoch == x.epoch && Held(p, x.owner, db.now, env.cfg(x.owner).PublishWindow())
  }

  /** One more handler; besides it only this event's row and this slot's stream have changed. */
  ghost predicate Aside(w: World, w': World, slot: Slot, id: Id) {
    && w'.db.now == w.db.now && w'.db.partitions == w.db.partitions
    && w'.db.relays == w.db.relays && w'.db.paused == w.db.paused
    && |w'.handlers| == |w.handlers| + 1
    && (forall h :: 0 <= h < |w.handlers| ==> w'.handlers[h] == w.handlers[h])
    && id in w.db.events && id in w'.db.events && w'.db.events == w.db.events[id := w'.db.events[id]]
    && (forall k :: k in w.db.streams && k != slot.stream ==> k in w'.db.streams && w'.db.streams[k] == w.db.streams[k])
  }

  /** The event's new handler is at work in this phase. */
  ghost predicate InHand(env: Env, w: World, w': World, r: string, slot: Slot, id: Id, phase: Phase) {
    && Aside(w, w', slot, id)
    && var x := w'.handlers[|w.handlers|];
       x.owner == r && x.phase == phase && Working(env, w'.db, x, slot, id)
  }

  lemma BeginsInHand(env: Env, w: World, w': World, r: string, slot: Slot, id: Id)
    requires env.cfg(r).Valid() && InHand(env, w, w', r, slot, id, Claimed)
    requires w'.handlers[|w.handlers|].attempts < env.cfg(r).maxAttempts
    ensures var w'' := StepBegin(env, w', |w.handlers|);
      && InHand(env, w, w'', r, slot, id, Publishing)
      && w''.handlers[|w.handlers|].begun && w''.handlers[|w.handlers|].beganAt == w''.db.now
  {}

  lemma AppendsInHand(env: Env, w: World, w': World, r: string, slot: Slot, id: Id)
    requires InHand(env, w, w', r, slot, id, Publishing) && w'.handlers[|w.handlers|].begun
    ensures var w'' := StepAppend(w', |w.handlers|);
      InHand(env, w, w'', r, slot, id, Publishing) && w''.handlers[|w.handlers|].appended
  {}

  lemma AcksInHand(env: Env, w: World, w': World, r: string, slot: Slot, id: Id)
    requires InHand(env, w, w', r, slot, id, Publishing) && w'.handlers[|w.handlers|].appended
    ensures InHand(env, w, StepAck(w', |w.handlers|), r, slot, id, Acked)
  {}

  /** The handler has returned and its event is delivered or dead. */
  ghost predicate OffHand(w: World, w': World, slot: Slot, id: Id) {
    && Aside(w, w', slot, id) && w'.handlers[|w.handlers|].phase == Finished
    && w'.db.events[id].status in {Delivered, Dead} && Unstuck(w'.db, slot, id)
  }

  lemma DeliversRow(env: Env, db: Db, x: Handler, slot: Slot, id: Id)
    requires env.cfg(x.owner).Valid() && Working(env, db, x, slot, id)
    ensures var r := DeliveredResult(db, x);
      && r.Some? && id in r.value.events && r.value.events == db.events[id := r.value.events[id]]
      && r.value.events[id].status == Delivered
      && slot.stream in r.value.streams && r.value.streams[slot.stream].next == slot.sequence + 1
      && (forall k :: k in db.streams && k != slot.stream ==>
            k in r.value.streams && r.value.streams[k] == db.streams[k])
  {}

  lemma DeliversOffHand(env: Env, w: World, w': World, r: string, slot: Slot, id: Id)
    requires env.cfg(r).Valid() && InHand(env, w, w', r, slot, id, Acked)
    ensures OffHand(w, StepMarkDelivered(w', |w.handlers|), slot, id)
  {
    var x := w'.handlers[|w.handlers|];
    DeliversRow(env, w'.db, x, slot, id);
    var end := StepMarkDelivered(w', |w.handlers|);
    assert end.handlers == w'.handlers[|w.handlers| := x.(phase := Finished)];
    assert end.db == DeliveredResult(w'.db, x).value;
  }

  lemma BuriesRow(env: Env, db: Db, x: Handler, slot: Slot, id: Id)
    requires env.cfg(x.owner).Valid() && Working(env, db, x, slot, id)
    ensures var r := DeadResult(db, x);
      && r.Some? && id in r.value.events && r.value.events == db.events[id := r.value.events[id]]
      && r.value.events[id].status == Dead && SlotOf(r.value.events[id]) == Some(slot)
  {}

  lemma BuriesOffHand(env: Env, w: World, w': World, r: string, slot: Slot, id: Id)
    requires env.cfg(r).Valid() && InHand(env, w, w', r, slot, id, Claimed)
    requires w'.handlers[|w.handlers|].attempts >= env.cfg(r).maxAttempts
    ensures OffHand(w, StepMarkDead(env, w', |w.handlers|), slot, id)
  {
    var x := w'.handlers[|w.handlers|];
    BuriesRow(env, w'.db, x, slot, id);
    var end := StepMarkDead(env, w', |w.handlers|);
    assert end.handlers == w'.handlers[|w.handlers| := x.(phase := Finished)];
    assert end.db == DeadResult(w'.db, x).value;
  }

  lemma Publishes(env: Env, w: World, w': World, r: string, slot: Slot, id: Id) returns (end: World)
    requires env.cfg(r).Valid() && InHand(env, w, w', r, slot, id, Claimed)
    requires w'.handlers[|w.handlers|].attempts < env.cfg(r).maxAttempts
    ensures Reaches(env, w', r, end) && InHand(env, w, end, r, slot, id, Publishing)
    ensures end.handlers[|w.handlers|].appended
  {
    var h := |w.handlers|;
    var begun := StepBegin(env, w', h);
    BeginsInHand(env, w, w', r, slot, id);
    AppendsInHand(env, w, begun, r, slot, id);
    end := StepAppend(begun, h);
    TakesBegin(env, w', r, h);
    TakesAppend(env, begun, r, h);
    Onwards(env, w', r, begun, end);
  }

  lemma Delivers(env: Env, w: World, w': World, r: string, slot: Slot, id: Id) returns (end: World)
    requires env.cfg(r).Valid() && InHand(env, w, w', r, slot, id, Publishing) && w'.handlers[|w.handlers|].appended
    ensures Reaches(env, w', r, end) && OffHand(w, end, slot, id)
  {
    var h := |w.handlers|;
    var acked := StepAck(w', h);
    AcksInHand(env, w, w', r, slot, id);
    DeliversOffHand(env, w, acked, r, slot, id);
    end := StepMarkDelivered(acked, h);
    TakesAck(env, w', r, h);
    TakesDelivered(env, acked, r, h);
    Onwards(env, w', r, acked, end);
  }

  /** A claimed event is delivered, or buried if its attempts are spent. */
  lemma Handles(env: Env, w: World, w': World, r: string, slot: Slot, id: Id) returns (end: World)
    requires env.cfg(r).Valid() && InHand(env, w, w', r, slot, id, Claimed)
    ensures Reaches(env, w', r, end) && OffHand(w, end, slot, id)
  {
    var h := |w.handlers|;
    if w'.handlers[h].attempts >= env.cfg(r).maxAttempts {
      BuriesOffHand(env, w, w', r, slot, id);
      end := StepMarkDead(env, w', h);
      TakesDead(env, w', r, h);
    } else {
      var published := Publishes(env, w, w', r, slot, id);
      end := Delivers(env, w, published, r, slot, id);
      Onwards(env, w', r, published, end);
    }
  }

  // ---------------------------------------------------------------- the claim

  /** The Relay's own handlers have all returned. */
  ghost predicate Idle(handlers: seq<Handler>, r: string) {
    forall h :: 0 <= h < |handlers| && handlers[h].owner == r && handlers[h].alive ==> handlers[h].phase == Finished
  }

  lemma {:induction false} IdleIsFree(handlers: seq<Handler>, r: string)
    requires Idle(handlers, r)
    ensures Busy(handlers, r) == 0
  {
    if handlers != [] { IdleIsFree(handlers[..|handlers| - 1], r); }
  }

  /** Every partition is Relay r's, under an epoch above its floor. */
  ghost predicate HoldsAll(env: Env, db: Db, r: string, floors: seq<int>) {
    && |db.partitions| == |floors| == PARTITION_COUNT
    && forall i :: 0 <= i < |floors| ==> HoldsFor(env, db, r, i, floors[i])
  }

  predicate HoldsFor(env: Env, db: Db, r: string, i: nat, floor: int) {
    && i < |db.partitions|
    && db.partitions[i].owner == Some(r) && db.partitions[i].leaseUntil == Some(db.now + env.cfg(r).orderingLease)
    && db.partitions[i].epoch > floor
  }

  /** Every ordered claim was made under an epoch up to its partition's floor, or has returned. */
  ghost predicate Outdated(handlers: seq<Handler>, floors: seq<int>) {
    forall h :: 0 <= h < |handlers| && handlers[h].slot.Some? && 0 <= handlers[h].partition < |floors| ==>
      handlers[h].epoch <= floors[handlers[h].partition] || handlers[h].phase == Finished
  }

  ghost predicate Alone(env: Env, db: Db, r: string) {
    forall s :: s in db.relays && s != r ==> db.relays[s].heartbeat < db.now - Whole(env.cfg(r).staleAfter)
  }

  predicate Due(e: Event, now: Time) {
    e.availableAt <= now && (e.leaseUntil.Some? ==> e.leaseUntil.value <= now)
  }

  predicate Listed(db: Db, r: string) {
    r in db.relays && db.relays[r].capable && !db.relays[r].stopped
  }

  /** Relay r is idle and holds every partition afresh, everyone else is silent, and the
      expected event is due. */
  ghost predicate Holding(env: Env, w: World, r: string, slot: Slot, id: Id, floors: seq<int>) {
    && Consistent(env, w) && Separated(env, w) && Expected(w.db, slot, id) && !w.db.paused
    && Listed(w.db, r) && Alone(env, w.db, r)
    && HoldsAll(env, w.db, r, floors)
    && Due(w.db.events[id], w.db.now)
    && Outdated(w.handlers, floors) && Idle(w.handlers, r)
  }

  /** Everything a claim asks for. */
  lemma IsClaimable(env: Env, w: World, r: string, slot: Slot, id: Id, floors: seq<int>)
    requires ValidEnv(env) && Holding(env, w, r, slot, id, floors)
    requires HandoffPassed(w.db.partitions[env.part(slot.stream)], w.db.now)
    requires env.cfg(r).PublishWindow() <= env.cfg(r).orderingLease
    ensures ClaimableInOrder(w.db, w.db.events[id], r, env.cfg(r).PublishWindow())
  {
    RowFacts(env, w, slot, id);
    assert HoldsFor(env, w.db, r, env.part(slot.stream), floors[env.part(slot.stream)]);
  }

  lemma RowFacts(env: Env, w: World, slot: Slot, id: Id)
    requires Consistent(env, w) && Expected(w.db, slot, id)
    ensures var e := w.db.events[id];
      && e.partition == Some(env.part(slot.stream)) && w.db.streams[slot.stream].partition == env.part(slot.stream)
      && (e.status == Pending || (e.status == Inflight && e.leaseUntil.Some?)) && AtCursor(w.db, e)
  {}

  /** A listed Relay passes the trigger wherever its claim passes the scan. */
  lemma ScanPassesGuard(db: Db, owner: string, minimum: Time, id: Id)
    requires id in db.events && minimum > 0 && Listed(db, owner) && ClaimableInOrder(db, db.events[id], owner, minimum)
    ensures ClaimGuard(db, db.events[id], owner)
  {}

  /** While anything is claimable, a claim of one takes the first row in claim order. */
  lemma FirstInLine(db: Db, owner: string, minimum: Time, id: Id) returns (first: Id)
    requires id in db.events && minimum > 0 && Listed(db, owner) && ClaimableInOrder(db, db.events[id], owner, minimum)
    ensures first in db.events && ClaimableInOrder(db, db.events[first], owner, minimum)
    ensures OrderedPicks(db, owner, 1, minimum, {}) == [first]
  {
    var ranks := InOrderRanks(db, owner, minimum, {});
    assert RankOf(id, db.events[id]) in ranks;
    var least := Earliest(ranks);
    assert Top(1, ranks) == [least];
    first := least.id;
    ScanPassesGuard(db, owner, minimum, first);
    assert Admitted(db, owner, []) == [];
    assert IdsOf(db, Top(1, ranks)) == [first];
  }

  /** Whoever claimed this row before cannot act any more, or did so under an older epoch. */
  lemma ClaimIsExclusive(env: Env, w: World, r: string, floors: seq<int>, first: Id)
    requires Consistent(env, w) && HoldsAll(env, w.db, r, floors) && Outdated(w.handlers, floors)
    requires first in w.db.events && PartitionOf(w.db, w.db.events[first]).Some?
    requires ClaimedIds(env, w, r, 1, {}) == [first]
    ensures Exclusive(env, w, ClaimOrdered(r, 1, {}))
  {
    forall h | 0 <= h < |w.handlers| && w.handlers[h].slot.Some? && w.handlers[h].id == first
        && w.handlers[h].epoch == NewHandler(w.db, r, first).epoch
      ensures w.handlers[h].phase == Finished
    {
      EarlierIsOver(env, w, r, floors, first, h);
    }
    OverIsExclusive(env, w, r, first);
  }

  lemma OverIsExclusive(env: Env, w: World, r: string, first: Id)
    requires first in w.db.events && ClaimedIds(env, w, r, 1, {}) == [first]
    requires forall h ::
      (&& 0 <= h < |w.handlers| && w.handlers[h].slot.Some? && w.handlers[h].id == first
       && w.handlers[h].epoch == NewHandler(w.db, r, first).epoch)
        ==> w.handlers[h].phase == Finished
    ensures Exclusive(env, w, ClaimOrdered(r, 1, {}))
  {}

  lemma EarlierIsOver(env: Env, w: World, r: string, floors: seq<int>, id: Id, h: nat)
    requires Consistent(env, w) && HoldsAll(env, w.db, r, floors) && Outdated(w.handlers, floors)
    requires id in w.db.events && PartitionOf(w.db, w.db.events[id]).Some?
    requires h < |w.handlers| && w.handlers[h].slot.Some? && w.handlers[h].id == id
    requires w.handlers[h].epoch == NewHandler(w.db, r, id).epoch
    ensures w.handlers[h].phase == Finished
  {
    var x := w.handlers[h];
    assert HandlerOk(env, w.db.streams, w.enqueued, w.acked, w.log, w.db.now, x);
    assert Accounted(w.db.events, w.db.streams, w.acked, id, w.enqueued[id]);
    assert RowOk(w.db.streams, w.db.events[id]);
    assert StreamOk(env, x.slot.value.stream, w.db.streams[x.slot.value.stream]);
    assert HoldsFor(env, w.db, r, x.partition, floors[x.partition]);
  }

  lemma TakesClaim(env: Env, w: World, r: string, id: Id)
    requires env.cfg(r).Valid() && Idle(w.handlers, r)
    requires ClaimedIds(env, w, r, 1, {}) == [id] && id in w.db.events && Exclusive(env, w, ClaimOrdered(r, 1, {}))
    ensures Reaches(env, w, r, Dispatch(env, w, r, [id]))
  {
    var step := ClaimOrdered(r, 1, {});
    IdleIsFree(w.handlers, r);
    assert Apply(env, w, step) == Dispatch(env, w, r, [id]);
    Takes(env, w, r, step);
  }

  /** The slot a claimable row stands at. */
  lemma ClaimableIsExpected(env: Env, w: World, r: string, id: Id) returns (slot: Slot)
    requires Consistent(env, w) && id in w.db.events
    requires ClaimableInOrder(w.db, w.db.events[id], r, env.cfg(r).PublishWindow())
    ensures Expected(w.db, slot, id)
  {
    var e := w.db.events[id];
    slot := Slot(StreamKey(e.destination, e.key.value), e.sequence.value);
  }

  lemma DispatchOne(env: Env, w: World, r: string, id: Id)
    requires id in w.db.events
    ensures var w' := Dispatch(env, w, r, [id]);
      w'.db == Lease(w.db, [id], r, env.cfg(r).eventLease) && w'.handlers == w.handlers + [NewHandler(w.db, r, id)]
  {}

  lemma LeasedRow(env: Env, db: Db, r: string, id: Id)
    requires env.cfg(r).Valid() && id in db.events
    ensures var db' := Lease(db, [id], r, env.cfg(r).eventLease); var until := db.now + Whole(env.cfg(r).eventLease);
      && OnlyEvents(db, db') && id in db'.events && until > db.now
      && db'.events == db.events[id := db.events[id].(status := Inflight, leaseOwner := Some(r),
           leaseUntil := Some(until))]
  {}

  lemma LeasedWorks(env: Env, db: Db, db': Db, r: string, slot: Slot, id: Id, until: Time)
    requires Expected(db, slot, id) && ClaimableInOrder(db, db.events[id], r, env.cfg(r).PublishWindow())
    requires db.events[id].partition == Some(db.streams[slot.stream].partition)
    requires OnlyEvents(db, db') && id in db'.events
    requires until > db.now
    requires db'.events[id] == db.events[id].(status := Inflight, leaseOwner := Some(r), leaseUntil := Some(until))
    ensures Working(env, db', NewHandler(db, r, id), slot, id)
  {}

  lemma StartsWorking(env: Env, w: World, r: string, slot: Slot, id: Id)
    requires env.cfg(r).Valid() && Expected(w.db, slot, id)
    requires w.db.events[id].partition == Some(w.db.streams[slot.stream].partition)
    requires ClaimableInOrder(w.db, w.db.events[id], r, env.cfg(r).PublishWindow())
    ensures InHand(env, w, Dispatch(env, w, r, [id]), r, slot, id, Claimed)
  {
    var db' := Lease(w.db, [id], r, env.cfg(r).eventLease);
    DispatchOne(env, w, r, id);
    LeasedRow(env, w.db, r, id);
    LeasedWorks(env, w.db, db', r, slot, id, w.db.now + Whole(env.cfg(r).eventLease));
  }

  // ---------------------------------------------------------------- taking turns in claim order

  /** Events that are neither delivered nor dead. */
  function Open(db: Db): set<Id> {
    set id | id in db.events && db.events[id].status != Delivered && db.events[id].status != Dead
  }

  lemma OffHandCloses(w: World, w': World, slot: Slot, id: Id)
    requires OffHand(w, w', slot, id) && id in Open(w.db)
    ensures |Open(w'.db)| < |Open(w.db)|
  {
    assert Open(w'.db) == Open(w.db) - {id};
  }

  lemma OffHandOutdates(w: World, w': World, slot: Slot, id: Id, r: string, floors: seq<int>)
    requires OffHand(w, w', slot, id) && Outdated(w.handlers, floors) && Idle(w.handlers, r)
    ensures Outdated(w'.handlers, floors) && Idle(w'.handlers, r)
  {}

  /** Another stream's event comes and goes; the expected one keeps its place. */
  lemma OffHandStillExpects(env: Env, w: World, w': World, other: Slot, j: Id, slot: Slot, id: Id)
    requires Consistent(env, w) && Expected(w.db, slot, id) && Expected(w.db, other, j) && j != id
    requires OffHand(w, w', other, j)
    ensures Expected(w'.db, slot, id) && w'.db.events[id] == w.db.events[id]
  {
    assert SlotOf(w.db.events[id]) != SlotOf(w.db.events[j]);
  }

  lemma OffHandStillHolds(env: Env, w: World, w': World, r: string, other: Slot, j: Id, slot: Slot, id: Id,
                          floors: seq<int>)
    requires Holding(env, w, r, slot, id, floors) && Expected(w.db, other, j) && j != id && OffHand(w, w', other, j)
    requires Consistent(env, w') && Separated(env, w')
    ensures Holding(env, w', r, slot, id, floors)
  {
    OffHandStillExpects(env, w, w', other, j, slot, id);
    OffHandOutdates(w, w', other, j, r, floors);
    StillHoldsAll(env, w.db, w'.db, r, floors);
  }

  lemma StillHoldsAll(env: Env, db: Db, db': Db, r: string, floors: seq<int>)
    requires HoldsAll(env, db, r, floors) && db'.partitions == db.partitions && db'.now == db.now
    ensures HoldsAll(env, db', r, floors)
  {
    forall i | 0 <= i < |floors| ensures HoldsFor(env, db', r, i, floors[i]) {
      assert HoldsFor(env, db, r, i, floors[i]);
    }
  }

  /** The Relay claims the first row in line and handles it. */
  lemma Turn(env: Env, w: World, r: string, slot: Slot, id: Id, floors: seq<int>)
    returns (other: Slot, j: Id, w': World)
    requires ValidEnv(env) && Holding(env, w, r, slot, id, floors)
    requires HandoffPassed(w.db.partitions[env.part(slot.stream)], w.db.now)
    requires env.cfg(r).PublishWindow() <= env.cfg(r).orderingLease
    ensures Reaches(env, w, r, w') && Expected(w.db, other, j) && OffHand(w, w', other, j)
  {
    assert env.cfg(r).Valid();
    IsClaimable(env, w, r, slot, id, floors);
    j := FirstInLine(w.db, r, env.cfg(r).PublishWindow(), id);
    other := ClaimableIsExpected(env, w, r, j);
    ClaimIsExclusive(env, w, r, floors, j);
    TakesClaim(env, w, r, j);
    RowFacts(env, w, other, j);
    StartsWorking(env, w, r, other, j);
    var claimed := Dispatch(env, w, r, [j]);
    w' := Handles(env, w, claimed, r, other, j);
    Onwards(env, w, r, claimed, w');
  }

  /** Each turn settles an event for good, so the expected event's turn comes. */
  lemma {:induction false} TakesTurns(env: Env, w: World, r: string, slot: Slot, id: Id, floors: seq<int>)
    returns (end: World)
    requires ValidEnv(env) && Holding(env, w, r, slot, id, floors)
    requires HandoffPassed(w.db.partitions[env.part(slot.stream)], w.db.now)
    requires env.cfg(r).PublishWindow() <= env.cfg(r).orderingLease
    ensures Reaches(env, w, r, end) && Unstuck(end.db, slot, id)
    decreases |Open(w.db)|
  {
    var other, j, w' := Turn(env, w, r, slot, id, floors);
    if j == id {
      end := w';
    } else {
      ReachesKeeps(env, w, r, w');
      OffHandStillHolds(env, w, w', r, other, j, slot, id, floors);
      RowFacts(env, w, other, j);
      OffHandCloses(w, w', other, j);
      end := TakesTurns(env, w', r, slot, id, floors);
      Onwards(env, w, r, w', end);
    }
  }

  // ---------------------------------------------------------------- holding the partitions until the barrier passes

  predicate Awake(db: Db, r: string) {
    r in db.relays && db.relays[r] == Presence(db.now, false, true)
  }

  /** The only active member is desired everywhere. */
  lemma AloneIsDesired(env: Env, db: Db, r: string, i: nat)
    requires Alone(env, db, r) && Awake(db, r) && i < |db.partitions|
    ensures var c := env.cfg(r);
      ReconcileAs(env, db, r).partitions[i]
        == ReconcileRow(db.partitions[i], Some(r), r, db.now, c.orderingLease, c.publishTimeout, c.safetyMargin)
  {
    assert ActiveMembers(db, env.cfg(r).staleAfter) == {r};
    Ownership.WinnerIsUnique(env.score, i, {r}, r, Ownership.Winner(env.score, i, {r}).value);
  }

  /** One renewal: time passes inside the lease, then a heartbeat and a reconciliation. */
  function Beat(db: Db, r: string, d: nat): Db {
    Tables.Heartbeat(db.(now := db.now + d), r)
  }

  lemma Renews(env: Env, db: Db, r: string, i: nat, d: nat, floor: int)
    requires HoldsFor(env, db, r, i, floor) && d < env.cfg(r).orderingLease
    requires Alone(env, db, r) && r in db.relays && db.relays[r].capable
    ensures var db' := ReconcileAs(env, Beat(db, r, d), r);
      && HoldsFor(env, db', r, i, floor) && db'.partitions[i].handoff == db.partitions[i].handoff
      && Alone(env, db', r) && Awake(db', r)
  {
    AloneIsDesired(env, Beat(db, r, d), r, i);
  }

  lemma RenewsAll(env: Env, db: Db, r: string, d: nat, floors: seq<int>)
    requires HoldsAll(env, db, r, floors) && d < env.cfg(r).orderingLease
    requires Alone(env, db, r) && r in db.relays && db.relays[r].capable
    ensures HoldsAll(env, ReconcileAs(env, Beat(db, r, d), r), r, floors)
  {
    forall i | 0 <= i < |floors| ensures HoldsFor(env, ReconcileAs(env, Beat(db, r, d), r), r, i, floors[i]) {
      Renews(env, db, r, i, d, floors[i]);
    }
  }

  /** The partition's barrier, if it has one, is no later than this. */
  predicate HandoffBy(db: Db, i: nat, barrier: Time) {
    i < |db.partitions| && HandoffPassed(db.partitions[i], barrier)
  }

  lemma StillHolding(env: Env, w: World, w': World, r: string, slot: Slot, id: Id, floors: seq<int>, d: nat,
                     barrier: Time)
    requires Holding(env, w, r, slot, id, floors) && d < env.cfg(r).orderingLease
    requires HandoffBy(w.db, env.part(slot.stream), barrier)
    requires w' == w.(db := ReconcileAs(env, Beat(w.db, r, d), r)) && Consistent(env, w') && Separated(env, w')
    ensures Holding(env, w', r, slot, id, floors) && w'.db.now == w.db.now + d
    ensures HandoffBy(w'.db, env.part(slot.stream), barrier)
  {
    var i := env.part(slot.stream);
    assert HoldsFor(env, w.db, r, i, floors[i]);
    Renews(env, w.db, r, i, d, floors[i]);
    RenewsAll(env, w.db, r, d, floors);
  }

  lemma AfterRenewal(env: Env, w: World, r: string, slot: Slot, id: Id, floors: seq<int>, d: nat, barrier: Time)
    returns (w': World)
    requires ValidEnv(env) && InstanceId(r) && Holding(env, w, r, slot, id, floors) && d < env.cfg(r).orderingLease
    requires HandoffBy(w.db, env.part(slot.stream), barrier)
    ensures Holding(env, w', r, slot, id, floors) && w'.db.now == w.db.now + d
    ensures HandoffBy(w'.db, env.part(slot.stream), barrier)
    ensures Reaches(env, w, r, w')
  {
    assert ApplyClock(w.db.(now := w.db.now + d), Step.Heartbeat(r)) == Beat(w.db, r, d);
    w' := w.(db := ReconcileAs(env, Beat(w.db, r, d), r));
    TakesRound(env, w, d, Step.Heartbeat(r), r);
    ReachesKeeps(env, w, r, w');
    StillHolding(env, w, w', r, slot, id, floors, d, barrier);
  }

  lemma {:induction false} Waits(env: Env, w: World, r: string, slot: Slot, id: Id, floors: seq<int>, barrier: Time)
    returns (end: World)
    requires ValidEnv(env) && InstanceId(r) && Holding(env, w, r, slot, id, floors)
    requires HandoffBy(w.db, env.part(slot.stream), barrier)
    ensures Reaches(env, w, r, end) && Holding(env, end, r, slot, id, floors)
    ensures HandoffPassed(end.db.partitions[env.part(slot.stream)], end.db.now)
    decreases Max(0, barrier - w.db.now)
  {
    if barrier <= w.db.now {
      end := w;
      Stays(env, w, r);
    } else {
      assert env.cfg(r).Valid();
      var d := Min(env.cfg(r).orderingLease - 1, barrier - w.db.now);
      var w' := AfterRenewal(env, w, r, slot, id, floors, d, barrier);
      end := Waits(env, w', r, slot, id, floors, barrier);
      Onwards(env, w, r, w', end);
    }
  }

  lemma HolderFinishes(env: Env, w: World, r: string, slot: Slot, id: Id, floors: seq<int>) returns (end: World)
    requires ValidEnv(env) && InstanceId(r) && Holding(env, w, r, slot, id, floors)
    requires env.cfg(r).PublishWindow() <= env.cfg(r).orderingLease
    ensures Reaches(env, w, r, end) && Unstuck(end.db, slot, id)
  {
    var handoff := w.db.partitions[env.part(slot.stream)].handoff;
    var w' := Waits(env, w, r, slot, id, floors, if handoff.Some? then handoff.value else 0);
    end := TakesTurns(env, w', r, slot, id, floors);
    Onwards(env, w, r, w', end);
  }

  // ---------------------------------------------------------------- returning from earlier work

  ghost predicate IdleBelow(handlers: seq<Handler>, r: string, n: nat) {
    forall h :: 0 <= h < |handlers| && h < n && handlers[h].owner == r && handlers[h].alive ==>
      handlers[h].phase == Finished
  }

  /** Only handlers have moved, and none has begun or changed its claim. */
  ghost predicate Returned(w: World, w': World) {
    w'.db == w.db && Steady(w.handlers, w'.handlers)
  }

  /** A handler gives up: its Publish call fails if it is inside one, and it returns. */
  lemma GivesUp(env: Env, w: World, r: string, h: nat) returns (w': World)
    requires h < |w.handlers| && IdleBelow(w.handlers, r, h)
    ensures Reaches(env, w, r, w') && Returned(w, w') && IdleBelow(w'.handlers, r, h + 1)
  {
    if w.handlers[h].owner == r && w.handlers[h].alive {
      var failed := StepFail(w, h, false);
      w' := StepAbandon(failed, h);
      TakesFail(env, w, r, h);
      TakesAbandon(env, failed, r, h);
      Onwards(env, w, r, failed, w');
      GivenUp(w, failed, w', h);
      SteadySet(w.handlers, h, Finished, true);
    } else {
      w' := w;
      Stays(env, w, r);
    }
  }

  lemma GivenUp(w: World, failed: World, w': World, h: nat)
    requires Running(w, h) && failed == StepFail(w, h, false) && w' == StepAbandon(failed, h)
    ensures w'.db == w.db && w'.handlers == w.handlers[h := w.handlers[h].(phase := Finished)]
  {
    assert failed.handlers == w.handlers || failed.handlers == w.handlers[h := w.handlers[h].(phase := Failed(false))];
  }

  lemma {:induction false} Quiesces(env: Env, w: World, r: string, n: nat) returns (end: World)
    requires n <= |w.handlers| && IdleBelow(w.handlers, r, n)
    ensures Reaches(env, w, r, end) && Returned(w, end) && Idle(end.handlers, r)
    decreases |w.handlers| - n
  {
    if n == |w.handlers| {
      end := w;
      Stays(env, w, r);
    } else {
      var w' := GivesUp(env, w, r, n);
      end := Quiesces(env, w', r, n + 1);
      Onwards(env, w, r, w', end);
    }
  }

  // ---------------------------------------------------------------- taking the partitions over

  /** Registered Relays have real ids and no heartbeat from the future. */
  ghost predicate Present(db: Db) {
    forall s :: s in db.relays ==> InstanceId(s) && db.relays[s].heartbeat <= db.now
  }

  lemma OthersLeavePresence(env: Env, w: World, step: Step)
    requires !ClockStep(step)
    ensures var db' := Apply(env, w, step).db; db'.relays == w.db.relays && db'.now == w.db.now
  {}

  lemma StepPresent(env: Env, w: World, step: Step)
    requires Present(w.db)
    ensures Present(Apply(env, w, step).db)
  {
    if ClockStep(step) {
      ClockPresent(w.db, step);
    } else {
      OthersLeavePresence(env, w, step);
    }
  }

  lemma ClockPresent(db: Db, step: Step)
    requires Present(db) && ClockStep(step)
    ensures Present(ApplyClock(db, step))
  {}

  lemma {:induction false} RunPresent(env: Env, w: World, steps: seq<Step>)
    requires Present(w.db)
    ensures Present(Exec(env, w, steps).db)
    decreases |steps|
  {
    if steps != [] {
      StepPresent(env, w, steps[0]);
      RunPresent(env, Apply(env, w, steps[0]), steps[1..]);
    }
  }

  function Past(t: Option<Time>, now: Time): nat {
    if t.Some? && t.value > now then t.value - now else 0
  }

  /** How long until every partition lease has run out. */
  function Longest(partitions: seq<Partition>, now: Time): nat {
    if partitions == [] then 0
    else
      var last := |partitions| - 1;
      Max(Longest(partitions[..last], now), Past(partitions[last].leaseUntil, now))
  }

  lemma {:induction false} LongestCovers(partitions: seq<Partition>, now: Time, i: nat)
    requires i < |partitions|
    ensures Past(partitions[i].leaseUntil, now) <= Longest(partitions, now)
  {
    if i < |partitions| - 1 { LongestCovers(partitions[..|partitions| - 1], now, i); }
  }

  /** Long enough for every other Relay to go stale, and for every partition lease, the
      event lease and the event's delay to run out. */
  function Patience(env: Env, db: Db, r: string, e: Event): nat {
    Whole(env.cfg(r).staleAfter) + 1
      + Longest(db.partitions, db.now) + Past(e.leaseUntil, db.now) + Past(Some(e.availableAt), db.now)
  }

  /** The database after the Relay stayed away for a while, registered and reconciled. */
  ghost function Rejoined(env: Env, db: Db, r: string, t: nat): Db {
    ReconcileAs(env, Tables.Register(db.(now := db.now + t), r, true), r)
  }

  function Epochs(partitions: seq<Partition>): seq<int> {
    seq(|partitions|, i requires 0 <= i < |partitions| => partitions[i].epoch)
  }

  lemma Acquires(env: Env, db: Db, r: string, i: nat, t: nat)
    requires Present(db) && i < |db.partitions| && PartitionOk(env, db.now, db.partitions[i])
    requires t > Whole(env.cfg(r).staleAfter) && t >= Past(db.partitions[i].leaseUntil, db.now)
    ensures HoldsFor(env, Rejoined(env, db, r, t), r, i, db.partitions[i].epoch)
  {
    AloneIsDesired(env, Tables.Register(db.(now := db.now + t), r, true), r, i);
  }

  lemma AcquiresAll(env: Env, db: Db, r: string, t: nat)
    requires Present(db) && Partitions(env, db.now, db.partitions)
    requires t > Whole(env.cfg(r).staleAfter) && t >= Longest(db.partitions, db.now)
    ensures HoldsAll(env, Rejoined(env, db, r, t), r, Epochs(db.partitions))
  {
    var floors := Epochs(db.partitions);
    forall i | 0 <= i < |floors| ensures HoldsFor(env, Rejoined(env, db, r, t), r, i, floors[i]) {
      LongestCovers(db.partitions, db.now, i);
      Acquires(env, db, r, i, t);
    }
  }

  lemma RejoinedAlone(env: Env, db: Db, r: string, t: nat)
    requires Present(db) && t > Whole(env.cfg(r).staleAfter)
    ensures var db' := Rejoined(env, db, r, t);
      && Alone(env, db', r) && Listed(db', r) && db'.now == db.now + t
      && db'.events == db.events && db'.streams == db.streams && db'.paused == db.paused
  {}

  lemma EpochsOutdate(env: Env, w: World)
    requires Separated(env, w)
    ensures Outdated(w.handlers, Epochs(w.db.partitions))
  {
    forall h | 0 <= h < |w.handlers| && w.handlers[h].slot.Some?
      ensures w.handlers[h].epoch <= w.db.partitions[w.handlers[h].partition].epoch
    {
      assert WindowOk(env, w.db.now, w.db.partitions[w.handlers[h].partition], w.handlers[h]);
    }
  }

  lemma NowHolding(env: Env, w: World, w': World, r: string, slot: Slot, id: Id, t: nat)
    requires Separated(env, w) && Present(w.db) && !w.db.paused && Expected(w.db, slot, id) && Idle(w.handlers, r)
    requires t == Patience(env, w.db, r, w.db.events[id])
    requires w' == w.(db := Rejoined(env, w.db, r, t)) && Consistent(env, w') && Separated(env, w')
    ensures Holding(env, w', r, slot, id, Epochs(w.db.partitions))
  {
    AcquiresAll(env, w.db, r, t);
    RejoinedAlone(env, w.db, r, t);
    EpochsOutdate(env, w);
  }

  lemma AfterJoining(env: Env, w: World, r: string, slot: Slot, id: Id) returns (w': World)
    requires ValidEnv(env) && Consistent(env, w) && Separated(env, w) && Present(w.db)
    requires !w.db.paused && Expected(w.db, slot, id) && InstanceId(r) && Idle(w.handlers, r)
    ensures Reaches(env, w, r, w') && Holding(env, w', r, slot, id, Epochs(w.db.partitions))
  {
    var t := Patience(env, w.db, r, w.db.events[id]);
    w' := w.(db := Rejoined(env, w.db, r, t));
    TakesRound(env, w, t, Step.Register(r, true), r);
    ReachesKeeps(env, w, r, w');
    NowHolding(env, w, w', r, slot, id, t);
  }

  /** The Relay lets its handlers return, waits out every lease, takes all partitions over,
      waits for the barrier, and works through the claim order until the event's turn. */
  lemma TakesOver(env: Env, w: World, r: string, slot: Slot, id: Id)
    requires ValidEnv(env) && Consistent(env, w) && Separated(env, w) && Present(w.db)
    requires !w.db.paused && Expected(w.db, slot, id) && InstanceId(r)
    requires env.cfg(r).PublishWindow() <= env.cfg(r).orderingLease
    ensures CanFinish(env, w, r, slot, id)
  {
    var idle := Quiesces(env, w, r, 0);
    ReachesKeeps(env, w, r, idle);
    var joined := AfterJoining(env, idle, r, slot, id);
    var end := HolderFinishes(env, joined, r, slot, id, Epochs(idle.db.partitions));
    Onwards(env, w, r, idle, joined);
    Onwards(env, w, r, joined, end);
    Finishes(env, w, r, end, slot, id);
  }

  // ---------------------------------------------------------------- why the lease must cover the window

  predicate Armed(env: Env, x: Handler) {
    x.slot.Some? ==> env.cfg(x.owner).PublishWindow() <= env.cfg(x.owner).orderingLease
  }

  /** Only Relays whose lease covers their window ever hold ordered work. */
  ghost predicate AllArmed(env: Env, handlers: seq<Handler>) {
    forall h :: 0 <= h < |handlers| ==> Armed(env, handlers[h])
  }

  lemma HandlersStayArmed(env: Env, w: World, step: Step)
    requires Consistent(env, w) && AllArmed(env, w.handlers) && HandlerStep(step)
    ensures AllArmed(env, ApplyHandler(env, w, step).handlers)
  {
    var handlers' := ApplyHandler(env, w, step).handlers;
    if step.Begin? {
      BeginClaims(env, w, step.h);
    } else {
      HandlerStepUndisturbed(env, w, step);
    }
    forall h | 0 <= h < |handlers'| ensures Armed(env, handlers'[h]) {
      assert SameClaim(w.handlers[h], handlers'[h]) && Armed(env, w.handlers[h]);
    }
  }

  lemma NewcomersAreArmed(env: Env, w: World, step: Step)
    requires Consistent(env, w) && Separated(env, w) && AllArmed(env, w.handlers) && ClaimStep(step)
    ensures AllArmed(env, Dispatch(env, w, step.owner, Picks(env, w, step)).handlers)
  {
    var picks := Picks(env, w, step);
    var more := seq(|picks|, i requires 0 <= i < |picks| => NewHandler(w.db, step.owner, picks[i]));
    forall i | 0 <= i < |more| ensures Armed(env, more[i]) {
      if step.ClaimOrdered? {
        ClaimIsArmed(env, w.db, step.owner, picks[i]);
      } else {
        assert RowOk(w.db.streams, w.db.events[picks[i]]);
      }
    }
  }

  lemma ClaimIsArmed(env: Env, db: Db, owner: string, id: Id)
    requires Partitions(env, db.now, db.partitions)
    requires id in db.events && ClaimableInOrder(db, db.events[id], owner, env.cfg(owner).PublishWindow())
    ensures Armed(env, NewHandler(db, owner, id))
  {}

  lemma StepArmed(env: Env, w: World, step: Step)
    requires Consistent(env, w) && Separated(env, w) && AllArmed(env, w.handlers)
    ensures AllArmed(env, Apply(env, w, step).handlers)
  {
    if ClaimStep(step) {
      NewcomersAreArmed(env, w, step);
    } else if HandlerStep(step) {
      HandlersStayArmed(env, w, step);
    }
  }

  ghost predicate SameRow(db: Db, db': Db, id: Id) {
    db'.streams == db.streams && id in db'.events && id in db.events && db'.events[id] == db.events[id]
  }

  lemma BeginLeavesRows(env: Env, w: World, h: nat, id: Id)
    requires h < |w.handlers| && id in w.db.events && w.handlers[h].slot.None? && w.handlers[h].id != id
    ensures SameRow(w.db, StepBegin(env, w, h).db, id)
  {}

  lemma DeliveredLeavesRows(w: World, h: nat, id: Id)
    requires h < |w.handlers| && id in w.db.events && w.handlers[h].slot.None? && w.handlers[h].id != id
    ensures SameRow(w.db, StepMarkDelivered(w, h).db, id)
  {}

  lemma RetryLeavesRows(env: Env, w: World, h: nat, delay: Time, id: Id)
    requires h < |w.handlers| && id in w.db.events && w.handlers[h].slot.None? && w.handlers[h].id != id
    ensures SameRow(w.db, StepMarkRetry(env, w, h, delay).db, id)
  {}

  lemma DeadLeavesRows(env: Env, w: World, h: nat, id: Id)
    requires h < |w.handlers| && id in w.db.events && w.handlers[h].slot.None? && w.handlers[h].id != id
    ensures SameRow(w.db, StepMarkDead(env, w, h).db, id)
  {}

  /** Handlers of unordered events leave cursors and other rows alone. */
  lemma UnorderedLeavesRows(env: Env, w: World, step: Step, r: string, id: Id)
    requires HandlerStep(step) && Own(w, r, step) && id in w.db.events
    requires !step.Crash? ==> w.handlers[step.h].slot.None? && w.handlers[step.h].id != id
    ensures SameRow(w.db, ApplyHandler(env, w, step).db, id)
  {
    match step
    case Begin(h) => BeginLeavesRows(env, w, h, id);
    case MarkDelivered(h) => DeliveredLeavesRows(w, h, id);
    case MarkRetry(h, delay) => RetryLeavesRows(env, w, h, delay, id);
    case MarkDead(h) => DeadLeavesRows(env, w, h, id);
    case _ =>
  }

  lemma LeaseStillExpects(env: Env, w: World, owner: string, picks: seq<Id>, slot: Slot, id: Id)
    requires Expected(w.db, slot, id) && forall i :: 0 <= i < |picks| ==> picks[i] in w.db.events
    ensures Expected(Dispatch(env, w, owner, picks).db, slot, id)
  {}

  lemma OwnStepStillExpects(env: Env, w: World, r: string, step: Step, slot: Slot, id: Id)
    requires Expected(w.db, slot, id) && Own(w, r, step) && !HandlerStep(step)
    ensures Expected(Apply(env, w, step).db, slot, id)
  {
    if ClaimStep(step) {
      LeaseStillExpects(env, w, step.owner, Picks(env, w, step), slot, id);
    } else {
      BackgroundStillExpects(env, w, step);
    }
  }

  lemma BackgroundStillExpects(env: Env, w: World, step: Step)
    requires ClockStep(step) || PartitionStep(step)
    ensures var db' := Apply(env, w, step).db; db'.events == w.db.events && db'.streams == w.db.streams
  {}

  lemma ShortLeaseHandlerWaits(env: Env, w: World, r: string, step: Step, slot: Slot, id: Id)
    requires Consistent(env, w) && AllArmed(env, w.handlers) && Expected(w.db, slot, id) && Own(w, r, step)
    requires HandlerStep(step)
    requires env.cfg(r).orderingLease < env.cfg(r).PublishWindow()
    ensures Expected(ApplyHandler(env, w, step).db, slot, id)
  {
    if !step.Crash? {
      assert Armed(env, w.handlers[step.h]);
      assert HandlerOk(env, w.db.streams, w.enqueued, w.acked, w.log, w.db.now, w.handlers[step.h]);
      assert Accounted(w.db.events, w.db.streams, w.acked, id, w.enqueued[id]);
    }
    UnorderedLeavesRows(env, w, step, r, id);
  }

  lemma ShortLeaseWaits(env: Env, w: World, r: string, step: Step, slot: Slot, id: Id)
    requires Consistent(env, w) && AllArmed(env, w.handlers) && Expected(w.db, slot, id) && Own(w, r, step)
    requires env.cfg(r).orderingLease < env.cfg(r).PublishWindow()
    ensures Expected(Apply(env, w, step).db, slot, id)
  {
    if HandlerStep(step) {
      ShortLeaseHandlerWaits(env, w, r, step, slot, id);
    } else {
      OwnStepStillExpects(env, w, r, step, slot, id);
    }
  }

  lemma {:induction false} ShortLeaseNeverFinishes(env: Env, w: World, r: string, steps: seq<Step>, slot: Slot, id: Id)
    requires ValidEnv(env) && Consistent(env, w) && Separated(env, w) && AllArmed(env, w.handlers)
    requires Expected(w.db, slot, id) && env.cfg(r).orderingLease < env.cfg(r).PublishWindow()
    requires Run(env, w, steps, STRICT) && Solo(env, w, r, steps)
    ensures !Unstuck(Exec(env, w, steps).db, slot, id)
    decreases |steps|
  {
    if steps != [] {
      StepKeeps(env, w, steps[0]);
      StepSeparates(env, w, steps[0]);
      StepArmed(env, w, steps[0]);
      ShortLeaseWaits(env, w, r, steps[0], slot, id);
      ShortLeaseNeverFinishes(env, Apply(env, w, steps[0]), r, steps[1..], slot, id);
    }
  }

  // ---------------------------------------------------------------- the exact condition

  lemma {:induction false} RunArmed(env: Env, w: World, steps: seq<Step>, a: Assumed)
    requires ValidEnv(env) && Consistent(env, w) && Separated(env, w) && AllArmed(env, w.handlers)
    requires Run(env, w, steps, a)
    ensures AllArmed(env, Exec(env, w, steps).handlers)
    decreases |steps|
  {
    if steps != [] {
      StepKeeps(env, w, steps[0]);
      StepSeparates(env, w, steps[0]);
      StepArmed(env, w, steps[0]);
      RunArmed(env, Apply(env, w, steps[0]), steps[1..], a);
    }
  }

  lemma ReachableIsArmed(env: Env, w: World, a: Assumed)
    requires ValidEnv(env) && Reachable(env, w, a)
    ensures Present(w.db) && AllArmed(env, w.handlers)
  {
    var start, steps :| Run(env, Init(start), steps, a) && w == Exec(env, Init(start), steps);
    InitIsConsistent(env, start);
    InitIsSeparated(env, start);
    RunArmed(env, Init(start), steps, a);
    RunPresent(env, Init(start), steps);
  }

  /** From every reachable state, one Relay alone can move the stream past its expected
      event exactly when its ordering lease covers the rounded publish window. */
  lemma NeverStuckIffLeaseCoversWindow(env: Env, w: World, a: Assumed, r: string, slot: Slot, id: Id)
    requires ValidEnv(env) && Reachable(env, w, a) && !w.db.paused
    requires Expected(w.db, slot, id) && InstanceId(r)
    ensures CanFinish(env, w, r, slot, id) <==> env.cfg(r).PublishWindow() <= env.cfg(r).orderingLease
  {
    ReachableIsSound(env, w, a);
    ReachableIsArmed(env, w, a);
    if env.cfg(r).PublishWindow() <= env.cfg(r).orderingLease {
      TakesOver(env, w, r, slot, id);
    } else {
      ShortLeaseCannotFinish(env, w, r, slot, id);
    }
  }

  lemma ShortLeaseCannotFinish(env: Env, w: World, r: string, slot: Slot, id: Id)
    requires ValidEnv(env) && Consistent(env, w) && Separated(env, w) && AllArmed(env, w.handlers)
    requires Expected(w.db, slot, id) && env.cfg(r).orderingLease < env.cfg(r).PublishWindow()
    ensures !CanFinish(env, w, r, slot, id)
  {
    forall steps | Run(env, w, steps, STRICT) && Unaided(env, w, r, steps)
      ensures !Unstuck(Exec(env, w, steps).db, slot, id)
    {
      UnaidedIsSolo(env, w, r, steps);
      ShortLeaseNeverFinishes(env, w, r, steps, slot, id);
    }
  }

  /** A valid configuration one rounding step short of its window: 1 ms to publish, a
      1 microsecond margin, and a lease of 1.002 ms against a window of 2 ms. */
  const SHORT := Config(1, 1, 1, 1, 10 * MILLISECOND, 1, 1, 1, MILLISECOND, 1, 2, 1, 1_002_000, 1_000)

  const SHORT_ENV := Env((k: StreamKey) => 0, (p: nat, m: string) => 0, (r: string) => SHORT)

  const FIRST := NewEvent("orders", "created", "", "a", 1, 0, None)

  lemma ShortIsValid()
    ensures SHORT.Valid() && ValidEnv(SHORT_ENV) && InstanceId("r") && ValidEvent(FIRST)
    ensures SHORT.orderingLease < SHORT.PublishWindow()
  {
    assert SHORT.PublishWindow() == 2 * MILLISECOND;
    assert "r"[0] == 'r' && FIRST.destination[0] == 'o' && FIRST.eventType[0] == 'c' && FIRST.orderingKey[0] == 'a';
  }

  lemma FirstIsExpected()
    requires ValidEvent(FIRST)
    ensures var w := ApplyTable(SHORT_ENV, Init(0), Step.Enqueue(0, FIRST));
      !w.db.paused && Expected(w.db, Slot(StreamKey("orders", "a"), 1), 0)
  {}

  lemma OneStepReaches(env: Env, step: Step)
    requires Allowed(env, Init(0), step, STRICT)
    ensures Reachable(env, Apply(env, Init(0), step), STRICT)
  {
    var w, steps := Apply(env, Init(0), step), [step];
    assert steps[0] == step && steps[1..] == [];
    assert Exec(env, Init(0), steps) == Exec(env, w, []) == w;
    assert Run(env, Init(0), steps, STRICT);
  }

  /** With it, the first event of a stream is never published. */
  lemma ValidConfigCanBeStuck()
    ensures SHORT.Valid() && ValidEnv(SHORT_ENV) && InstanceId("r")
    ensures var w := Apply(SHORT_ENV, Init(0), Step.Enqueue(0, FIRST));
      var slot := Slot(StreamKey("orders", "a"), 1);
      && Reachable(SHORT_ENV, w, STRICT) && !w.db.paused && Expected(w.db, slot, 0)
      && !CanFinish(SHORT_ENV, w, "r", slot, 0)
  {
    ShortIsValid();
    FirstIsExpected();
    OneStepReaches(SHORT_ENV, Step.Enqueue(0, FIRST));
    NeverStuckIffLeaseCoversWindow(SHORT_ENV, Apply(SHORT_ENV, Init(0), Step.Enqueue(0, FIRST)), STRICT, "r",
                                   Slot(StreamKey("orders", "a"), 1), 0);
  }
}
