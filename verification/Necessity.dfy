/** No part of the ordering guarantee's assumptions can be dropped or loosened: a run that
    breaks one part and keeps the rest ends with sequences 1, 2, 1 on the broker. */
module Necessity {
  import opened Types
  import opened Selection
  import opened Tables
  import opened Protocol
  import opened Order
  import opened Progress

  /** Drop the rule against reclaiming within an epoch, or let the broker accept a record
      at the very instant its window closes, or let it accept one inside the window but
      after the Publish call has returned. */
  datatype Loosened = Reclaims | ClosedWindow | AfterReturn

  predicate Accepts(env: Env, x: Handler, now: Time, rule: Loosened) {
    match rule
    case Reclaims => x.phase == Publishing && now < WindowEnd(env, x)
    case ClosedWindow => x.phase == Publishing && now <= WindowEnd(env, x)
    case AfterReturn => now < WindowEnd(env, x)
  }

  ghost predicate Permits(env: Env, w: World, step: Step, rule: Loosened) {
    && FreshIds(w, step)
    && (rule == Reclaims || Exclusive(env, w, step))
    && (step.Append? && step.h < |w.handlers| ==> Accepts(env, w.handlers[step.h], w.db.now, rule))
  }

  /** The rule asks for nothing that the assumptions do not, and for all of them except the
      part it gives up: the claims, the closing instant, or the return of Publish. */
  ghost predicate Loosens(env: Env, w: World, step: Step, rule: Loosened) {
    && (Allowed(env, w, step, Assumed(true, true)) ==> Permits(env, w, step, rule))
    && (Permits(env, w, step, rule) ==>
          && (rule == Reclaims ==> Allowed(env, w, step, Assumed(true, false)))
          && (rule != Reclaims ==> Allowed(env, w, step, Assumed(false, true)))
          && (Timely(env, w, step) || GivenUp(env, w, step, rule)))
  }

  /** An append that only the loosened rule lets through. */
  predicate GivenUp(env: Env, w: World, step: Step, rule: Loosened) {
    && step.Append? && step.h < |w.handlers|
    && match rule
       case Reclaims => false
       case ClosedWindow => w.handlers[step.h].phase == Publishing && w.db.now == WindowEnd(env, w.handlers[step.h])
       case AfterReturn => w.handlers[step.h].phase != Publishing && w.db.now < WindowEnd(env, w.handlers[step.h])
  }

  ghost predicate LooseRun(env: Env, w: World, steps: seq<Step>, rule: Loosened)
    decreases |steps|
  {
    steps == [] || (Permits(env, w, steps[0], rule) && LooseRun(env, Apply(env, w, steps[0]), steps[1..], rule))
  }

  ghost predicate CanRegress(env: Env, w: World, rule: Loosened, k: StreamKey) {
    exists steps :: LooseRun(env, w, steps, rule) && !Nondecreasing(LogOf(Exec(env, w, steps), k))
  }

  lemma Regressed(env: Env, w: World, rule: Loosened, k: StreamKey)
    requires !Nondecreasing(LogOf(w, k))
    ensures CanRegress(env, w, rule, k)
  {
    assert LooseRun(env, w, [], rule) && Exec(env, w, []) == w;
  }

  lemma Before(env: Env, w: World, step: Step, rule: Loosened, k: StreamKey)
    requires Permits(env, w, step, rule) && CanRegress(env, Apply(env, w, step), rule, k)
    ensures CanRegress(env, w, rule, k)
  {
    var w' := Apply(env, w, step);
    var rest :| LooseRun(env, w', rest, rule) && !Nondecreasing(LogOf(Exec(env, w', rest), k));
    var steps := [step] + rest;
    assert steps[1..] == rest;
    assert LooseRun(env, w, steps, rule) && Exec(env, w, steps) == Exec(env, w', rest);
  }

  // ---------------------------------------------------------------- the stage

  const SECOND: Time := 1000 * MILLISECOND

  /** 5 s to publish, a 1 s margin, 10 s event leases and 30 s partition leases. */
  const CONFIG := Config(1, 1, 1, 1, 10 * SECOND, 3, 1, 1, 5 * SECOND, SECOND, 3 * SECOND, SECOND, 30 * SECOND, SECOND)

  const ENV := Env((k: StreamKey) => 0, (p: nat, m: string) => 0, (r: string) => CONFIG)

  const STREAM := StreamKey("orders", "a")

  lemma ConfigFacts()
    ensures CONFIG.Valid() && ValidEnv(ENV) && CONFIG.PublishWindow() == 6 * SECOND
    ensures Whole(CONFIG.eventLease) == 10 * SECOND
  {}

  /** Relay r holds the stream's partition, with the whole window to spare. */
  predicate Stage(db: Db, r: string, next: int) {
    && STREAM in db.streams && db.streams[STREAM].partition == 0 && db.streams[STREAM].next == next
    && |db.partitions| == PARTITION_COUNT && Held(db.partitions[0], r, db.now, 6 * SECOND) && !db.paused
    && r in db.relays && db.relays[r].capable && !db.relays[r].stopped
  }

  predicate Placed(e: Event, n: int) {
    SlotOf(e) == Some(Slot(STREAM, n)) && e.partition == Some(0) && e.attempts < 3
  }

  predicate Waiting(db: Db, id: Id, n: int) {
    && id in db.events && Placed(db.events[id], n) && db.events[id].availableAt <= db.now
    && (db.events[id].status == Pending || Expired(db.events[id], db.now))
  }

  // ---------------------------------------------------------------- one event onto the broker

  function Claim(w: World, r: string, id: Id): World
    requires id in w.db.events
  {
    Dispatch(ENV, w, r, [id])
  }

  function Locked(w: World, id: Id): set<Id> {
    w.db.events.Keys - {id}
  }

  /** With every other row locked, a claim of one takes exactly this row. */
  lemma ClaimOne(db: Db, owner: string, minimum: Time, id: Id)
    requires id in db.events && ClaimableInOrder(db, db.events[id], owner, minimum)
    requires ClaimGuard(db, db.events[id], owner)
    ensures OrderedPicks(db, owner, 1, minimum, db.events.Keys - {id}) == [id]
  {
    assert InOrderRanks(db, owner, minimum, db.events.Keys - {id}) == {RankOf(id, db.events[id])};
    TopOfOne(1, RankOf(id, db.events[id]));
    assert Admitted(db, owner, []) == [];
  }

  lemma ClaimTakes(w: World, r: string, id: Id, n: int)
    requires Stage(w.db, r, n) && Waiting(w.db, id, n)
    ensures ClaimedIds(ENV, w, r, 1, Locked(w, id)) == [id]
    ensures Apply(ENV, w, ClaimOrdered(r, 1, Locked(w, id))) == Claim(w, r, id)
  {
    ConfigFacts();
    ClaimOne(w.db, r, 6 * SECOND, id);
  }

  /** The handlers before h and every other row are left as they were. */
  ghost predicate Aside(w: World, w': World, h: nat, id: Id) {
    && h <= |w.handlers| && h <= |w'.handlers| && w'.db.now == w.db.now
    && (forall i :: 0 <= i < h ==> w'.handlers[i] == w.handlers[i])
    && (forall j :: j in w.db.events && j != id ==> j in w'.db.events && w'.db.events[j] == w.db.events[j])
  }

  lemma ClaimWorks(w: World, r: string, id: Id, n: int)
    requires Stage(w.db, r, n) && Waiting(w.db, id, n)
    ensures var w' := Claim(w, r, id); var h := |w.handlers|;
      && Stage(w'.db, r, n) && |w'.handlers| == h + 1 && Aside(w, w', h, id) && w'.log == w.log
      && Working(ENV, w'.db, w'.handlers[h], Slot(STREAM, n), id)
      && w'.handlers[h].owner == r && w'.handlers[h].phase == Claimed && w'.handlers[h].attempts < 3
      && w'.handlers[h].epoch == w.db.partitions[0].epoch
      && id in w'.db.events
      && w'.db.events[id] == w.db.events[id].(status := Inflight, leaseOwner := Some(r),
           leaseUntil := Some(w.db.now + 10 * SECOND))
  {
    ConfigFacts();
    assert id in [id];
    assert Claim(w, r, id).handlers[|w.handlers|] == NewHandler(w.db, r, id);
  }

  lemma BeginWorks(w: World, h: nat, r: string, id: Id, n: int)
    requires Stage(w.db, r, n) && h < |w.handlers| && w.handlers[h].owner == r && w.handlers[h].phase == Claimed
    requires w.handlers[h].attempts < 3
    requires Working(ENV, w.db, w.handlers[h], Slot(STREAM, n), id)
    ensures var w' := StepBegin(ENV, w, h);
      && Stage(w'.db, r, n) && |w'.handlers| == |w.handlers| && Aside(w, w', h, id) && w'.log == w.log
      && Working(ENV, w'.db, w'.handlers[h], Slot(STREAM, n), id)
      && w'.handlers[h].owner == r && w'.handlers[h].phase == Publishing && w'.handlers[h].begun
      && w'.handlers[h].beganAt == w.db.now
      && w'.handlers[h].attempts == w.db.events[id].attempts + 1
      && w'.handlers[h].epoch == w.handlers[h].epoch
      && id in w'.db.events && w'.db.events[id] == w.db.events[id].(attempts := w.db.events[id].attempts + 1)
  {}

  lemma AppendWorks(w: World, h: nat, r: string, id: Id, n: int)
    requires Stage(w.db, r, n) && h < |w.handlers| && w.handlers[h].begun
    requires Working(ENV, w.db, w.handlers[h], Slot(STREAM, n), id)
    ensures var w' := StepAppend(w, h);
      && w'.db == w.db && |w'.handlers| == |w.handlers| && Aside(w, w', h, id)
      && Working(ENV, w'.db, w'.handlers[h], Slot(STREAM, n), id)
      && w'.handlers[h] == w.handlers[h].(appended := true)
      && LogOf(w', STREAM) == LogOf(w, STREAM) + [Record(id, n, h, w.db.now)]
  {}

  lemma AckWorks(w: World, h: nat, r: string, id: Id, n: int)
    requires Stage(w.db, r, n) && h < |w.handlers| && w.handlers[h].owner == r
    requires w.handlers[h].phase == Publishing && w.handlers[h].appended
    requires Working(ENV, w.db, w.handlers[h], Slot(STREAM, n), id)
    ensures var w' := StepAck(w, h);
      && w'.db == w.db && |w'.handlers| == |w.handlers| && Aside(w, w', h, id) && w'.log == w.log
      && w'.handlers[h] == w.handlers[h].(phase := Acked)
      && Working(ENV, w'.db, w'.handlers[h], Slot(STREAM, n), id)
  {}

  lemma MarkWorks(w: World, h: nat, r: string, id: Id, n: int)
    requires Stage(w.db, r, n) && h < |w.handlers| && w.handlers[h].owner == r && w.handlers[h].phase == Acked
    requires Working(ENV, w.db, w.handlers[h], Slot(STREAM, n), id)
    ensures var w' := StepMarkDelivered(w, h);
      Stage(w'.db, r, n + 1) && |w'.handlers| == |w.handlers| && Aside(w, w', h, id) && w'.log == w.log
        && w'.db.partitions == w.db.partitions
    ensures StepMarkDelivered(w, h).handlers[h].id == id
  {}

  /** Claim, begin and append at one instant. */
  function Published(w: World, r: string, id: Id): World
    requires id in w.db.events
  {
    StepAppend(StepBegin(ENV, Claim(w, r, id), |w.handlers|), |w.handlers|)
  }

  lemma PublishedFacts(w: World, r: string, id: Id, n: int)
    requires Stage(w.db, r, n) && Waiting(w.db, id, n)
    ensures var w' := Published(w, r, id); var h := |w.handlers|;
      && Stage(w'.db, r, n) && |w'.handlers| == h + 1 && Aside(w, w', h, id) && w'.db.partitions == w.db.partitions
      && Working(ENV, w'.db, w'.handlers[h], Slot(STREAM, n), id)
      && w'.handlers[h].owner == r && w'.handlers[h].phase == Publishing && w'.handlers[h].appended
      && LogOf(w', STREAM) == LogOf(w, STREAM) + [Record(id, n, h, w.db.now)]
  {
    var h := |w.handlers|;
    ClaimWorks(w, r, id, n);
    BeginWorks(Claim(w, r, id), h, r, id, n);
    AppendWorks(StepBegin(ENV, Claim(w, r, id), h), h, r, id, n);
  }

  ghost predicate NoneLive(handlers: seq<Handler>, id: Id, epoch: int, now: Time) {
    forall h :: 0 <= h < |handlers| && handlers[h].slot.Some? && handlers[h].id == id && handlers[h].epoch == epoch ==>
      !Live(ENV, handlers[h], now)
  }

  /** The claim may be made under this rule. */
  ghost predicate MayClaim(w: World, id: Id, rule: Loosened) {
    rule != Reclaims ==> |w.db.partitions| > 0 && NoneLive(w.handlers, id, w.db.partitions[0].epoch, w.db.now)
  }

  lemma BeforePublishing(w: World, r: string, id: Id, n: int, rule: Loosened)
    requires Stage(w.db, r, n) && Waiting(w.db, id, n) && MayClaim(w, id, rule)
    requires CanRegress(ENV, Published(w, r, id), rule, STREAM)
    ensures CanRegress(ENV, w, rule, STREAM)
  {
    var h := |w.handlers|;
    ConfigFacts();
    ClaimWorks(w, r, id, n);
    BeginWorks(Claim(w, r, id), h, r, id, n);
    BeforeAppend(StepBegin(ENV, Claim(w, r, id), h), h, rule);
    BeforeBegin(Claim(w, r, id), h, rule);
    BeforeClaim(w, r, id, n, rule);
  }

  lemma BeforeAppend(w: World, h: nat, rule: Loosened)
    requires h < |w.handlers| && w.handlers[h].phase == Publishing && w.db.now < WindowEnd(ENV, w.handlers[h])
    requires CanRegress(ENV, StepAppend(w, h), rule, STREAM)
    ensures CanRegress(ENV, w, rule, STREAM)
  {
    Before(ENV, w, Append(h), rule, STREAM);
  }

  lemma BeforeBegin(w: World, h: nat, rule: Loosened)
    requires CanRegress(ENV, StepBegin(ENV, w, h), rule, STREAM)
    ensures CanRegress(ENV, w, rule, STREAM)
  {
    Before(ENV, w, Begin(h), rule, STREAM);
  }

  lemma ClaimPermitted(w: World, r: string, id: Id, n: int, rule: Loosened)
    requires Stage(w.db, r, n) && Waiting(w.db, id, n) && MayClaim(w, id, rule)
    requires ClaimedIds(ENV, w, r, 1, Locked(w, id)) == [id]
    ensures Permits(ENV, w, ClaimOrdered(r, 1, Locked(w, id)), rule)
  {}

  lemma BeforeClaim(w: World, r: string, id: Id, n: int, rule: Loosened)
    requires Stage(w.db, r, n) && Waiting(w.db, id, n) && MayClaim(w, id, rule)
    requires CanRegress(ENV, Claim(w, r, id), rule, STREAM)
    ensures CanRegress(ENV, w, rule, STREAM)
  {
    ClaimTakes(w, r, id, n);
    ClaimPermitted(w, r, id, n, rule);
    Before(ENV, w, ClaimOrdered(r, 1, Locked(w, id)), rule, STREAM);
  }

  lemma BeforeMark(w: World, h: nat, rule: Loosened)
    requires CanRegress(ENV, StepMarkDelivered(w, h), rule, STREAM)
    ensures CanRegress(ENV, w, rule, STREAM)
  {
    Before(ENV, w, MarkDelivered(h), rule, STREAM);
  }

  lemma BeforeDelivery(w: World, h: nat, rule: Loosened)
    requires CanRegress(ENV, StepMarkDelivered(StepAck(w, h), h), rule, STREAM)
    ensures CanRegress(ENV, w, rule, STREAM)
  {
    BeforeMark(StepAck(w, h), h, rule);
    Before(ENV, w, Ack(h), rule, STREAM);
  }

  // ---------------------------------------------------------------- the late copy

  /** The first handler's record may still land while a second handler delivers the event. */
  predicate LateCopy(x: Handler, now: Time, partitions: seq<Partition>, rule: Loosened) {
    && x.begun && x.slot == Some(Slot(STREAM, 1)) && x.id == 0 && Accepts(ENV, x, now, rule)
    && (rule == ClosedWindow ==> |partitions| > 0 && x.epoch != partitions[0].epoch)
    && (rule == AfterReturn ==> x.phase == Finished)
  }

  /** Sequence 2 is on the broker and the late copy of sequence 1 lands. */
  lemma LateAppend(w: World, rule: Loosened, log: seq<Record>, second: Record)
    requires |w.handlers| > 0 && LateCopy(w.handlers[0], w.db.now, w.db.partitions, rule)
    requires LogOf(w, STREAM) == log + [second] && second.sequence == 2
    ensures CanRegress(ENV, w, rule, STREAM)
  {
    var late := StepAppend(w, 0);
    var shown := LogOf(late, STREAM);
    assert shown == log + [second] + [Record(0, 1, 0, w.db.now)];
    assert shown[|log|].sequence == 2 && shown[|log| + 1].sequence == 1;
    Regressed(ENV, late, rule, STREAM);
    Before(ENV, w, Append(0), rule, STREAM);
  }

  lemma SecondPublished(w: World, r: string, rule: Loosened)
    requires Stage(w.db, r, 2) && Waiting(w.db, 1, 2) && |w.handlers| == 2
    requires LateCopy(w.handlers[0], w.db.now, w.db.partitions, rule)
    ensures CanRegress(ENV, Published(w, r, 1), rule, STREAM)
  {
    PublishedFacts(w, r, 1, 2);
    LateAppend(Published(w, r, 1), rule, LogOf(w, STREAM), Record(1, 2, 2, w.db.now));
  }

  lemma SecondEvent(w: World, r: string, rule: Loosened)
    requires Stage(w.db, r, 2) && Waiting(w.db, 1, 2) && |w.handlers| == 2 && w.handlers[1].id == 0
    requires LateCopy(w.handlers[0], w.db.now, w.db.partitions, rule)
    ensures CanRegress(ENV, w, rule, STREAM)
  {
    assert MayClaim(w, 1, rule) by { assert NoneLive(w.handlers, 1, w.db.partitions[0].epoch, w.db.now); }
    SecondPublished(w, r, rule);
    BeforePublishing(w, r, 1, 2, rule);
  }

  lemma FirstDelivered(w: World, r: string, rule: Loosened)
    requires Stage(w.db, r, 1) && Waiting(w.db, 1, 2) && |w.handlers| == 2 && w.handlers[1].id == 0
    requires w.handlers[1].owner == r && w.handlers[1].phase == Publishing && w.handlers[1].appended
    requires Working(ENV, w.db, w.handlers[1], Slot(STREAM, 1), 0)
    requires LateCopy(w.handlers[0], w.db.now, w.db.partitions, rule)
    ensures CanRegress(ENV, w, rule, STREAM)
  {
    AckWorks(w, 1, r, 0, 1);
    MarkWorks(StepAck(w, 1), 1, r, 0, 1);
    SecondEvent(StepMarkDelivered(StepAck(w, 1), 1), r, rule);
    BeforeDelivery(w, 1, rule);
  }

  lemma LateCopyRegresses(w: World, r: string, rule: Loosened)
    requires Stage(w.db, r, 1) && Waiting(w.db, 0, 1) && Waiting(w.db, 1, 2) && |w.handlers| == 1
    requires LateCopy(w.handlers[0], w.db.now, w.db.partitions, rule)
    ensures CanRegress(ENV, w, rule, STREAM)
  {
    LateCopyMayClaim(w, rule);
    PublishedFacts(w, r, 0, 1);
    FirstDelivered(Published(w, r, 0), r, rule);
    BeforePublishing(w, r, 0, 1, rule);
  }

  lemma LateCopyMayClaim(w: World, rule: Loosened)
    requires |w.db.partitions| > 0 && |w.handlers| == 1 && LateCopy(w.handlers[0], w.db.now, w.db.partitions, rule)
    ensures MayClaim(w, 0, rule)
  {}

  // ---------------------------------------------------------------- how it comes about

  const FIRST := NewEvent("orders", "created", "", "a", 1, 0, None)
  const SECOND_EVENT := NewEvent("orders", "created", "", "a", 2, 0, None)

  lemma EventsAreValid()
    ensures ValidEvent(FIRST) && ValidEvent(SECOND_EVENT) && InstanceId("r") && InstanceId("s")
  {
    assert "r"[0] == 'r' && "s"[0] == 's';
    assert FIRST.destination[0] == 'o' && FIRST.eventType[0] == 'c' && FIRST.orderingKey[0] == 'a';
    assert SECOND_EVENT.destination[0] == 'o' && SECOND_EVENT.eventType[0] == 'c' && SECOND_EVENT.orderingKey[0] == 'a';
  }

  function Enqueued(w: World, id: Id, e: NewEvent): World {
    ApplyTable(ENV, w, Step.Enqueue(id, e))
  }

  /** Two events of one stream, nothing else. */
  predicate Opening(w: World) {
    && w.handlers == [] && w.db.now == 0 && !w.db.paused && w.db.relays == map[]
    && |w.db.partitions| == PARTITION_COUNT && w.db.partitions[0] == Partition(None, None, 0, None, None)
    && STREAM in w.db.streams && w.db.streams[STREAM].partition == 0 && w.db.streams[STREAM].next == 1
    && Waiting(w.db, 0, 1) && Waiting(w.db, 1, 2) && w.db.events[0].attempts == 0
  }

  lemma FirstEnqueued()
    requires ValidEvent(FIRST)
    ensures var w := Enqueued(Init(0), 0, FIRST);
      && w.handlers == [] && w.db.now == 0 && !w.db.paused && w.db.relays == map[]
      && |w.db.partitions| == PARTITION_COUNT && w.db.partitions[0] == Partition(None, None, 0, None, None)
      && w.db.streams == map[STREAM := Stream(0, 1, 1)]
      && w.db.events == map[0 := Event("orders", "a", Some("a"), Some(1), Some(0), Pending, 0, 0, 0, None, None, None)]
      && w.enqueued == map[0 := Some(Slot(STREAM, 1))]
  {}

  lemma BothEnqueued()
    requires ValidEvent(FIRST) && ValidEvent(SECOND_EVENT)
    ensures Opening(Enqueued(Enqueued(Init(0), 0, FIRST), 1, SECOND_EVENT))
  {
    FirstEnqueued();
    var w := Enqueued(Init(0), 0, FIRST);
    assert !SlotTaken(w.db.events, STREAM, 2);
  }

  lemma BeforeTable(w: World, step: Step, rule: Loosened)
    requires TableStep(step) && FreshIds(w, step) && CanRegress(ENV, ApplyTable(ENV, w, step), rule, STREAM)
    ensures CanRegress(ENV, w, rule, STREAM)
  {
    Before(ENV, w, step, rule, STREAM);
  }

  lemma BeforeClock(w: World, step: Step, rule: Loosened)
    requires ClockStep(step) && CanRegress(ENV, w.(db := ApplyClock(w.db, step)), rule, STREAM)
    ensures CanRegress(ENV, w, rule, STREAM)
  {
    assert Apply(ENV, w, step) == w.(db := ApplyClock(w.db, step));
    Before(ENV, w, step, rule, STREAM);
  }

  lemma BeforePartition(w: World, step: Step, rule: Loosened)
    requires PartitionStep(step) && CanRegress(ENV, w.(db := ApplyPartition(ENV, w.db, step)), rule, STREAM)
    ensures CanRegress(ENV, w, rule, STREAM)
  {
    assert Apply(ENV, w, step) == w.(db := ApplyPartition(ENV, w.db, step));
    Before(ENV, w, step, rule, STREAM);
  }

  /** The Relay joins alone and takes the stream's partition. */
  function Joined(db: Db, r: string): Db {
    Tables.Register(db, r, true)
  }

  lemma JoinTakes(db: Db, r: string)
    requires InstanceId(r) && |db.partitions| == PARTITION_COUNT && db.partitions[0].owner.None?
    requires forall s :: s in db.relays && s != r ==> db.relays[s].heartbeat < db.now - 3 * SECOND
    ensures var db' := ApplyPartition(ENV, Joined(db, r), Step.Reconcile(r)); var p := db.partitions[0];
      && |db'.partitions| == PARTITION_COUNT && db'.relays == Joined(db, r).relays
      && db'.partitions[0] == Partition(Some(r), Some(db.now + 30 * SECOND), p.epoch + 1, p.handoff, Some(5000))
  {
    assert Whole(CONFIG.staleAfter) == 3 * SECOND && IntervalMS(CONFIG.publishTimeout) == 5000;
    AloneIsDesired(ENV, Joined(db, r), r, 0);
    assert ApplyPartition(ENV, Joined(db, r), Step.Reconcile(r)) == ReconcileAs(ENV, Joined(db, r), r);
  }

  lemma BeforeJoin(w: World, r: string, rule: Loosened)
    requires InstanceId(r)
    requires CanRegress(ENV, w.(db := ApplyPartition(ENV, Joined(w.db, r), Step.Reconcile(r))), rule, STREAM)
    ensures CanRegress(ENV, w, rule, STREAM)
  {
    BeforePartition(w.(db := Joined(w.db, r)), Step.Reconcile(r), rule);
    BeforeClock(w, Step.Register(r, true), rule);
  }

  /** The first event is claimed at time 0 by Relay r, whose partition lease runs to 30 s. */
  predicate ClaimedAtZero(w: World) {
    && Stage(w.db, "r", 1) && |w.handlers| == 1 && w.db.now == 0
    && w.db.partitions[0] == Partition(Some("r"), Some(30 * SECOND), 1, None, Some(5000))
    && w.db.relays == map["r" := Presence(0, false, true)]
    && Working(ENV, w.db, w.handlers[0], Slot(STREAM, 1), 0)
    && w.handlers[0].owner == "r" && w.handlers[0].phase == Claimed && w.handlers[0].attempts == 0
    && w.handlers[0].epoch == 1
    && w.db.events[0].leaseUntil == Some(10 * SECOND) && w.db.events[0].availableAt <= 0 && Placed(w.db.events[0], 1)
    && Waiting(w.db, 1, 2)
  }

  /** Its attempt began at time t. */
  predicate BegunAt(w: World, t: Time) {
    && |w.handlers| == 1 && w.db.now == t && STREAM in w.db.streams && w.db.streams[STREAM].partition == 0
    && w.db.streams[STREAM].next == 1
    && !w.db.paused && |w.db.partitions| == PARTITION_COUNT
    && w.db.partitions[0] == Partition(Some("r"), Some(30 * SECOND), 1, None, Some(5000))
    && w.db.relays == map["r" := Presence(0, false, true)]
    && w.handlers[0].phase == Publishing && w.handlers[0].begun && w.handlers[0].attempts == 1 && w.handlers[0].alive
    && w.handlers[0].slot == Some(Slot(STREAM, 1)) && w.handlers[0].id == 0
    && w.handlers[0].owner == "r" && w.handlers[0].beganAt == t && w.handlers[0].epoch == 1
    && 0 in w.db.events && Placed(w.db.events[0], 1) && w.db.events[0].status == Inflight
    && w.db.events[0].attempts == 1
    && w.db.events[0].leaseOwner == Some("r") && w.db.events[0].leaseUntil == Some(10 * SECOND)
    && w.db.events[0].availableAt <= 0
    && Waiting(w.db, 1, 2)
  }

  lemma BeginsAt(w: World, t: nat)
    requires ClaimedAtZero(w) && t < 10 * SECOND
    ensures BegunAt(StepBegin(ENV, w.(db := ApplyClock(w.db, Tick(t))), 0), t)
  {}

  lemma BeforeBeginAt(w: World, t: nat, rule: Loosened)
    requires CanRegress(ENV, StepBegin(ENV, w.(db := ApplyClock(w.db, Tick(t))), 0), rule, STREAM)
    ensures CanRegress(ENV, w, rule, STREAM)
  {
    BeforeBegin(w.(db := ApplyClock(w.db, Tick(t))), 0, rule);
    BeforeClock(w, Tick(t), rule);
  }

  /** At 10 s the event lease is over but the window runs to 15 s: the event is reclaimed. */
  lemma ReclaimRegresses(w: World)
    requires BegunAt(w, 9 * SECOND)
    ensures CanRegress(ENV, w, Reclaims, STREAM)
  {
    LateCopyRegresses(w.(db := ApplyClock(w.db, Tick(SECOND))), "r", Reclaims);
    BeforeClock(w, Tick(SECOND), Reclaims);
  }

  /** At 4 s Relay r shuts down; its barrier and its window both end at 10 s. */
  function ShutDown(db: Db): Db {
    Tables.Stop(Tables.Release(db, "r", CONFIG.safetyMargin), "r").(now := 10 * SECOND)
  }

  lemma ShutDownFacts(w: World)
    requires BegunAt(w, 4 * SECOND)
    ensures var db := ShutDown(w.db);
      && db.partitions[0] == Partition(None, None, 2, Some(10 * SECOND), Some(5000))
      && |db.partitions| == PARTITION_COUNT
      && db.relays == map["r" := Presence(4 * SECOND, true, true)] && db.events == w.db.events
      && db.streams == w.db.streams
      && !db.paused
  {}

  lemma BeforeShutDown(w: World, rule: Loosened)
    requires w.db.now == 4 * SECOND && CanRegress(ENV, w.(db := ShutDown(w.db)), rule, STREAM)
    ensures CanRegress(ENV, w, rule, STREAM)
  {
    var released := w.(db := ApplyPartition(ENV, w.db, Step.Release("r")));
    var stopped := w.(db := ApplyClock(released.db, Step.Stop("r")));
    assert stopped.(db := ApplyClock(stopped.db, Tick(6 * SECOND))) == w.(db := ShutDown(w.db));
    BeforeClock(stopped, Tick(6 * SECOND), rule);
    BeforeClock(released, Step.Stop("r"), rule);
    BeforePartition(w, Step.Release("r"), rule);
  }

  /** At 10 s Relay s takes the partition over and claims, and only then the record lands. */
  lemma ClosingInstantRegresses(w: World)
    requires BegunAt(w, 4 * SECOND) && InstanceId("s")
    ensures CanRegress(ENV, w, ClosedWindow, STREAM)
  {
    var down := w.(db := ShutDown(w.db));
    var over := TakenOver(w, down);
    LateCopyRegresses(over, "s", ClosedWindow);
    BeforeShutDown(w, ClosedWindow);
  }

  lemma TakeoverFacts(w: World, down: World, over: World)
    requires BegunAt(w, 4 * SECOND) && InstanceId("s") && down == w.(db := ShutDown(w.db))
    requires over == down.(db := ApplyPartition(ENV, Joined(down.db, "s"), Step.Reconcile("s")))
    ensures Stage(over.db, "s", 1) && Waiting(over.db, 0, 1) && Waiting(over.db, 1, 2) && |over.handlers| == 1
    ensures LateCopy(over.handlers[0], over.db.now, over.db.partitions, ClosedWindow)
  {
    ShutDownFacts(w);
    JoinTakes(down.db, "s");
  }

  lemma TakenOver(w: World, down: World) returns (over: World)
    requires BegunAt(w, 4 * SECOND) && InstanceId("s") && down == w.(db := ShutDown(w.db))
    ensures Stage(over.db, "s", 1) && Waiting(over.db, 0, 1) && Waiting(over.db, 1, 2) && |over.handlers| == 1
    ensures LateCopy(over.handlers[0], over.db.now, over.db.partitions, ClosedWindow)
    ensures CanRegress(ENV, over, ClosedWindow, STREAM) ==> CanRegress(ENV, down, ClosedWindow, STREAM)
  {
    over := down.(db := ApplyPartition(ENV, Joined(down.db, "s"), Step.Reconcile("s")));
    TakeoverFacts(w, down, over);
    if CanRegress(ENV, over, ClosedWindow, STREAM) { BeforeJoin(down, "s", ClosedWindow); }
  }

  /** At 4 s Publish fails and the event is put back at once, while the request it sent is
      still on its way. */
  function PutBack(w: World): World {
    StepMarkRetry(ENV, StepFail(w, 0, false), 0, 0)
  }

  lemma FailFacts(w: World)
    requires |w.handlers| == 1 && w.handlers[0].alive && w.handlers[0].phase == Publishing
    ensures StepFail(w, 0, false) == w.(handlers := [w.handlers[0].(phase := Failed(false))])
  {}

  lemma RetryFacts(w: World)
    requires |w.handlers| == 1 && w.handlers[0].phase == Failed(false) && w.handlers[0].attempts == 1
    requires Stage(w.db, "r", 1) && w.handlers[0].owner == "r" && Working(ENV, w.db, w.handlers[0], Slot(STREAM, 1), 0)
    ensures var w' := StepMarkRetry(ENV, w, 0, 0);
      && w'.handlers == [w.handlers[0].(phase := Finished)]
      && w'.db == w.db.(events := w.db.events[0 := Settled(w.db.events[0]).(status := Pending,
           availableAt := w.db.now)])
  {
    assert OrderedResultFence(w.db, 0, "r", w.handlers[0].epoch, 1);
  }

  lemma PutBackFacts(w: World)
    requires BegunAt(w, 4 * SECOND)
    ensures Stage(PutBack(w).db, "r", 1) && Waiting(PutBack(w).db, 0, 1) && Waiting(PutBack(w).db, 1, 2)
    ensures PutBack(w).handlers == [w.handlers[0].(phase := Finished)] && PutBack(w).db.now == w.db.now
  {
    FailFacts(w);
    RetryFacts(StepFail(w, 0, false));
  }

  lemma BeforeRetry(w: World, rule: Loosened)
    requires CanRegress(ENV, StepMarkRetry(ENV, w, 0, 0), rule, STREAM)
    ensures CanRegress(ENV, w, rule, STREAM)
  {
    Before(ENV, w, Step.MarkRetry(0, 0), rule, STREAM);
  }

  lemma BeforePutBack(w: World, rule: Loosened)
    requires CanRegress(ENV, PutBack(w), rule, STREAM)
    ensures CanRegress(ENV, w, rule, STREAM)
  {
    BeforeRetry(StepFail(w, 0, false), rule);
    Before(ENV, w, Fail(0, false), rule, STREAM);
  }

  lemma LateReplyRegresses(w: World)
    requires BegunAt(w, 4 * SECOND)
    ensures CanRegress(ENV, w, AfterReturn, STREAM)
  {
    PutBackFacts(w);
    LateCopyRegresses(PutBack(w), "r", AfterReturn);
    BeforePutBack(w, AfterReturn);
  }

  lemma ClaimsAtZero(w: World)
    requires Opening(w) && InstanceId("r")
    ensures var held := w.(db := ApplyPartition(ENV, Joined(w.db, "r"), Step.Reconcile("r")));
      Stage(held.db, "r", 1) && Waiting(held.db, 0, 1) && ClaimedAtZero(Claim(held, "r", 0))
  {
    JoinTakes(w.db, "r");
    var held := w.(db := ApplyPartition(ENV, Joined(w.db, "r"), Step.Reconcile("r")));
    ClaimWorks(held, "r", 0, 1);
  }

  lemma FromTheStart(rule: Loosened)
    ensures CanRegress(ENV, Init(0), rule, STREAM)
  {
    EventsAreValid();
    BothEnqueued();
    var first := Enqueued(Init(0), 0, FIRST);
    var w := Enqueued(first, 1, SECOND_EVENT);
    OpeningRegresses(w, rule);
    FirstEnqueued();
    BeforeTable(first, Step.Enqueue(1, SECOND_EVENT), rule);
    BeforeTable(Init(0), Step.Enqueue(0, FIRST), rule);
  }

  lemma OpeningRegresses(w: World, rule: Loosened)
    requires Opening(w) && InstanceId("r") && InstanceId("s")
    ensures CanRegress(ENV, w, rule, STREAM)
  {
    var held := w.(db := ApplyPartition(ENV, Joined(w.db, "r"), Step.Reconcile("r")));
    ClaimsAtZero(w);
    AfterClaim(Claim(held, "r", 0), rule);
    BeforeClaim(held, "r", 0, 1, rule);
    BeforeJoin(w, "r", rule);
  }

  lemma AfterClaim(w: World, rule: Loosened)
    requires ClaimedAtZero(w) && InstanceId("s")
    ensures CanRegress(ENV, w, rule, STREAM)
  {
    var t: nat := if rule == Reclaims then 9 * SECOND else 4 * SECOND;
    BeginsAt(w, t);
    match rule {
      case Reclaims => ReclaimRegresses(StepBegin(ENV, w.(db := ApplyClock(w.db, Tick(t))), 0));
      case ClosedWindow => ClosingInstantRegresses(StepBegin(ENV, w.(db := ApplyClock(w.db, Tick(t))), 0));
      case AfterReturn => LateReplyRegresses(StepBegin(ENV, w.(db := ApplyClock(w.db, Tick(t))), 0));
    }
    BeforeBeginAt(w, t, rule);
  }

  /** Each part of the assumptions is needed: reclaiming within an epoch puts 1, 2, 1 on the
      broker though every record is timely, and without any reclaim so does a broker that
      accepts a record at the closing instant, and one that accepts a record inside its
      window after the Publish call failed. */
  lemma EveryAssumptionIsNeeded(rule: Loosened)
    ensures ValidEnv(ENV) && forall env, w, step :: Loosens(env, w, step, rule)
    ensures exists steps ::
      LooseRun(ENV, Init(0), steps, rule) && !Nondecreasing(LogOf(Exec(ENV, Init(0), steps), STREAM))
  {
    ConfigFacts();
    FromTheStart(rule);
  }
}
