/** What delivery promises with no assumption about time: sequences appear in order,
    nothing committed is lost, no sequence is reused, and publish attempts are bounded. */
module Guarantees {
  import opened Types
  import opened Selection
  import opened Tables
  import opened Protocol
  import opened Consistency
  import opened Windows
  import StepLaws

  /** Any run at all: ids are fresh, and nothing is assumed about time or reclaims. */
  const UNTIMED := Assumed(false, false)

  // ---------------------------------------------------------------- sequencing

  /** The sequences of a stream first reach the broker as start, start + 1, ... with no
      skip and no swap, and everything before the cursor has reached it. */
  lemma FirstOccurrencesAreConsecutive(env: Env, w: World, k: StreamKey)
    requires ValidEnv(env) && Reachable(env, w, UNTIMED) && k in w.db.streams
    ensures var s := w.db.streams[k];
      && 0 < s.start <= s.next
      && (FirstSeen(LogOf(w, k)) == Range(s.start, s.next) || FirstSeen(LogOf(w, k)) == Range(s.start, s.next + 1))
  {
    ReachableIsSound(env, w, UNTIMED);
    assert StreamOk(env, k, w.db.streams[k]) && LogOk(w.db.streams[k], LogFor(w.log, k));
  }

  /** An ordered event that is inflight or dead sits exactly at its stream's cursor. */
  lemma BusyEventsSitAtTheCursor(env: Env, w: World, id: Id)
    requires ValidEnv(env) && Reachable(env, w, UNTIMED)
    requires id in w.db.events && w.db.events[id].key.Some?
    requires w.db.events[id].status == Inflight || w.db.events[id].status == Dead
    ensures AtCursor(w.db, w.db.events[id])
  {
    ReachableIsSound(env, w, UNTIMED);
    assert RowOk(w.db.streams, w.db.events[id]);
  }

  /** An attempt at sequence n begins only when each of start .. n - 1 has been
      acknowledged by the broker and durably delivered. */
  lemma AttemptsWaitForPredecessors(env: Env, w: World, h: nat, m: int)
    requires ValidEnv(env) && Reachable(env, w, UNTIMED)
    requires Running(w, h) && w.handlers[h].slot.Some? && BeginResult(env, w.db, w.handlers[h]).Some?
    requires var slot := w.handlers[h].slot.value;
      slot.stream in w.db.streams && w.db.streams[slot.stream].start <= m < slot.sequence
    ensures var earlier := Slot(w.handlers[h].slot.value.stream, m);
      earlier in w.deliveredBy && DeliveredEvent(w, earlier, w.deliveredBy[earlier])
  {
    ReachableIsSound(env, w, UNTIMED);
    BeginHolds(env, w, h);
    assert Passed(w.db.streams, Slot(w.handlers[h].slot.value.stream, m));
  }

  /** The id a slot was delivered for was enqueued at that slot and acknowledged. */
  predicate DeliveredEvent(w: World, slot: Slot, id: Id) {
    id in w.enqueued && w.enqueued[id] == Some(slot) && id in w.acked
  }

  // ---------------------------------------------------------------- conservation

  /** Each enqueued id is still a row, or was removed after the broker acknowledged it. */
  lemma NothingCommittedIsLost(env: Env, w: World, id: Id)
    requires ValidEnv(env) && Reachable(env, w, UNTIMED) && id in w.enqueued
    ensures id in w.db.events || id in w.acked
  {
    ReachableIsSound(env, w, UNTIMED);
    assert Accounted(w.db.events, w.db.streams, w.acked, id, w.enqueued[id]);
  }

  /** No stream position is ever given to two ids, even after the first row was removed,
      so every record of one sequence carries one id. */
  lemma NoSequenceIsReused(env: Env, w: World, k: StreamKey, i: nat, j: nat)
    requires ValidEnv(env) && Reachable(env, w, UNTIMED)
    requires i < |LogOf(w, k)| && j < |LogOf(w, k)| && LogOf(w, k)[i].sequence == LogOf(w, k)[j].sequence
    ensures LogOf(w, k)[i].id == LogOf(w, k)[j].id
    ensures forall id :: id in w.enqueued && w.enqueued[id] == Some(Slot(k, LogOf(w, k)[i].sequence)) ==>
      id == LogOf(w, k)[i].id
  {
    ReachableIsSound(env, w, UNTIMED);
    RecordId(env, w, k, i);
    RecordId(env, w, k, j);
  }

  lemma RecordId(env: Env, w: World, k: StreamKey, i: nat)
    requires Consistent(env, w) && k in w.log && i < |w.log[k]|
    ensures var r := w.log[k][i]; r.id in w.enqueued && w.enqueued[r.id] == Some(Slot(k, r.sequence))
  {
    var r := w.log[k][i];
    assert RecordOk(w.handlers, w.db.now, k, r);
    assert HandlerOk(env, w.db.streams, w.enqueued, w.acked, w.log, w.db.now, w.handlers[r.handler]);
  }

  /** Cursors never move back, and a delivery once recorded is never rewritten. */
  lemma {:induction false} ProgressIsPermanent(env: Env, w: World, steps: seq<Step>, slot: Slot)
    requires ValidEnv(env) && Consistent(env, w) && Run(env, w, steps, UNTIMED) && slot in w.deliveredBy
    ensures var w' := Exec(env, w, steps); slot in w'.deliveredBy && w'.deliveredBy[slot] == w.deliveredBy[slot]
    decreases |steps|
  {
    if steps != [] {
      var w' := Apply(env, w, steps[0]);
      StepKeeps(env, w, steps[0]);
      StepRemembers(env, w, steps[0], slot);
      ProgressIsPermanent(env, w', steps[1..], slot);
    }
  }

  lemma StepRemembers(env: Env, w: World, step: Step, slot: Slot)
    requires Consistent(env, w) && slot in w.deliveredBy
    ensures var w' := Apply(env, w, step); slot in w'.deliveredBy && w'.deliveredBy[slot] == w.deliveredBy[slot]
  {
    if HandlerStep(step) { HandlerStepRemembers(env, w, step, slot); }
  }

  lemma HandlerStepRemembers(env: Env, w: World, step: Step, slot: Slot)
    requires Consistent(env, w) && slot in w.deliveredBy && HandlerStep(step)
    ensures var w' := ApplyHandler(env, w, step); slot in w'.deliveredBy && w'.deliveredBy[slot] == w.deliveredBy[slot]
  {
    if step.MarkDelivered? { DeliveredRemembers(env, w, step.h, slot); }
  }

  lemma DeliveredRemembers(env: Env, w: World, h: nat, slot: Slot)
    requires Consistent(env, w) && slot in w.deliveredBy
    ensures var w' := StepMarkDelivered(w, h); slot in w'.deliveredBy && w'.deliveredBy[slot] == w.deliveredBy[slot]
  {
    if Advances(w, h) {
      AdvanceEffect(env, w, h);
      AdvanceRemembers(env, w, StepMarkDelivered(w, h), h, slot);
    } else {
      NoDelivery(w, h);
    }
  }

  lemma AdvanceRemembers(env: Env, w: World, w': World, h: nat, slot: Slot)
    requires Consistent(env, w) && AdvancedTo(w, w', h) && slot in w.deliveredBy
    ensures slot in w'.deliveredBy && w'.deliveredBy[slot] == w.deliveredBy[slot]
  {
    assert !Passed(w.db.streams, w.handlers[h].slot.value);
  }

  lemma NoDelivery(w: World, h: nat)
    requires !Advances(w, h)
    ensures StepMarkDelivered(w, h).deliveredBy == w.deliveredBy
  {}

  // ---------------------------------------------------------------- publish budget

  /** No configured attempt limit exceeds this one. */
  ghost predicate Bounds(env: Env, limit: nat) {
    forall r :: env.cfg(r).maxAttempts <= limit
  }

  /** Begun attempts are covered by operator retries and the row's own count. */
  predicate RowBudget(limit: nat, e: Event, begins: nat, retries: nat) {
    0 <= e.attempts <= limit && begins <= limit * retries + e.attempts
  }

  ghost predicate Budget(limit: nat, events: Events, enqueued: map<Id, Option<Slot>>, begins: map<Id, nat>,
                         retries: map<Id, nat>) {
    && (forall id :: id in begins ==> id in enqueued)
    && (forall id :: id in events ==>
          id in enqueued && RowBudget(limit, events[id], Count(begins, id), Count(retries, id)))
    && (forall id :: Count(begins, id) <= limit * (Count(retries, id) + 1))
  }

  ghost predicate Budgeted(limit: nat, w: World) {
    Budget(limit, w.db.events, w.enqueued, w.begins, w.retries)
  }

  lemma SameAttemptsBudget(limit: nat, w: World, w': World)
    requires Budgeted(limit, w) && SameAttempts(w.db.events, w'.db.events)
    requires w'.enqueued == w.enqueued && w'.begins == w.begins && w'.retries == w.retries
    ensures Budgeted(limit, w')
  {}

  lemma BeginBudget(env: Env, limit: nat, w: World, h: nat)
    requires Bounds(env, limit) && Budgeted(limit, w)
    ensures Budgeted(limit, StepBegin(env, w, h))
  {
    if Running(w, h) && w.handlers[h].phase == Claimed
      && w.handlers[h].attempts < env.cfg(w.handlers[h].owner).maxAttempts {
      var result := BeginResult(env, w.db, w.handlers[h]);
      if result.Some? {
        BegunBudget(env, limit, w, h, result.value);
        BegunWorld(env, w, h, result.value);
      }
    }
  }

  lemma BegunWorld(env: Env, w: World, h: nat, db: Db)
    requires Running(w, h) && w.handlers[h].phase == Claimed
    requires w.handlers[h].attempts < env.cfg(w.handlers[h].owner).maxAttempts
    requires BeginResult(env, w.db, w.handlers[h]) == Some(db)
    ensures var w' := StepBegin(env, w, h); var id := w.handlers[h].id;
      w'.db == db && w'.enqueued == w.enqueued && w'.retries == w.retries
        && w'.begins == w.begins[id := Count(w.begins, id) + 1]
  {}

  lemma BeginCounts(env: Env, limit: nat, db: Db, x: Handler)
    requires Bounds(env, limit) && BeginResult(env, db, x).Some?
    ensures var e := db.events[x.id];
      e.attempts < limit && BeginResult(env, db, x).value.events == db.events[x.id := e.(attempts := e.attempts + 1)]
  {}

  lemma BegunBudget(env: Env, limit: nat, w: World, h: nat, db: Db)
    requires Bounds(env, limit) && Budgeted(limit, w) && h < |w.handlers|
    requires BeginResult(env, w.db, w.handlers[h]) == Some(db)
    ensures var id := w.handlers[h].id;
      Budget(limit, db.events, w.enqueued, w.begins[id := Count(w.begins, id) + 1], w.retries)
  {
    var id := w.handlers[h].id;
    BeginCounts(env, limit, w.db, w.handlers[h]);
    OneMore(limit, w.db.events, w.enqueued, w.begins, w.retries, id, db.events[id]);
  }

  lemma OneMore(limit: nat, events: Events, enqueued: map<Id, Option<Slot>>, begins: map<Id, nat>, retries: map<Id,
                nat>, id: Id, e: Event)
    requires Budget(limit, events, enqueued, begins, retries) && id in events
    requires e.attempts == events[id].attempts + 1 <= limit
    ensures Budget(limit, events[id := e], enqueued, begins[id := Count(begins, id) + 1], retries)
  {
    var used, retried := Count(begins, id), Count(retries, id);
    assert RowBudget(limit, events[id], used, retried);
    assert limit * (retried + 1) == limit * retried + limit;
    forall i | i in events && i != id ensures RowBudget(limit, events[i], Count(begins, i), Count(retries, i)) {}
  }

  lemma RetryDeadBudget(limit: nat, w: World, id: Id)
    requires Budgeted(limit, w) && Tables.RetryDead(w.db, id).Some?
    ensures Budget(limit, Tables.RetryDead(w.db, id).value.events, w.enqueued, w.begins,
      w.retries[id := Count(w.retries, id) + 1])
  {
    OneMoreRetry(limit, w.db.events, w.enqueued, w.begins, w.retries, id, Tables.RetryDead(w.db, id).value.events[id]);
  }

  lemma OneMoreRetry(limit: nat, events: Events, enqueued: map<Id, Option<Slot>>, begins: map<Id, nat>, retries: map<Id,
                     nat>, id: Id, e: Event)
    requires Budget(limit, events, enqueued, begins, retries) && id in events && e.attempts == 0
    ensures Budget(limit, events[id := e], enqueued, begins, retries[id := Count(retries, id) + 1])
  {
    var used, retried := Count(begins, id), Count(retries, id);
    assert RowBudget(limit, events[id], used, retried);
    assert limit * (retried + 1) == limit * retried + limit;
    assert limit * (retried + 2) == limit * (retried + 1) + limit;
    forall i | i in events && i != id ensures RowBudget(limit, events[i], Count(begins, i), Count(retries, i)) {}
  }

  lemma AdmitBudget(limit: nat, events: Events, enqueued: map<Id, Option<Slot>>, begins: map<Id, nat>, retries: map<Id,
                    nat>, id: Id, e: Event,
                    slot: Option<Slot>)
    requires Budget(limit, events, enqueued, begins, retries) && id !in enqueued && e.attempts == 0
    ensures Budget(limit, events[id := e], enqueued[id := slot], begins, retries)
  {}

  lemma EnqueueBudget(env: Env, limit: nat, w: World, id: Id, event: NewEvent)
    requires Consistent(env, w) && Budgeted(limit, w) && id !in w.enqueued
    ensures Budgeted(limit, ApplyTable(env, w, Step.Enqueue(id, event)))
  {
    var result := Tables.Enqueue(env.part, w.db, id, event);
    if result.Enqueued? {
      EnqueueAdmits(env, w, id, event);
      AdmitBudget(limit, w.db.events, w.enqueued, w.begins, w.retries, id, result.db.events[id],
        SlotOf(result.db.events[id]));
    }
  }

  lemma TableStepBudget(env: Env, limit: nat, w: World, step: Step)
    requires Consistent(env, w) && Budgeted(limit, w) && TableStep(step) && FreshIds(w, step)
    ensures Budgeted(limit, ApplyTable(env, w, step))
  {
    match step
    case Enqueue(id, event) => EnqueueBudget(env, limit, w, id, event);
    case Replay(source, id, unordered) =>
      var result := Tables.Replay(w.db, source, id, unordered);
      if result.Some? {
        AdmitBudget(limit, w.db.events, w.enqueued, w.begins, w.retries, id, result.value.events[id], None);
      }
    case RetryDead(id) =>
      if Tables.RetryDead(w.db, id).Some? { RetryDeadBudget(limit, w, id); }
    case Cleanup(_, _) =>
      SameAttemptsBudget(limit, w, ApplyTable(env, w, step));
  }

  lemma HandlerStepBudget(env: Env, limit: nat, w: World, step: Step)
    requires Bounds(env, limit) && Consistent(env, w) && Budgeted(limit, w) && HandlerStep(step)
    ensures Budgeted(limit, ApplyHandler(env, w, step))
  {
    if step.Begin? {
      BeginBudget(env, limit, w, step.h);
    } else {
      SameAttemptsBudget(limit, w, ApplyHandler(env, w, step));
    }
  }

  lemma StepBudget(env: Env, limit: nat, w: World, step: Step)
    requires Bounds(env, limit) && Consistent(env, w) && Budgeted(limit, w) && FreshIds(w, step)
    ensures Budgeted(limit, Apply(env, w, step))
  {
    if TableStep(step) {
      TableStepBudget(env, limit, w, step);
    } else if ClaimStep(step) {
      SameAttemptsBudget(limit, w, Dispatch(env, w, step.owner, Picks(env, w, step)));
    } else if HandlerStep(step) {
      HandlerStepBudget(env, limit, w, step);
    } else {
      BackgroundBudget(env, limit, w, step);
    }
  }

  lemma BackgroundBudget(env: Env, limit: nat, w: World, step: Step)
    requires Budgeted(limit, w) && (ClockStep(step) || PartitionStep(step))
    ensures Budgeted(limit, Apply(env, w, step))
  {
    assert Apply(env, w, step).db.events == w.db.events;
  }

  lemma {:induction false} RunBudget(env: Env, limit: nat, w: World, steps: seq<Step>, a: Assumed)
    requires Bounds(env, limit) && Consistent(env, w) && Budgeted(limit, w) && Run(env, w, steps, a)
    ensures Budgeted(limit, Exec(env, w, steps))
    decreases |steps|
  {
    if steps != [] {
      StepKeeps(env, w, steps[0]);
      StepBudget(env, limit, w, steps[0]);
      RunBudget(env, limit, Apply(env, w, steps[0]), steps[1..], a);
    }
  }

  /** Across owners, crashes and reclaims, the broker publish calls for one event never
      exceed the attempt limit times one more than its operator retries. */
  lemma PublishCallsAreBounded(env: Env, limit: nat, w: World, id: Id)
    requires ValidEnv(env) && Bounds(env, limit) && Reachable(env, w, UNTIMED)
    ensures Count(w.begins, id) <= limit * (1 + Count(w.retries, id))
  {
    var start, steps :| Run(env, Init(start), steps, UNTIMED) && w == Exec(env, Init(start), steps);
    InitIsConsistent(env, start);
    RunBudget(env, limit, Init(start), steps, UNTIMED);
  }

  /** In every run, the attempts of one event number at most the attempt limit for its first life
      and for each of its revivals by an operator. */
  lemma AttemptsAreBounded(env: Env, limit: nat, start: Time, steps: seq<Step>, id: Id)
    requires ValidEnv(env) && Bounds(env, limit) && Run(env, Init(start), steps, UNTIMED)
    ensures StepLaws.Attempts(env, Init(start), steps, id)
         <= limit * (1 + StepLaws.Revivals(env, Init(start), steps, id))
  {
    var w := Exec(env, Init(start), steps);
    assert Reachable(env, w, UNTIMED);
    PublishCallsAreBounded(env, limit, w, id);
    assert Count(Init(start).begins, id) == 0 && Count(Init(start).retries, id) == 0;
    StepLaws.HistoryCounts(env, Init(start), steps, id);
    assert Count(w.begins, id) == StepLaws.Attempts(env, Init(start), steps, id);
    assert Count(w.retries, id) == StepLaws.Revivals(env, Init(start), steps, id);
  }

  predicate Spent(env: Env, handlers: seq<Handler>, h: nat) {
    && h < |handlers| && !handlers[h].begun && handlers[h].phase != Publishing
    && handlers[h].attempts >= env.cfg(handlers[h].owner).maxAttempts
  }

  ghost predicate NoNewRecords(log: Log, log': Log, h: nat) {
    forall k, r :: r in LogFor(log', k) && r.handler == h ==> r in LogFor(log, k)
  }

  /** A handler whose claim found the budget spent never publishes, whatever happens: it
      never begins an attempt and no record of its appears. */
  lemma {:induction false} SpentHandlersNeverPublish(env: Env, w: World, steps: seq<Step>, h: nat)
    requires Spent(env, w.handlers, h)
    ensures Spent(env, Exec(env, w, steps).handlers, h) && NoNewRecords(w.log, Exec(env, w, steps).log, h)
    decreases |steps|
  {
    if steps != [] {
      SpentStaysSpent(env, w, steps[0], h);
      SpentIsSilent(env, w, steps[0], h);
      SpentHandlersNeverPublish(env, Apply(env, w, steps[0]), steps[1..], h);
    }
  }

  lemma SpentIsSilent(env: Env, w: World, step: Step, h: nat)
    requires Spent(env, w.handlers, h)
    ensures NoNewRecords(w.log, Apply(env, w, step).log, h)
  {
    if step.Append? {
      SpentAppend(w, step.h, h);
    } else {
      LogsStand(env, w, step);
    }
  }

  lemma LogsStand(env: Env, w: World, step: Step)
    requires !step.Append?
    ensures Apply(env, w, step).log == w.log
  {}

  lemma SpentAppend(w: World, i: nat, h: nat)
    requires h < |w.handlers| && !w.handlers[h].begun
    ensures NoNewRecords(w.log, StepAppend(w, i).log, h)
  {}

  /** Such a handler can only bury its event: a burial whose fence holds leaves the event
      dead, the cursor in place and the handler returned, and every other step of the
      handler except giving up changes nothing. */
  lemma SpentHandlersOnlyBury(env: Env, w: World, h: nat, permanent: bool, delay: Time)
    requires Running(w, h) && w.handlers[h].phase == Claimed && Spent(env, w.handlers, h)
    ensures var w' := StepMarkDead(env, w, h); var x := w.handlers[h];
      && w'.handlers == w.handlers[h := x.(phase := Finished)] && w'.log == w.log && w'.db.streams == w.db.streams
      && (DeadResult(w.db, x).Some? ==> x.id in w'.db.events && w'.db.events[x.id].status == Dead)
      && (DeadResult(w.db, x).None? ==> w'.db == w.db)
    ensures StepBegin(env, w, h) == StepAppend(w, h) == StepAck(w, h) == StepFail(w, h, permanent) == w
    ensures StepMarkDelivered(w, h) == StepMarkRetry(env, w, h, delay) == w
  {}

  lemma SpentStaysSpent(env: Env, w: World, step: Step, h: nat)
    requires Spent(env, w.handlers, h)
    ensures Spent(env, Apply(env, w, step).handlers, h)
  {
    if ClaimStep(step) {
      assert Dispatch(env, w, step.owner, Picks(env, w, step)).handlers[h] == w.handlers[h];
    } else if HandlerStep(step) {
      SpentHandler(env, w, step, h);
    }
  }

  lemma SpentHandler(env: Env, w: World, step: Step, h: nat)
    requires Spent(env, w.handlers, h) && HandlerStep(step)
    ensures Spent(env, ApplyHandler(env, w, step).handlers, h)
  {
    if step.Begin? {
      SpentBegin(env, w, step.h, h);
    } else {
      HandlerStepUndisturbed(env, w, step);
      assert SameAttempt(w.handlers[h], ApplyHandler(env, w, step).handlers[h]);
    }
  }

  lemma SpentBegin(env: Env, w: World, i: nat, h: nat)
    requires Spent(env, w.handlers, h)
    ensures Spent(env, StepBegin(env, w, i).handlers, h)
  {}
}
