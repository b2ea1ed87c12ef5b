/** The life of one outbox row in any run: every change of its status, of its attempts and of
    its existence has one cause, and that cause was entitled to it. */
module Lifecycle {
  import opened Types
  import opened Selection
  import opened Tables
  import opened Protocol
  import opened Consistency
  import opened OutboxLaws

  /** The step is by a running handler of this event whose Relay holds the row. */
  predicate ByHolder(w: World, h: nat, id: Id) {
    && h < |w.handlers| && w.handlers[h].alive && w.handlers[h].id == id
    && HeldBy(w.db, id, w.handlers[h].owner)
  }

  /** Why a row may go from one status to another. */
  ghost predicate Entitled(env: Env, w: World, step: Step, id: Id, to: Status)
    requires id in w.db.events
  {
    var e := w.db.events[id];
    match to
    case Inflight =>
      // a claim of a row that is due and that nobody leases
      ClaimStep(step) && Unleased(e, w.db.now) && e.availableAt <= w.db.now && !w.db.paused && id !in step.locked
    case Delivered =>
      // its holder's publish was accepted by the broker and acknowledged
      && step.MarkDelivered? && ByHolder(w, step.h, id)
      && w.handlers[step.h].phase == Acked && w.handlers[step.h].appended && id in w.acked
    case Dead =>
      // its holder failed for good, or has no attempts left
      && step.MarkDead? && ByHolder(w, step.h, id)
      && var x := w.handlers[step.h]; var spent := x.attempts >= env.cfg(x.owner).maxAttempts;
         (x.phase == Claimed && spent) || x.phase == Failed(true) || (x.phase == Failed(false) && spent)
    case Pending =>
      // its holder failed but may try again, or an operator revived it
      || (&& step.MarkRetry? && ByHolder(w, step.h, id) && w.handlers[step.h].phase == Failed(false)
          && w.handlers[step.h].attempts < env.cfg(w.handlers[step.h].owner).maxAttempts)
      || (step.RetryDead? && step.id == id && e.status == Dead)
  }

  /** The row is as it was, or its status changed with a cause. */
  ghost predicate Caused(env: Env, w: World, events': map<Id, Event>, step: Step, id: Id)
    requires id in w.db.events && id in events'
  {
    events'[id].status == w.db.events[id].status || Entitled(env, w, step, id, events'[id].status)
  }

  /** The row is kept with a cause for any change, or removed after its retention. */
  ghost predicate Fate(env: Env, w: World, events': map<Id, Event>, step: Step, id: Id)
    requires id in w.db.events
  {
    if id in events' then Caused(env, w, events', step, id) else Expired(w, step, id)
  }

  /** A claim picks only rows that are due and that nobody leases. */
  lemma PicksAreEntitled(env: Env, w: World, step: Step, id: Id)
    requires ValidEnv(env) && ClaimStep(step) && id in Picks(env, w, step)
    ensures id in w.db.events && Entitled(env, w, step, id, Inflight)
  {
    if step.ClaimOrdered? {
      assert env.cfg(step.owner).Valid();
      OrderedClaimTakesIff(w.db, step.owner, step.limit, env.cfg(step.owner).PublishWindow(), step.locked, id);
    } else {
      UnorderedClaimTakesIff(w.db, step.limit, step.locked, id);
    }
  }

  lemma ClaimCaused(env: Env, w: World, step: Step, picks: seq<Id>, id: Id)
    requires ClaimStep(step) && id in w.db.events && (id in picks ==> Entitled(env, w, step, id, Inflight))
    ensures Fate(env, w, Lease(w.db, picks, step.owner, env.cfg(step.owner).eventLease).events, step, id)
  {
    LeaseTakes(w.db, picks, step.owner, env.cfg(step.owner).eventLease, id);
  }

  /** A result that takes effect changes the handler's own row, which its Relay holds. */
  predicate Settles(db: Db, result: Option<Db>, x: Handler, to: Status) {
    result.Some? ==>
      && HeldBy(db, x.id, x.owner) && x.id in result.value.events
      && result.value.events == db.events[x.id := result.value.events[x.id]] && result.value.events[x.id].status == to
  }

  lemma DeliveredSettles(db: Db, x: Handler)
    ensures Settles(db, DeliveredResult(db, x), x, Delivered)
  {
    if x.slot.Some? {
      OrderedDeliveryIff(db, x.id, x.owner, x.epoch, x.slot.value.sequence);
    } else {
      UnorderedResultsIff(db, x.id, x.owner, 0);
    }
  }

  lemma RetrySettles(db: Db, x: Handler, delay: Time)
    ensures Settles(db, RetryResult(db, x, delay), x, Pending)
  {
    if x.slot.Some? {
      OrderedRetryIff(db, x.id, x.owner, x.epoch, x.slot.value.sequence, delay);
    } else {
      UnorderedResultsIff(db, x.id, x.owner, delay);
    }
  }

  lemma DeadSettles(db: Db, x: Handler)
    ensures Settles(db, DeadResult(db, x), x, Dead)
  {
    if x.slot.Some? {
      OrderedBurialIff(db, x.id, x.owner, x.epoch, x.slot.value.sequence);
    } else {
      UnorderedResultsIff(db, x.id, x.owner, 0);
    }
  }

  /** The events after a step that records a result, or none. */
  function EventsAfter(db: Db, acts: bool, result: Option<Db>): map<Id, Event> {
    if acts && result.Some? then result.value.events else db.events
  }

  lemma DeliveredEvents(w: World, h: nat)
    requires h < |w.handlers|
    ensures StepMarkDelivered(w, h).db.events
         == EventsAfter(w.db, w.handlers[h].alive && w.handlers[h].phase == Acked, DeliveredResult(w.db, w.handlers[h]))
  {}

  lemma RetryEvents(env: Env, w: World, h: nat, delay: Time)
    requires h < |w.handlers|
    ensures StepMarkRetry(env, w, h, delay).db.events
         == EventsAfter(w.db, w.handlers[h].alive && MayRetry(env, w.handlers[h]),
                        RetryResult(w.db, w.handlers[h], delay))
  {}

  lemma DeadEvents(env: Env, w: World, h: nat)
    requires h < |w.handlers|
    ensures StepMarkDead(env, w, h).db.events
         == EventsAfter(w.db, w.handlers[h].alive && MayBury(env, w.handlers[h]), DeadResult(w.db, w.handlers[h]))
  {}

  lemma DeliveredCaused(env: Env, w: World, h: nat, id: Id)
    requires Consistent(env, w) && id in w.db.events && h < |w.handlers|
    ensures var events' := StepMarkDelivered(w, h).db.events;
      id in events' && Caused(env, w, events', Step.MarkDelivered(h), id)
  {
    assert HandlerOk(env, w.db.streams, w.enqueued, w.acked, w.log, w.db.now, w.handlers[h]);
    DeliveredEvents(w, h);
    DeliveredSettles(w.db, w.handlers[h]);
  }

  lemma RetryCaused(env: Env, w: World, h: nat, delay: Time, id: Id)
    requires id in w.db.events && h < |w.handlers|
    ensures var events' := StepMarkRetry(env, w, h, delay).db.events;
      id in events' && Caused(env, w, events', Step.MarkRetry(h, delay), id)
  {
    RetryEvents(env, w, h, delay);
    RetrySettles(w.db, w.handlers[h], delay);
  }

  lemma DeadCaused(env: Env, w: World, h: nat, id: Id)
    requires id in w.db.events && h < |w.handlers|
    ensures var events' := StepMarkDead(env, w, h).db.events;
      id in events' && Caused(env, w, events', Step.MarkDead(h), id)
  {
    DeadEvents(env, w, h);
    DeadSettles(w.db, w.handlers[h]);
  }

  lemma BeginCaused(env: Env, w: World, h: nat, id: Id)
    requires id in w.db.events
    ensures var w' := StepBegin(env, w, h); id in w'.db.events && w'.db.events[id].status == w.db.events[id].status
  {}

  lemma QuietCaused(env: Env, w: World, step: Step)
    requires HandlerStep(step) && !step.Begin? && !step.MarkDelivered? && !step.MarkRetry? && !step.MarkDead?
    ensures ApplyHandler(env, w, step).db == w.db
  {}

  lemma MissingHandler(env: Env, w: World, step: Step)
    requires (step.MarkDelivered? || step.MarkRetry? || step.MarkDead?) && step.h >= |w.handlers|
    ensures ApplyHandler(env, w, step) == w
  {}

  lemma HandlerCaused(env: Env, w: World, step: Step, id: Id)
    requires Consistent(env, w) && HandlerStep(step) && id in w.db.events
    ensures var events' := ApplyHandler(env, w, step).db.events; id in events' && Caused(env, w, events', step, id)
  {
    if step.Begin? {
      BeginCaused(env, w, step.h, id);
    } else if !step.MarkDelivered? && !step.MarkRetry? && !step.MarkDead? {
      QuietCaused(env, w, step);
    } else if step.h >= |w.handlers| {
      MissingHandler(env, w, step);
    } else {
      ResultCaused(env, w, step, id);
    }
  }

  lemma ResultCaused(env: Env, w: World, step: Step, id: Id)
    requires Consistent(env, w) && id in w.db.events
    requires (step.MarkDelivered? || step.MarkRetry? || step.MarkDead?) && step.h < |w.handlers|
    ensures var events' := ApplyHandler(env, w, step).db.events; id in events' && Caused(env, w, events', step, id)
  {
    if step.MarkDelivered? {
      DeliveredCaused(env, w, step.h, id);
    } else if step.MarkRetry? {
      RetryCaused(env, w, step.h, step.delay, id);
    } else {
      DeadCaused(env, w, step.h, id);
    }
  }

  lemma CleanupFate(env: Env, w: World, step: Step, id: Id)
    requires step.Cleanup? && id in w.db.events
    ensures Fate(env, w, ApplyTable(env, w, step).db.events, step, id)
  {
    CleanupRemovesIff(w.db, step.retention, step.batch, id);
  }

  lemma RevivalFate(env: Env, w: World, step: Step, id: Id)
    requires step.RetryDead? && id in w.db.events
    ensures Fate(env, w, ApplyTable(env, w, step).db.events, step, id)
  {
    RevivalIff(w.db, step.id);
    var r := Tables.RetryDead(w.db, step.id);
    assert ApplyTable(env, w, step).db.events == if r.Some? then r.value.events else w.db.events;
  }

  lemma EnqueueFate(env: Env, w: World, step: Step, id: Id)
    requires step.Enqueue? && id in w.db.events
    ensures Fate(env, w, ApplyTable(env, w, step).db.events, step, id)
  {}

  lemma ReplayFate(env: Env, w: World, step: Step, id: Id)
    requires step.Replay? && id in w.db.events
    ensures Fate(env, w, ApplyTable(env, w, step).db.events, step, id)
  {
    ReplayIff(w.db, step.source, step.id, step.unordered);
  }

  lemma TableCaused(env: Env, w: World, step: Step, id: Id)
    requires TableStep(step) && id in w.db.events
    ensures Fate(env, w, ApplyTable(env, w, step).db.events, step, id)
  {
    match step
    case Cleanup(_, _) => CleanupFate(env, w, step, id);
    case RetryDead(_) => RevivalFate(env, w, step, id);
    case Enqueue(_, _) => EnqueueFate(env, w, step, id);
    case Replay(_, _, _) => ReplayFate(env, w, step, id);
  }

  /** Retention is over for a delivered row. */
  predicate Expired(w: World, step: Step, id: Id)
    requires id in w.db.events
  {
    && step.Cleanup? && id in step.batch && w.db.events[id].status == Delivered && step.retention > 0
    && w.db.events[id].deliveredAt.Some? && w.db.events[id].deliveredAt.value + Whole(step.retention) < w.db.now
  }

  /** Along any run, a row changes status only for one of the causes above, and disappears only
      when it was delivered and its retention is over. */
  lemma ChangesHaveCauses(env: Env, w: World, step: Step, id: Id)
    requires ValidEnv(env) && Consistent(env, w) && id in w.db.events
    ensures Fate(env, w, Apply(env, w, step).db.events, step, id)
  {
    if ClaimStep(step) {
      ClaimFate(env, w, step, id);
    } else if TableStep(step) {
      TableStepFate(env, w, step, id);
    } else if HandlerStep(step) {
      HandlerStepFate(env, w, step, id);
    } else {
      BackgroundFate(env, w, step, id);
    }
  }

  lemma TableStepFate(env: Env, w: World, step: Step, id: Id)
    requires TableStep(step) && id in w.db.events
    ensures Fate(env, w, Apply(env, w, step).db.events, step, id)
  {
    assert Apply(env, w, step) == ApplyTable(env, w, step);
    TableCaused(env, w, step, id);
  }

  lemma HandlerStepFate(env: Env, w: World, step: Step, id: Id)
    requires Consistent(env, w) && HandlerStep(step) && id in w.db.events
    ensures Fate(env, w, Apply(env, w, step).db.events, step, id)
  {
    assert Apply(env, w, step) == ApplyHandler(env, w, step);
    HandlerCaused(env, w, step, id);
  }

  lemma BackgroundFate(env: Env, w: World, step: Step, id: Id)
    requires (ClockStep(step) || PartitionStep(step)) && id in w.db.events
    ensures Fate(env, w, Apply(env, w, step).db.events, step, id)
  {
    BackgroundEvents(env, w, step);
  }

  lemma ClaimFate(env: Env, w: World, step: Step, id: Id)
    requires ValidEnv(env) && ClaimStep(step) && id in w.db.events
    ensures Fate(env, w, Apply(env, w, step).db.events, step, id)
  {
    ClaimedEvents(env, w, step);
    if id in Picks(env, w, step) { PicksAreEntitled(env, w, step, id); }
    ClaimCaused(env, w, step, Picks(env, w, step), id);
  }

  lemma ClaimedEvents(env: Env, w: World, step: Step)
    requires ClaimStep(step)
    ensures Apply(env, w, step).db.events
         == Lease(w.db, Picks(env, w, step), step.owner, env.cfg(step.owner).eventLease).events
  {
    assert Apply(env, w, step) == Dispatch(env, w, step.owner, Picks(env, w, step));
  }

  lemma BackgroundEvents(env: Env, w: World, step: Step)
    requires ClockStep(step) || PartitionStep(step)
    ensures Apply(env, w, step).db.events == w.db.events
  {
    if ClockStep(step) {
      assert Apply(env, w, step) == w.(db := ApplyClock(w.db, step));
    } else {
      assert Apply(env, w, step) == w.(db := ApplyPartition(env, w.db, step));
    }
  }

  /** A cleanup removes every row of its batch whose retention is over. */
  lemma ExpiredRowsGo(env: Env, w: World, step: Step, id: Id)
    requires id in w.db.events && Expired(w, step, id)
    ensures id !in Apply(env, w, step).db.events
  {
    assert Apply(env, w, step) == ApplyTable(env, w, step);
    CleanupRemovesIff(w.db, step.retention, step.batch, id);
  }

  /** Rows appear only as inserts and replays make them: waiting, with no attempt counted. */
  lemma NewRowsWait(env: Env, w: World, step: Step, id: Id)
    requires id !in w.db.events && id in Apply(env, w, step).db.events
    ensures (step.Enqueue? && step.id == id) || (step.Replay? && step.id == id)
    ensures var e := Apply(env, w, step).db.events[id]; e.status == Pending && e.attempts == 0 && e.leaseOwner.None?
  {
    if TableStep(step) {
      NewTableRowsWait(env, w, step, id);
    } else {
      OthersAddNothing(env, w, step);
    }
  }

  lemma NewTableRowsWait(env: Env, w: World, step: Step, id: Id)
    requires TableStep(step) && id !in w.db.events && id in ApplyTable(env, w, step).db.events
    ensures (step.Enqueue? && step.id == id) || (step.Replay? && step.id == id)
    ensures var e := ApplyTable(env, w, step).db.events[id];
      e.status == Pending && e.attempts == 0 && e.leaseOwner.None?
  {}

  lemma OthersAddNothing(env: Env, w: World, step: Step)
    requires !TableStep(step)
    ensures Apply(env, w, step).db.events.Keys <= w.db.events.Keys
  {
    if HandlerStep(step) {
      HandlerStepsAddNothing(env, w, step);
    } else if ClaimStep(step) {
      ClaimedEvents(env, w, step);
    } else {
      BackgroundEvents(env, w, step);
    }
  }

  lemma HandlerStepsAddNothing(env: Env, w: World, step: Step)
    requires HandlerStep(step)
    ensures ApplyHandler(env, w, step).db.events.Keys <= w.db.events.Keys
  {
    if !step.Begin? { assert Uncounted(w, ApplyHandler(env, w, step)); }
  }
}
