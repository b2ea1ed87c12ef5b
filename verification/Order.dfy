/** The ordering guarantee: no stale copy of a sequence reaches the broker after a
    later sequence of the same stream. It rests on two assumptions the code does not
    enforce by itself: the broker accepts a record only inside its attempt's window and
    before the Publish call returns (Timely), and an event is not reclaimed within one epoch while an earlier handler
    is live (Exclusive). */
module Order {
  import opened Types
  import opened Selection
  import opened Tables
  import opened Protocol
  import opened Consistency
  import opened Windows

  /** The broker may still accept this attempt's record. */
  predicate MayLand(env: Env, x: Handler, now: Time) {
    x.phase == Publishing && now < WindowEnd(env, x)
  }

  ghost predicate OneLive(env: Env, now: Time, handlers: seq<Handler>) {
    forall a, b :: 0 <= a < b < |handlers| && handlers[a].slot.Some? && handlers[b].slot.Some?
        && handlers[a].id == handlers[b].id && handlers[a].epoch == handlers[b].epoch
      ==> !(Live(env, handlers[a], now) && Live(env, handlers[b], now))
  }

  /** While a record may still land, the cursor has not moved past it. */
  ghost predicate Current(env: Env, now: Time, streams: Streams, handlers: seq<Handler>) {
    forall h :: 0 <= h < |handlers| && handlers[h].slot.Some? && MayLand(env, handlers[h], now) ==>
      handlers[h].slot.value.stream in streams
      && streams[handlers[h].slot.value.stream].next == handlers[h].slot.value.sequence
  }

  predicate Nondecreasing(log: seq<Record>) {
    forall i, j :: 0 <= i < j < |log| ==> log[i].sequence <= log[j].sequence
  }

  ghost predicate InOrder(log: Log) {
    forall k :: k in log ==> Nondecreasing(log[k])
  }

  ghost predicate Orderly(env: Env, w: World) {
    && OneLive(env, w.db.now, w.handlers)
    && Current(env, w.db.now, w.db.streams, w.handlers)
    && InOrder(w.log)
  }

  // ---------------------------------------------------------------- steps that only calm things down

  predicate Calmer(env: Env, x: Handler, now: Time, x': Handler, now': Time) {
    && SameClaim(x, x')
    && (Live(env, x', now') ==> Live(env, x, now))
    && (MayLand(env, x', now') ==> MayLand(env, x, now))
  }

  ghost predicate AllCalmer(env: Env, handlers: seq<Handler>, now: Time, handlers': seq<Handler>, now': Time) {
    && |handlers'| == |handlers|
    && forall h :: 0 <= h < |handlers| ==> Calmer(env, handlers[h], now, handlers'[h], now')
  }

  ghost predicate SameCursors(streams: Streams, streams': Streams) {
    forall k :: k in streams ==> k in streams' && streams'[k].next == streams[k].next
  }

  lemma CalmKeeps(env: Env, w: World, w': World)
    requires Consistent(env, w) && Orderly(env, w)
    requires AllCalmer(env, w.handlers, w.db.now, w'.handlers, w'.db.now)
    requires SameCursors(w.db.streams, w'.db.streams) && w'.log == w.log
    ensures Orderly(env, w')
  {}

  /** A phase that ends, fails or acknowledges an attempt only calms its handler. */
  lemma PhaseIsCalmer(env: Env, handlers: seq<Handler>, now: Time, h: nat, phase: Phase)
    requires h < |handlers| && phase != Publishing
    requires phase == Finished || (handlers[h].alive && handlers[h].phase != Finished)
    ensures AllCalmer(env, handlers, now, handlers[h := handlers[h].(phase := phase)], now)
  {}

  lemma TimeIsCalmer(env: Env, handlers: seq<Handler>, now: Time, now': Time)
    requires now <= now'
    ensures AllCalmer(env, handlers, now, handlers, now')
  {}

  lemma AppendedIsCalmer(env: Env, handlers: seq<Handler>, now: Time, h: nat)
    requires h < |handlers|
    ensures AllCalmer(env, handlers, now, handlers[h := handlers[h].(appended := true)], now)
  {}

  lemma ClockStepOrders(env: Env, w: World, step: Step)
    requires Consistent(env, w) && Orderly(env, w) && ClockStep(step)
    ensures Orderly(env, w.(db := ApplyClock(w.db, step)))
  {}

  lemma PartitionStepOrders(env: Env, w: World, step: Step)
    requires Consistent(env, w) && Orderly(env, w) && PartitionStep(step)
    ensures Orderly(env, w.(db := ApplyPartition(env, w.db, step)))
  {}

  lemma EnqueueCursors(env: Env, w: World, id: Id, event: NewEvent)
    ensures SameCursors(w.db.streams, ApplyTable(env, w, Step.Enqueue(id, event)).db.streams)
  {}

  lemma TableStepOrders(env: Env, w: World, step: Step)
    requires Consistent(env, w) && Orderly(env, w) && TableStep(step)
    ensures Orderly(env, ApplyTable(env, w, step))
  {
    TimeIsCalmer(env, w.handlers, w.db.now, w.db.now);
    if step.Enqueue? { EnqueueCursors(env, w, step.id, step.event); }
    CalmKeeps(env, w, ApplyTable(env, w, step));
  }

  // ---------------------------------------------------------------- claims and attempts

  lemma ClaimStepOrders(env: Env, w: World, step: Step)
    requires Consistent(env, w) && Orderly(env, w) && ClaimStep(step) && Exclusive(env, w, step)
    ensures Orderly(env, Dispatch(env, w, step.owner, Picks(env, w, step)))
  {
    var picks := Picks(env, w, step);
    ClaimOneLive(env, w, step);
    ClaimCurrent(env, w, step.owner, picks);
  }

  lemma ClaimCurrent(env: Env, w: World, owner: string, picks: seq<Id>)
    requires Current(env, w.db.now, w.db.streams, w.handlers)
    requires forall i :: 0 <= i < |picks| ==> picks[i] in w.db.events
    ensures Current(env, w.db.now, w.db.streams, Dispatch(env, w, owner, picks).handlers)
  {}

  lemma NewcomersOneLive(env: Env, now: Time, handlers: seq<Handler>, more: seq<Handler>)
    requires OneLive(env, now, handlers)
    requires forall i, j :: 0 <= i < j < |more| ==> more[i].id != more[j].id
    requires forall i, h :: (0 <= i < |more| && 0 <= h < |handlers| && more[i].slot.Some? && handlers[h].slot.Some?
      && handlers[h].id == more[i].id && handlers[h].epoch == more[i].epoch) ==> !Live(env, handlers[h], now)
    ensures OneLive(env, now, handlers + more)
  {}

  lemma NewcomerAlone(env: Env, w: World, step: Step, i: nat, h: nat)
    requires Consistent(env, w) && ClaimStep(step) && Exclusive(env, w, step) && i < |Picks(env, w, step)|
    requires h < |w.handlers|
    requires var x := NewHandler(w.db, step.owner, Picks(env, w, step)[i]);
      x.slot.Some? && w.handlers[h].slot.Some? && w.handlers[h].id == x.id && w.handlers[h].epoch == x.epoch
    ensures !Live(env, w.handlers[h], w.db.now)
  {
    if step.ClaimUnordered? { FreeClaimsAreUnordered(env, w, step.owner, Picks(env, w, step)[i]); }
  }

  lemma ClaimOneLive(env: Env, w: World, step: Step)
    requires Consistent(env, w) && OneLive(env, w.db.now, w.handlers) && ClaimStep(step) && Exclusive(env, w, step)
    ensures OneLive(env, w.db.now, Dispatch(env, w, step.owner, Picks(env, w, step)).handlers)
  {
    var picks := Picks(env, w, step);
    var more := seq(|picks|, i requires 0 <= i < |picks| => NewHandler(w.db, step.owner, picks[i]));
    forall i, h | 0 <= i < |more| && 0 <= h < |w.handlers| && more[i].slot.Some? && w.handlers[h].slot.Some?
        && w.handlers[h].id == more[i].id && w.handlers[h].epoch == more[i].epoch
      ensures !Live(env, w.handlers[h], w.db.now)
    {
      NewcomerAlone(env, w, step, i, h);
    }
    NewcomersOneLive(env, w.db.now, w.handlers, more);
  }

  lemma FreeClaimsAreUnordered(env: Env, w: World, owner: string, id: Id)
    requires Consistent(env, w) && id in w.db.events && w.db.events[id].key.None?
    ensures NewHandler(w.db, owner, id).slot.None?
  {}

  lemma BeginOrders(env: Env, w: World, h: nat)
    requires ValidEnv(env) && Consistent(env, w) && Separated(env, w) && Orderly(env, w)
    ensures Orderly(env, StepBegin(env, w, h))
  {
    if Running(w, h) && w.handlers[h].phase == Claimed
      && w.handlers[h].attempts < env.cfg(w.handlers[h].owner).maxAttempts {
      if BeginResult(env, w.db, w.handlers[h]).None? {
        PhaseIsCalmer(env, w.handlers, w.db.now, h, Finished);
        CalmKeeps(env, w, SetPhase(w, h, Finished));
      } else {
        if w.handlers[h].slot.Some? { BeginHolds(env, w, h); }
        assert HandlerOk(env, w.db.streams, w.enqueued, w.acked, w.log, w.db.now, w.handlers[h]);
        BegunOrders(env, w, StepBegin(env, w, h), h);
      }
    }
  }

  lemma BegunOrders(env: Env, w: World, w': World, h: nat)
    requires Consistent(env, w) && Orderly(env, w)
    requires w'.db.now == w.db.now && w'.db.streams == w.db.streams && w'.log == w.log
    requires h < |w.handlers| == |w'.handlers| && w.handlers[h].alive && w.handlers[h].phase == Claimed
    requires !w.handlers[h].begun
    requires w'.handlers == w.handlers[h := w'.handlers[h]] && SameClaim(w.handlers[h], w'.handlers[h])
    requires var slot := w.handlers[h].slot;
      slot.Some? ==> slot.value.stream in w.db.streams && w.db.streams[slot.value.stream].next == slot.value.sequence
    ensures Orderly(env, w')
  {}

  // ---------------------------------------------------------------- the broker

  /** A punctual record is never older than what its stream's log already shows. */
  lemma AppendOrders(env: Env, w: World, h: nat)
    requires Consistent(env, w) && Orderly(env, w) && Timely(env, w, Append(h))
    ensures Orderly(env, StepAppend(w, h))
  {
    if h < |w.handlers| && w.handlers[h].begun {
      AppendedIsCalmer(env, w.handlers, w.db.now, h);
      var w' := StepAppend(w, h);
      var calm := w.(handlers := w'.handlers);
      CalmKeeps(env, w, calm);
      if w.handlers[h].slot.Some? {
        AppendInOrder(env, w, h);
      }
    }
  }

  lemma AppendInOrder(env: Env, w: World, h: nat)
    requires Consistent(env, w) && Orderly(env, w) && Timely(env, w, Append(h)) && Appends(w, h)
    ensures InOrder(StepAppend(w, h).log)
  {
    var x := w.handlers[h];
    var k := x.slot.value.stream;
    var log := LogFor(w.log, k);
    assert HandlerOk(env, w.db.streams, w.enqueued, w.acked, w.log, w.db.now, x);
    assert MayLand(env, x, w.db.now);
    GrowsInOrder(w.db.streams[k], log, Record(x.id, x.slot.value.sequence, h, w.db.now));
  }

  lemma GrowsInOrder(s: Stream, log: seq<Record>, r: Record)
    requires LogOk(s, log) && Nondecreasing(log) && r.sequence == s.next
    ensures Nondecreasing(log + [r])
  {
    forall i | 0 <= i < |log| ensures log[i].sequence <= r.sequence {
      LogBounded(s, log, i);
    }
  }

  lemma LogBounded(s: Stream, log: seq<Record>, i: nat)
    requires LogOk(s, log) && i < |log|
    ensures s.start <= log[i].sequence <= s.next
  {
    FirstSeenMembers(log, log[i].sequence);
    InRange(s.start, s.next, log[i].sequence);
    InRange(s.start, s.next + 1, log[i].sequence);
  }

  // ---------------------------------------------------------------- the cursor

  /** When the cursor advances, no other attempt at that sequence can still land: one of
      an earlier epoch is past its window, and one of the same epoch is not live. */
  lemma AdvanceIsSafe(env: Env, w: World, h: nat, a: nat)
    requires Consistent(env, w) && Separated(env, w) && Orderly(env, w) && Advances(w, h)
    requires a < |w.handlers| && a != h && w.handlers[a].slot.Some?
    requires w.handlers[a].slot.value.stream == w.handlers[h].slot.value.stream
    ensures !MayLand(env, w.handlers[a], w.db.now)
  {
    var x, y := w.handlers[h], w.handlers[a];
    if MayLand(env, y, w.db.now) {
      AdvanceEffect(env, w, h);
      assert HandlerOk(env, w.db.streams, w.enqueued, w.acked, w.log, w.db.now, x);
      assert HandlerOk(env, w.db.streams, w.enqueued, w.acked, w.log, w.db.now, y);
      assert y.slot == x.slot && y.id == x.id && y.partition == x.partition;
      AdvanceFence(env, w, h);
      assert y.epoch == x.epoch;
      assert Live(env, x, w.db.now) && Live(env, y, w.db.now);
      assert false;
    }
  }

  lemma AdvanceFence(env: Env, w: World, h: nat)
    requires Consistent(env, w) && Separated(env, w) && Advances(w, h)
    ensures var x := w.handlers[h];
      0 <= x.partition < |w.db.partitions| && Fenced(w.db.partitions[x.partition], x.owner, x.epoch, w.db.now)
  {
    var x := w.handlers[h];
    AdvanceEffect(env, w, h);
    assert HandlerOk(env, w.db.streams, w.enqueued, w.acked, w.log, w.db.now, x);
    assert RowOk(w.db.streams, w.db.events[x.id]);
    assert StreamOk(env, x.slot.value.stream, w.db.streams[x.slot.value.stream]);
  }

  lemma DeliveredOrders(env: Env, w: World, h: nat)
    requires Consistent(env, w) && Separated(env, w) && Orderly(env, w)
    ensures Orderly(env, StepMarkDelivered(w, h))
  {
    if Running(w, h) && w.handlers[h].phase == Acked {
      if Advances(w, h) {
        AdvanceOrders(env, w, h);
      } else {
        NoAdvance(w, h);
        SettleOrders(env, w, StepMarkDelivered(w, h), h);
      }
    }
  }

  lemma AdvanceOrders(env: Env, w: World, h: nat)
    requires Consistent(env, w) && Separated(env, w) && Orderly(env, w) && Advances(w, h)
    ensures Orderly(env, StepMarkDelivered(w, h))
  {
    var slot := w.handlers[h].slot.value;
    forall a | 0 <= a < |w.handlers| && a != h && w.handlers[a].slot.Some?
      && w.handlers[a].slot.value.stream == slot.stream
      ensures !MayLand(env, w.handlers[a], w.db.now)
    {
      AdvanceIsSafe(env, w, h, a);
    }
    var done := SetPhase(w, h, Finished);
    SettleOrders(env, w, done, h);
    AdvanceEffect(env, w, h);
    AdvancedOrders(env, done, StepMarkDelivered(w, h), slot);
  }

  lemma NoAdvance(w: World, h: nat)
    requires Running(w, h) && w.handlers[h].phase == Acked && !Advances(w, h)
    ensures var w' := StepMarkDelivered(w, h);
      && w'.db.streams == w.db.streams && w'.db.now == w.db.now && w'.log == w.log
      && w'.handlers == SetPhase(w, h, Finished).handlers
  {}

  lemma AdvancedOrders(env: Env, w: World, w': World, slot: Slot)
    requires Orderly(env, w) && slot.stream in w.db.streams
    requires w'.db.streams == Advance(w.db.streams, slot)
    requires w'.db.now == w.db.now && w'.log == w.log && w'.handlers == w.handlers
    requires forall a :: (0 <= a < |w.handlers| && w.handlers[a].slot.Some?
      && w.handlers[a].slot.value.stream == slot.stream) ==>
      !MayLand(env, w.handlers[a], w.db.now)
    ensures Orderly(env, w')
  {}

  lemma SettleOrders(env: Env, w: World, w': World, h: nat)
    requires Consistent(env, w) && Orderly(env, w) && h < |w.handlers|
    requires w'.handlers == SetPhase(w, h, Finished).handlers
    requires w'.db.streams == w.db.streams && w'.db.now == w.db.now && w'.log == w.log
    ensures Orderly(env, w')
  {
    PhaseIsCalmer(env, w.handlers, w.db.now, h, Finished);
    CalmKeeps(env, w, w');
  }

  lemma RetryOrders(env: Env, w: World, h: nat, delay: Time)
    requires Consistent(env, w) && Orderly(env, w)
    ensures Orderly(env, StepMarkRetry(env, w, h, delay))
  {
    if Running(w, h) && MayRetry(env, w.handlers[h]) {
      var done := SetPhase(w, h, Finished);
      var result := RetryResult(w.db, w.handlers[h], delay);
      SettleOrders(env, w, if result.None? then done else done.(db := result.value), h);
    }
  }

  lemma DeadOrders(env: Env, w: World, h: nat)
    requires Consistent(env, w) && Orderly(env, w)
    ensures Orderly(env, StepMarkDead(env, w, h))
  {
    if Running(w, h) && MayBury(env, w.handlers[h]) {
      var done := SetPhase(w, h, Finished);
      var result := DeadResult(w.db, w.handlers[h]);
      SettleOrders(env, w, if result.None? then done else done.(db := result.value), h);
    }
  }

  lemma AckOrders(env: Env, w: World, h: nat)
    requires Consistent(env, w) && Orderly(env, w)
    ensures Orderly(env, StepAck(w, h))
  {
    if Running(w, h) && w.handlers[h].phase == Publishing && w.handlers[h].appended {
      PhaseIsCalmer(env, w.handlers, w.db.now, h, Acked);
      CalmKeeps(env, w, StepAck(w, h));
    }
  }

  lemma FailOrders(env: Env, w: World, h: nat, permanent: bool)
    requires Consistent(env, w) && Orderly(env, w)
    ensures Orderly(env, StepFail(w, h, permanent)) && Orderly(env, StepAbandon(w, h))
  {
    if Running(w, h) {
      if w.handlers[h].phase == Publishing {
        PhaseIsCalmer(env, w.handlers, w.db.now, h, Failed(permanent));
        CalmKeeps(env, w, StepFail(w, h, permanent));
      } else {
        SettleOrders(env, w, StepAbandon(w, h), h);
      }
    }
  }

  lemma CrashOrders(env: Env, w: World, owner: string)
    requires Consistent(env, w) && Orderly(env, w)
    ensures Orderly(env, StepCrash(w, owner))
  {}

  lemma HandlerStepOrders(env: Env, w: World, step: Step)
    requires ValidEnv(env) && Consistent(env, w) && Separated(env, w) && Orderly(env, w)
    requires HandlerStep(step) && Timely(env, w, step)
    ensures Orderly(env, ApplyHandler(env, w, step))
  {
    match step
    case Begin(h) => BeginOrders(env, w, h);
    case Append(h) => AppendOrders(env, w, h);
    case Ack(h) => AckOrders(env, w, h);
    case Fail(h, permanent) => FailOrders(env, w, h, permanent);
    case Abandon(h) => FailOrders(env, w, h, false);
    case MarkDelivered(h) => DeliveredOrders(env, w, h);
    case MarkRetry(h, delay) => RetryOrders(env, w, h, delay);
    case MarkDead(h) => DeadOrders(env, w, h);
    case Crash(r) => CrashOrders(env, w, r);
  }

  // ---------------------------------------------------------------- every run

  lemma StepOrders(env: Env, w: World, step: Step)
    requires ValidEnv(env) && Consistent(env, w) && Separated(env, w) && Orderly(env, w)
    requires Timely(env, w, step) && Exclusive(env, w, step)
    ensures Orderly(env, Apply(env, w, step))
  {
    if ClockStep(step) {
      ClockStepOrders(env, w, step);
    } else if PartitionStep(step) {
      PartitionStepOrders(env, w, step);
    } else if TableStep(step) {
      TableStepOrders(env, w, step);
    } else if ClaimStep(step) {
      ClaimStepOrders(env, w, step);
    } else {
      HandlerStepOrders(env, w, step);
    }
  }

  lemma {:induction false} RunOrders(env: Env, w: World, steps: seq<Step>)
    requires ValidEnv(env) && Consistent(env, w) && Separated(env, w) && Orderly(env, w)
    requires Run(env, w, steps, Assumed(true, true))
    ensures var w' := Exec(env, w, steps); Consistent(env, w') && Separated(env, w') && Orderly(env, w')
    decreases |steps|
  {
    if steps != [] {
      StepKeeps(env, w, steps[0]);
      StepSeparates(env, w, steps[0]);
      StepOrders(env, w, steps[0]);
      RunOrders(env, Apply(env, w, steps[0]), steps[1..]);
    }
  }

  lemma ReachableIsOrderly(env: Env, w: World)
    requires ValidEnv(env) && Reachable(env, w, Assumed(true, true))
    ensures Orderly(env, w)
  {
    var start, steps :| Run(env, Init(start), steps, Assumed(true, true)) && w == Exec(env, Init(start), steps);
    InitIsConsistent(env, start);
    InitIsSeparated(env, start);
    InitIsOrderly(env, start);
    RunOrders(env, Init(start), steps);
  }

  lemma InitIsOrderly(env: Env, start: Time)
    ensures Orderly(env, Init(start))
  {}

  /** The main guarantee: through crashes, takeovers, retries and duplicates, every
      ordered stream's broker log is nondecreasing in sequence. */
  lemma OrderedLogsNeverRegress(env: Env, w: World, k: StreamKey)
    requires ValidEnv(env) && Reachable(env, w, Assumed(true, true))
    ensures Nondecreasing(LogOf(w, k))
  {
    ReachableIsOrderly(env, w);
  }

  // ---------------------------------------------------------------- punctual broker

  predicate Punctual(env: Env, handlers: seq<Handler>, r: Record) {
    r.handler < |handlers| && r.at < WindowEnd(env, handlers[r.handler])
  }

  ghost predicate AllPunctual(env: Env, handlers: seq<Handler>, log: Log) {
    forall k, i :: k in log && 0 <= i < |log[k]| ==> Punctual(env, handlers, log[k][i])
  }

  lemma PunctualStays(env: Env, w: World, handlers': seq<Handler>)
    requires Records(w.handlers, w.db.now, w.log) && AllPunctual(env, w.handlers, w.log)
    requires SameClaims(w.handlers, handlers')
    ensures AllPunctual(env, handlers', w.log)
  {}

  lemma HandlerStepPunctual(env: Env, w: World, step: Step)
    requires Consistent(env, w) && AllPunctual(env, w.handlers, w.log) && HandlerStep(step) && Timely(env, w, step)
    ensures var w' := ApplyHandler(env, w, step); AllPunctual(env, w'.handlers, w'.log)
  {
    if step.Append? {
      AppendPunctual(env, w, step.h);
    } else {
      if step.Begin? {
        BeginClaims(env, w, step.h);
      } else {
        HandlerStepUndisturbed(env, w, step);
      }
      PunctualStays(env, w, ApplyHandler(env, w, step).handlers);
    }
  }

  lemma AppendShape(w: World, h: nat)
    requires h < |w.handlers| && w.handlers[h].begun
    ensures var w' := StepAppend(w, h); var x := w.handlers[h];
      && w'.handlers == w.handlers[h := x.(appended := true)]
      && w'.log == if x.slot.None? then w.log
                   else var k := x.slot.value.stream;
                        w.log[k := LogFor(w.log, k) + [Record(x.id, x.slot.value.sequence, h, w.db.now)]]
  {}

  lemma AppendPunctual(env: Env, w: World, h: nat)
    requires Consistent(env, w) && AllPunctual(env, w.handlers, w.log) && Timely(env, w, Append(h))
    ensures AllPunctual(env, StepAppend(w, h).handlers, StepAppend(w, h).log)
  {
    if h < |w.handlers| && w.handlers[h].begun {
      AppendShape(w, h);
      AppendedPunctual(env, w, h, w.handlers[h := w.handlers[h].(appended := true)]);
    }
  }

  lemma AppendedPunctual(env: Env, w: World, h: nat, handlers': seq<Handler>)
    requires Consistent(env, w) && AllPunctual(env, w.handlers, w.log) && h < |w.handlers|
    requires handlers' == w.handlers[h := w.handlers[h].(appended := true)] && w.db.now < WindowEnd(env, w.handlers[h])
    ensures AllPunctual(env, handlers', w.log)
    ensures forall k, r: Record :: r.handler == h && r.at == w.db.now ==>
      AllPunctual(env, handlers', w.log[k := LogFor(w.log, k) + [r]])
  {}

  lemma StepPunctual(env: Env, w: World, step: Step)
    requires Consistent(env, w) && AllPunctual(env, w.handlers, w.log) && Timely(env, w, step)
    ensures var w' := Apply(env, w, step); AllPunctual(env, w'.handlers, w'.log)
  {
    if ClaimStep(step) {
      ClaimPunctual(env, w, step.owner, Picks(env, w, step));
    } else if HandlerStep(step) {
      HandlerStepPunctual(env, w, step);
    }
  }

  lemma ClaimPunctual(env: Env, w: World, owner: string, picks: seq<Id>)
    requires Consistent(env, w) && AllPunctual(env, w.handlers, w.log)
    requires forall i :: 0 <= i < |picks| ==> picks[i] in w.db.events
    ensures var w' := Dispatch(env, w, owner, picks); AllPunctual(env, w'.handlers, w'.log)
  {}

  lemma {:induction false} RunPunctual(env: Env, w: World, steps: seq<Step>)
    requires ValidEnv(env) && Consistent(env, w) && Separated(env, w) && AllPunctual(env, w.handlers, w.log)
    requires Run(env, w, steps, Assumed(true, false))
    ensures var w' := Exec(env, w, steps);
      Consistent(env, w') && Separated(env, w') && AllPunctual(env, w'.handlers, w'.log)
    decreases |steps|
  {
    if steps != [] {
      StepKeeps(env, w, steps[0]);
      StepSeparates(env, w, steps[0]);
      StepPunctual(env, w, steps[0]);
      RunPunctual(env, Apply(env, w, steps[0]), steps[1..]);
    }
  }

  /** Under Timely alone: every record of an earlier epoch was accepted before a later
      epoch of the partition claimed anything. */
  lemma EpochsPublishInTurn(env: Env, w: World, k: StreamKey, i: nat, b: nat)
    requires ValidEnv(env) && Reachable(env, w, Assumed(true, false))
    requires i < |LogOf(w, k)| && b < |w.handlers| && w.handlers[b].slot.Some?
    requires var a := LogOf(w, k)[i].handler;
      a < |w.handlers| && w.handlers[a].partition == w.handlers[b].partition
        && w.handlers[a].epoch < w.handlers[b].epoch
    ensures LogOf(w, k)[i].at < w.handlers[b].claimedAt
  {
    ReachableIsPunctual(env, w);
    var r := w.log[k][i];
    assert RecordOk(w.handlers, w.db.now, k, r) && Punctual(env, w.handlers, r);
  }

  lemma ReachableIsPunctual(env: Env, w: World)
    requires ValidEnv(env) && Reachable(env, w, Assumed(true, false))
    ensures Consistent(env, w) && Separated(env, w) && AllPunctual(env, w.handlers, w.log)
  {
    var start, steps :| Run(env, Init(start), steps, Assumed(true, false)) && w == Exec(env, Init(start), steps);
    InitIsConsistent(env, start);
    InitIsSeparated(env, start);
    RunPunctual(env, Init(start), steps);
  }
}
