/** Publication windows and partition epochs: an attempt's window closes before any
    later epoch of the same partition claims work, however the epoch ended. */
module Windows {
  import opened Types
  import opened Selection
  import opened Tables
  import opened Protocol
  import opened Consistency
  import Ownership

  /** A held partition names a real Relay, remembers that Relay's publish timeout,
      and is never leased further ahead than that Relay's lease duration. */
  predicate PartitionOk(env: Env, now: Time, p: Partition) {
    && p.epoch >= 0
    && (p.owner.Some? <==> p.leaseUntil.Some?)
    && (p.publishMs.Some? ==> p.publishMs.value > 0)
    && (p.owner.Some? ==>
          && InstanceId(p.owner.value)
          && p.publishMs == Some(IntervalMS(env.cfg(p.owner.value).publishTimeout))
          && p.leaseUntil.value <= now + env.cfg(p.owner.value).orderingLease)
  }

  ghost predicate Partitions(env: Env, now: Time, partitions: seq<Partition>) {
    && |partitions| == PARTITION_COUNT
    && forall i :: 0 <= i < |partitions| ==> PartitionOk(env, now, partitions[i])
  }

  /** Where an attempt's window stands against its partition: inside the lease while
      its epoch lasts, and behind the clock or the barrier afterwards. */
  predicate WindowOk(env: Env, now: Time, p: Partition, x: Handler) {
    && x.epoch <= p.epoch
    && (x.begun && x.epoch == p.epoch ==>
          p.owner == Some(x.owner) && p.leaseUntil.Some? && WindowEnd(env, x) <= p.leaseUntil.value)
    && (x.begun && x.epoch < p.epoch ==>
          WindowEnd(env, x) <= now || (p.handoff.Some? && WindowEnd(env, x) <= p.handoff.value))
  }

  ghost predicate InWindows(env: Env, now: Time, partitions: seq<Partition>, handlers: seq<Handler>) {
    forall h :: 0 <= h < |handlers| && handlers[h].slot.Some? ==>
      0 <= handlers[h].partition < |partitions| && WindowOk(env, now, partitions[handlers[h].partition], handlers[h])
  }

  /** Attempts of an earlier epoch are over before a later epoch claims. */
  ghost predicate Apart(env: Env, handlers: seq<Handler>) {
    forall a, b :: 0 <= a < |handlers| && 0 <= b < |handlers| && handlers[a].slot.Some? && handlers[b].slot.Some?
        && handlers[a].partition == handlers[b].partition && handlers[a].begun && handlers[a].epoch < handlers[b].epoch
      ==> WindowEnd(env, handlers[a]) <= handlers[b].claimedAt
  }

  ghost predicate Separated(env: Env, w: World) {
    && Partitions(env, w.db.now, w.db.partitions)
    && InWindows(env, w.db.now, w.db.partitions, w.handlers)
    && Apart(env, w.handlers)
  }

  // ---------------------------------------------------------------- the life of one partition row

  /** Epochs count up and barriers only move later. */
  predicate NeverBack(p: Partition, p': Partition) {
    p.epoch <= p'.epoch && (p.handoff.Some? ==> p'.handoff.Some? && p.handoff.value <= p'.handoff.value)
  }

  lemma ReconcileRowKeeps(env: Env, now: Time, p: Partition, desired: Option<string>, owner: string)
    requires ValidEnv(env) && PartitionOk(env, now, p) && InstanceId(owner)
    ensures var c := env.cfg(owner);
      var p' := ReconcileRow(p, desired, owner, now, c.orderingLease, c.publishTimeout, c.safetyMargin);
      && PartitionOk(env, now, p') && NeverBack(p, p')
      && forall x: Handler :: WindowOk(env, now, p, x) && x.beganAt <= now ==> WindowOk(env, now, p', x)
  {}

  lemma ReleaseRowKeeps(env: Env, now: Time, p: Partition, owner: string)
    requires ValidEnv(env) && PartitionOk(env, now, p)
    ensures var p' := ReleaseRow(p, owner, now, env.cfg(owner).safetyMargin);
      && PartitionOk(env, now, p') && NeverBack(p, p')
      && forall x: Handler :: WindowOk(env, now, p, x) && x.beganAt <= now ==> WindowOk(env, now, p', x)
  {}

  lemma PartitionStepSeparates(env: Env, w: World, step: Step)
    requires ValidEnv(env) && Consistent(env, w) && Separated(env, w) && PartitionStep(step)
    ensures Separated(env, w.(db := ApplyPartition(env, w.db, step)))
  {
    var db' := ApplyPartition(env, w.db, step);
    forall i | 0 <= i < |w.db.partitions|
      ensures PartitionOk(env, w.db.now, db'.partitions[i])
      ensures forall x: Handler :: WindowOk(env, w.db.now, w.db.partitions[i], x) && x.beganAt <= w.db.now
                                   ==> WindowOk(env, w.db.now, db'.partitions[i], x)
    {
      RowStepKeeps(env, w.db, step, i);
    }
    forall h | 0 <= h < |w.handlers| && w.handlers[h].slot.Some?
      ensures WindowOk(env, w.db.now, db'.partitions[w.handlers[h].partition], w.handlers[h])
    {
      assert HandlerOk(env, w.db.streams, w.enqueued, w.acked, w.log, w.db.now, w.handlers[h]);
    }
  }

  lemma RowStepKeeps(env: Env, db: Db, step: Step, i: nat)
    requires ValidEnv(env) && Partitions(env, db.now, db.partitions) && PartitionStep(step) && i < |db.partitions|
    ensures var db' := ApplyPartition(env, db, step);
      && |db'.partitions| == |db.partitions| && db'.now == db.now
      && PartitionOk(env, db.now, db'.partitions[i]) && NeverBack(db.partitions[i], db'.partitions[i])
      && forall x: Handler :: WindowOk(env, db.now, db.partitions[i], x) && x.beganAt <= db.now
                              ==> WindowOk(env, db.now, db'.partitions[i], x)
  {
    if step.Release? {
      ReleaseRowKeeps(env, db.now, db.partitions[i], step.owner);
    } else if InstanceId(step.owner) {
      var desired := Ownership.Winner(env.score, i, ActiveMembers(db, env.cfg(step.owner).staleAfter));
      ReconcileRowKeeps(env, db.now, db.partitions[i], desired, step.owner);
    }
  }

  // ---------------------------------------------------------------- other steps

  /** The same claims and attempts, none of them newly begun. */
  predicate SameAttempt(x: Handler, x': Handler) {
    && SameClaim(x, x') && x'.begun == x.begun && x'.attempts == x.attempts
    && (x'.phase == Publishing ==> x.phase == Publishing)
  }

  ghost predicate Steady(handlers: seq<Handler>, handlers': seq<Handler>) {
    && |handlers'| == |handlers|
    && forall h :: 0 <= h < |handlers| ==> SameAttempt(handlers[h], handlers'[h])
  }

  lemma SteadySet(handlers: seq<Handler>, h: nat, phase: Phase, appended: bool)
    requires h < |handlers| && phase != Publishing
    ensures Steady(handlers, handlers)
    ensures Steady(handlers, handlers[h := handlers[h].(phase := phase)])
    ensures Steady(handlers, handlers[h := handlers[h].(appended := appended)])
  {}

  /** Nothing a window depends on changes except that time may pass. */
  ghost predicate Undisturbed(w: World, w': World) {
    w'.db.partitions == w.db.partitions && w.db.now <= w'.db.now && Steady(w.handlers, w'.handlers)
  }

  lemma UndisturbedSeparates(env: Env, w: World, w': World)
    requires Separated(env, w) && Undisturbed(w, w')
    ensures Separated(env, w')
  {}

  lemma ClockStepUndisturbed(w: World, step: Step)
    requires ClockStep(step)
    ensures Undisturbed(w, w.(db := ApplyClock(w.db, step)))
  {}

  lemma TableStepUndisturbed(env: Env, w: World, step: Step)
    requires TableStep(step)
    ensures Undisturbed(w, ApplyTable(env, w, step))
  {}

  lemma DeliveredUndisturbed(w: World, h: nat)
    ensures Undisturbed(w, StepMarkDelivered(w, h))
  {
    if h < |w.handlers| { SteadySet(w.handlers, h, Finished, true); }
  }

  lemma RetriedUndisturbed(env: Env, w: World, h: nat, delay: Time)
    ensures Undisturbed(w, StepMarkRetry(env, w, h, delay))
  {
    if h < |w.handlers| { SteadySet(w.handlers, h, Finished, true); }
  }

  lemma BuriedUndisturbed(env: Env, w: World, h: nat)
    ensures Undisturbed(w, StepMarkDead(env, w, h))
  {
    if h < |w.handlers| { SteadySet(w.handlers, h, Finished, true); }
  }

  lemma PublishUndisturbed(w: World, h: nat)
    ensures Undisturbed(w, StepAppend(w, h)) && Undisturbed(w, StepAck(w, h))
  {
    if h < |w.handlers| { SteadySet(w.handlers, h, Acked, true); }
  }

  lemma ReturnUndisturbed(w: World, h: nat, permanent: bool)
    ensures Undisturbed(w, StepFail(w, h, permanent)) && Undisturbed(w, StepAbandon(w, h))
  {
    if h < |w.handlers| {
      SteadySet(w.handlers, h, Failed(permanent), true);
      SteadySet(w.handlers, h, Finished, true);
    }
  }

  lemma HandlerStepUndisturbed(env: Env, w: World, step: Step)
    requires HandlerStep(step) && !step.Begin?
    ensures Undisturbed(w, ApplyHandler(env, w, step))
  {
    match step
    case Append(h) => PublishUndisturbed(w, h);
    case Ack(h) => PublishUndisturbed(w, h);
    case Fail(h, permanent) => ReturnUndisturbed(w, h, permanent);
    case Abandon(h) => ReturnUndisturbed(w, h, false);
    case MarkDelivered(h) => DeliveredUndisturbed(w, h);
    case MarkRetry(h, delay) => RetriedUndisturbed(env, w, h, delay);
    case MarkDead(h) => BuriedUndisturbed(env, w, h);
    case Crash(_) =>
  }

  lemma BeginClaims(env: Env, w: World, h: nat)
    requires Consistent(env, w)
    ensures SameClaims(w.handlers, StepBegin(env, w, h).handlers)
  {
    if h < |w.handlers| {
      assert HandlerOk(env, w.db.streams, w.enqueued, w.acked, w.log, w.db.now, w.handlers[h]);
    }
  }

  /** The attempt fence covers the whole window with partition lease. */
  lemma BeginSeparates(env: Env, w: World, h: nat)
    requires ValidEnv(env) && Consistent(env, w) && Separated(env, w)
    ensures Separated(env, StepBegin(env, w, h))
  {
    if Running(w, h) && w.handlers[h].phase == Claimed
      && w.handlers[h].attempts < env.cfg(w.handlers[h].owner).maxAttempts {
      var x := w.handlers[h];
      if BeginResult(env, w.db, x).None? || x.slot.None? {
        BeginUnfenced(env, w, h);
      } else {
        BeginHolds(env, w, h);
        BegunSeparates(env, w, StepBegin(env, w, h), h);
      }
    }
  }

  lemma BeginUnfenced(env: Env, w: World, h: nat)
    requires Separated(env, w) && Running(w, h) && w.handlers[h].phase == Claimed
    requires w.handlers[h].attempts < env.cfg(w.handlers[h].owner).maxAttempts
    requires BeginResult(env, w.db, w.handlers[h]).None? || w.handlers[h].slot.None?
    ensures Separated(env, StepBegin(env, w, h))
  {
    if BeginResult(env, w.db, w.handlers[h]).None? {
      UndisturbedSeparates(env, w, SetPhase(w, h, Finished));
    } else {
      UnorderedSeparates(env, w, StepBegin(env, w, h), h);
    }
  }

  lemma UnorderedSeparates(env: Env, w: World, w': World, h: nat)
    requires Separated(env, w) && h < |w.handlers| == |w'.handlers|
    requires w'.handlers == w.handlers[h := w'.handlers[h]] && w'.handlers[h].slot.None?
    requires w'.db.partitions == w.db.partitions && w'.db.now == w.db.now
    ensures Separated(env, w')
  {}

  lemma BeginHolds(env: Env, w: World, h: nat)
    requires ValidEnv(env) && Consistent(env, w) && Separated(env, w)
    requires Running(w, h) && w.handlers[h].slot.Some? && BeginResult(env, w.db, w.handlers[h]).Some?
    ensures var x := w.handlers[h];
      && 0 <= x.partition < |w.db.partitions|
      && w.db.partitions[x.partition].epoch == x.epoch
      && Held(w.db.partitions[x.partition], x.owner, w.db.now, env.cfg(x.owner).PublishWindow())
      && x.id in w.db.events && SlotOf(w.db.events[x.id]) == x.slot && w.db.events[x.id].status == Inflight
      && w.db.streams[x.slot.value.stream].next == x.slot.value.sequence
  {}

  lemma BegunSeparates(env: Env, w: World, w': World, h: nat)
    requires ValidEnv(env) && Separated(env, w) && h < |w.handlers|
    requires w'.db.partitions == w.db.partitions && w'.db.now == w.db.now
    requires var x := w.handlers[h];
      && x.slot.Some? && 0 <= x.partition < |w.db.partitions| && !x.begun
      && w.db.partitions[x.partition].epoch == x.epoch
      && Held(w.db.partitions[x.partition], x.owner, w.db.now, env.cfg(x.owner).PublishWindow())
      && |w'.handlers| == |w.handlers| && w'.handlers == w.handlers[h := w'.handlers[h]]
      && SameClaim(x, w'.handlers[h]) && w'.handlers[h].begun && w'.handlers[h].beganAt == w.db.now
    ensures Separated(env, w')
  {}

  lemma ClaimSeparates(env: Env, w: World, owner: string, picks: seq<Id>)
    requires Consistent(env, w) && Separated(env, w)
    requires forall i :: 0 <= i < |picks| ==> picks[i] in w.db.events
    requires forall i :: 0 <= i < |picks| && SlotOf(w.db.events[picks[i]]).Some? ==>
      && PartitionOf(w.db, w.db.events[picks[i]]).Some?
      && HandoffPassed(PartitionOf(w.db, w.db.events[picks[i]]).value, w.db.now)
    ensures Separated(env, Dispatch(env, w, owner, picks))
  {
    var more := seq(|picks|, i requires 0 <= i < |picks| => NewHandler(w.db, owner, picks[i]));
    forall i | 0 <= i < |more| ensures NewcomerOk(w.db.now, w.db.partitions, more[i]) {
      assert more[i] == NewHandler(w.db, owner, picks[i]);
    }
    NewcomersInWindows(env, w.db.now, w.db.partitions, w.handlers, more);
    NewcomersApart(env, w.db.now, w.db.partitions, w.handlers, more);
  }

  /** A claim just made, under the epoch of a partition whose barrier has passed. */
  predicate NewcomerOk(now: Time, partitions: seq<Partition>, x: Handler) {
    x.slot.Some? ==>
      && !x.begun && x.claimedAt == now && 0 <= x.partition < |partitions|
      && x.epoch == partitions[x.partition].epoch && HandoffPassed(partitions[x.partition], now)
  }

  lemma NewcomersInWindows(env: Env, now: Time, partitions: seq<Partition>, handlers: seq<Handler>, more: seq<Handler>)
    requires InWindows(env, now, partitions, handlers)
    requires forall i :: 0 <= i < |more| ==> NewcomerOk(now, partitions, more[i])
    ensures InWindows(env, now, partitions, handlers + more)
  {}

  lemma NewcomersApart(env: Env, now: Time, partitions: seq<Partition>, handlers: seq<Handler>, more: seq<Handler>)
    requires InWindows(env, now, partitions, handlers) && Apart(env, handlers)
    requires forall i :: 0 <= i < |more| ==> NewcomerOk(now, partitions, more[i])
    ensures Apart(env, handlers + more)
  {}

  lemma StepSeparates(env: Env, w: World, step: Step)
    requires ValidEnv(env) && Consistent(env, w) && Separated(env, w)
    ensures Separated(env, Apply(env, w, step))
  {
    if ClockStep(step) {
      ClockStepUndisturbed(w, step);
      UndisturbedSeparates(env, w, w.(db := ApplyClock(w.db, step)));
    } else if PartitionStep(step) {
      PartitionStepSeparates(env, w, step);
    } else if TableStep(step) {
      TableStepUndisturbed(env, w, step);
      UndisturbedSeparates(env, w, ApplyTable(env, w, step));
    } else if ClaimStep(step) {
      ClaimSeparates(env, w, step.owner, Picks(env, w, step));
    } else {
      HandlerStepSeparates(env, w, step);
    }
  }

  lemma HandlerStepSeparates(env: Env, w: World, step: Step)
    requires ValidEnv(env) && Consistent(env, w) && Separated(env, w) && HandlerStep(step)
    ensures Separated(env, ApplyHandler(env, w, step))
  {
    if step.Begin? {
      BeginSeparates(env, w, step.h);
    } else {
      HandlerStepUndisturbed(env, w, step);
      UndisturbedSeparates(env, w, ApplyHandler(env, w, step));
    }
  }

  lemma {:induction false} RunSeparates(env: Env, w: World, steps: seq<Step>, a: Assumed)
    requires ValidEnv(env) && Consistent(env, w) && Separated(env, w) && Run(env, w, steps, a)
    ensures Consistent(env, Exec(env, w, steps)) && Separated(env, Exec(env, w, steps))
    decreases |steps|
  {
    if steps != [] {
      StepKeeps(env, w, steps[0]);
      StepSeparates(env, w, steps[0]);
      RunSeparates(env, Apply(env, w, steps[0]), steps[1..], a);
    }
  }

  lemma InitIsSeparated(env: Env, now: Time)
    ensures Separated(env, Init(now))
  {}

  lemma ReachableIsSound(env: Env, w: World, a: Assumed)
    requires ValidEnv(env) && Reachable(env, w, a)
    ensures Consistent(env, w) && Separated(env, w)
  {
    var start, steps :| Run(env, Init(start), steps, a) && w == Exec(env, Init(start), steps);
    InitIsConsistent(env, start);
    InitIsSeparated(env, start);
    RunSeparates(env, Init(start), steps, a);
  }

  /** In every run, with any valid configurations, crashes, releases and takeovers: an
      attempt begun under one epoch of a partition has its whole window behind it
      when a later epoch of that partition claims or begins anything. */
  lemma EpochWindowsNeverOverlap(env: Env, w: World, a: nat, b: nat)
    requires ValidEnv(env) && Reachable(env, w, Assumed(false, false))
    requires a < |w.handlers| && b < |w.handlers| && w.handlers[a].slot.Some? && w.handlers[b].slot.Some?
    requires w.handlers[a].partition == w.handlers[b].partition && w.handlers[a].begun
    requires w.handlers[a].epoch < w.handlers[b].epoch
    ensures WindowEnd(env, w.handlers[a]) <= w.handlers[b].claimedAt <= w.handlers[b].beganAt
  {
    ReachableIsSound(env, w, Assumed(false, false));
    assert HandlerOk(env, w.db.streams, w.enqueued, w.acked, w.log, w.db.now, w.handlers[b]);
  }

  /** Along every run each partition's epoch and barrier only grow. */
  lemma {:induction false} EpochsAndBarriersNeverGoBack(env: Env, w: World, steps: seq<Step>, a: Assumed, i: nat)
    requires ValidEnv(env) && Consistent(env, w) && Separated(env, w) && Run(env, w, steps, a) && i < PARTITION_COUNT
    ensures Separated(env, Exec(env, w, steps))
    ensures NeverBack(w.db.partitions[i], Exec(env, w, steps).db.partitions[i])
    decreases |steps|
  {
    if steps != [] {
      var w' := Apply(env, w, steps[0]);
      StepKeeps(env, w, steps[0]);
      StepSeparates(env, w, steps[0]);
      StepNeverBack(env, w, steps[0], i);
      EpochsAndBarriersNeverGoBack(env, w', steps[1..], a, i);
    }
  }

  lemma StepNeverBack(env: Env, w: World, step: Step, i: nat)
    requires ValidEnv(env) && Partitions(env, w.db.now, w.db.partitions) && i < PARTITION_COUNT
    ensures |Apply(env, w, step).db.partitions| == PARTITION_COUNT
    ensures NeverBack(w.db.partitions[i], Apply(env, w, step).db.partitions[i])
  {
    if PartitionStep(step) {
      RowStepKeeps(env, w.db, step, i);
    }
  }
}
