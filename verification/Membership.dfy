/** Who holds the partitions as Relays come and go: what one reconciliation does to a row,
    what a Relay that has stopped can never gain, and what the last one running takes. */
module Membership {
  import opened Types
  import opened Selection
  import opened Tables
  import opened Protocol
  import Ownership

  /** A Relay takes part exactly while it is capable, has not stopped, and was seen recently. */
  lemma MemberIff(db: Db, staleAfter: Time, r: string)
    ensures r in ActiveMembers(db, staleAfter) <==>
      && r in db.relays && db.relays[r].capable && !db.relays[r].stopped
      && db.now - Whole(staleAfter) <= db.relays[r].heartbeat
  {}

  // ---------------------------------------------------------------- one row

  /** No earlier than the old barrier and than the end of anything published by now. */
  function BarrierAfter(p: Partition, now: Time, margin: Time): Time {
    var open := now + margin + if p.publishMs.Some? then p.publishMs.value * MILLISECOND else 0;
    if p.handoff.Some? then Max(p.handoff.value, open) else open
  }

  /** The owner gives up what it should not hold, extends what it holds, takes what is free or
      lapsed if it should hold it, and leaves everything else alone. */
  lemma ReconcileRowCases(p: Partition, desired: Option<string>, r: string, now: Time, lease: Time, publish: Time,
                          margin: Time)
    ensures var p' := ReconcileRow(p, desired, r, now, lease, publish, margin);
      var mine, wanted := p.owner == Some(r), desired == Some(r);
      var lapsed := p.leaseUntil.Some? && p.leaseUntil.value <= now;
      var runs := p.leaseUntil.Some? && now < p.leaseUntil.value;
      && (mine && !wanted ==>
            p' == Partition(None, None, p.epoch + 1, Some(BarrierAfter(p, now, margin)), p.publishMs))
      && (mine && wanted && runs ==>
            p' == Partition(Some(r), Some(now + lease), p.epoch, p.handoff, Some(IntervalMS(publish))))
      && (wanted && p.owner.None? ==>
            p' == Partition(Some(r), Some(now + lease), p.epoch + 1, p.handoff, Some(IntervalMS(publish))))
      && (wanted && p.owner.Some? && lapsed ==>
            p' == Partition(Some(r), Some(now + lease), p.epoch + 1, Some(BarrierAfter(p, now, margin)),
                            Some(IntervalMS(publish))))
      && (!mine && !wanted ==> p' == p)
      && (wanted && p.owner.Some? && !mine && !lapsed ==> p' == p)
      && (wanted && mine && p.leaseUntil.None? ==> p' == p)
  {}

  /** A shutdown frees exactly the owner's rows, behind barriers from their own publish times. */
  lemma ReleaseRowCases(p: Partition, r: string, now: Time, margin: Time)
    ensures var p' := ReleaseRow(p, r, now, margin);
      if p.owner == Some(r)
      then p' == Partition(None, None, p.epoch + 1, Some(BarrierAfter(p, now, Whole(margin))), p.publishMs)
      else p' == p
  {}

  /** A shutdown does so to every row, and to nothing else. */
  lemma ReleaseFreesAll(db: Db, r: string, margin: Time, i: nat)
    requires i < |db.partitions|
    ensures var db' := Tables.Release(db, r, margin); var p := db.partitions[i];
      && db' == db.(partitions := db'.partitions) && |db'.partitions| == |db.partitions|
      && db'.partitions[i]
           == if p.owner == Some(r)
              then Partition(None, None, p.epoch + 1, Some(BarrierAfter(p, db.now, Whole(margin))), p.publishMs)
              else p
  {
    ReleaseRowCases(db.partitions[i], r, db.now, margin);
  }

  // ---------------------------------------------------------------- a Relay that has stopped

  predicate Gone(db: Db, r: string) {
    r in db.relays ==> db.relays[r].stopped
  }

  predicate Returns(step: Step, r: string) {
    (step.Register? && step.instance == r) || (step.Heartbeat? && step.instance == r)
  }

  ghost predicate StaysAway(steps: seq<Step>, r: string) {
    forall i :: 0 <= i < |steps| ==> !Returns(steps[i], r)
  }

  lemma StoppingIsGoing(db: Db, r: string)
    ensures Gone(ApplyClock(db, Step.Stop(r)), r)
  {}

  lemma GoneIsUnwanted(env: Env, db: Db, r: string, i: nat, staleAfter: Time)
    requires Gone(db, r)
    ensures Ownership.Winner(env.score, i, ActiveMembers(db, staleAfter)) != Some(r)
  {
    MemberIff(db, staleAfter, r);
  }

  lemma StepStaysGone(env: Env, w: World, step: Step, r: string)
    requires Gone(w.db, r) && !Returns(step, r)
    ensures Gone(Apply(env, w, step).db, r)
  {
    if !ClockStep(step) { PresenceStands(env, w, step); }
  }

  lemma PresenceStands(env: Env, w: World, step: Step)
    requires !ClockStep(step)
    ensures Apply(env, w, step).db.relays == w.db.relays
  {}

  lemma OnlyPartitionStepsMoveRows(env: Env, w: World, step: Step)
    requires !PartitionStep(step)
    ensures Apply(env, w, step).db.partitions == w.db.partitions
  {}

  /** What is Relay r's after a step was exactly so before it. */
  predicate NothingGained(partitions: seq<Partition>, partitions': seq<Partition>, r: string) {
    && |partitions'| == |partitions|
    && forall i :: 0 <= i < |partitions| && partitions'[i].owner == Some(r) ==> partitions'[i] == partitions[i]
  }

  lemma PartitionStepGainsNothing(env: Env, w: World, step: Step, r: string)
    requires Gone(w.db, r) && PartitionStep(step)
    ensures NothingGained(w.db.partitions, ApplyPartition(env, w.db, step).partitions, r)
  {
    forall i: nat | i < |w.db.partitions| { GoneIsUnwanted(env, w.db, r, i, env.cfg(step.owner).staleAfter); }
  }

  lemma StepGainsNothing(env: Env, w: World, step: Step, r: string)
    requires Gone(w.db, r)
    ensures NothingGained(w.db.partitions, Apply(env, w, step).db.partitions, r)
  {
    if PartitionStep(step) {
      PartitionStepGainsNothing(env, w, step, r);
    } else {
      OnlyPartitionStepsMoveRows(env, w, step);
    }
  }

  /** From its stop until it registers or shows itself again, a Relay is wanted for no
      partition by anyone, and no run acquires or renews one for it. */
  lemma {:induction false} StoppedRelaysGainNothing(env: Env, w: World, steps: seq<Step>, r: string)
    requires Gone(w.db, r) && StaysAway(steps, r)
    ensures Gone(Exec(env, w, steps).db, r)
    ensures NothingGained(w.db.partitions, Exec(env, w, steps).db.partitions, r)
    ensures forall i: nat, staleAfter ::
      Ownership.Winner(env.score, i, ActiveMembers(Exec(env, w, steps).db, staleAfter)) != Some(r)
    decreases |steps|
  {
    if steps == [] {
      forall i: nat, staleAfter
        ensures Ownership.Winner(env.score, i, ActiveMembers(w.db, staleAfter)) != Some(r)
      {
        GoneIsUnwanted(env, w.db, r, i, staleAfter);
      }
    } else {
      StepStaysGone(env, w, steps[0], r);
      StepGainsNothing(env, w, steps[0], r);
      StoppedRelaysGainNothing(env, Apply(env, w, steps[0]), steps[1..], r);
    }
  }

  /** A reconciliation of its own makes a stopped Relay give up all it still holds. */
  lemma StoppedRelaysLetGo(env: Env, w: World, r: string, i: nat)
    requires Gone(w.db, r) && InstanceId(r) && i < |w.db.partitions|
    ensures Apply(env, w, Step.Reconcile(r)).db.partitions[i].owner != Some(r)
  {
    GoneIsUnwanted(env, w.db, r, i, env.cfg(r).staleAfter);
    assert Apply(env, w, Step.Reconcile(r)).db == ApplyPartition(env, w.db, Step.Reconcile(r));
  }

  // ---------------------------------------------------------------- the last Relay running

  predicate Available(db: Db, r: string, staleAfter: Time) {
    && r in db.relays && db.relays[r].capable && !db.relays[r].stopped
    && db.relays[r].heartbeat + Whole(staleAfter) >= db.now
  }

  lemma LastIsWanted(env: Env, db: Db, r: string, i: nat)
    requires Available(db, r, env.cfg(r).staleAfter)
    requires forall s :: s in db.relays && s != r ==> !Available(db, s, env.cfg(r).staleAfter)
    ensures Ownership.Winner(env.score, i, ActiveMembers(db, env.cfg(r).staleAfter)) == Some(r)
  {
    var members := ActiveMembers(db, env.cfg(r).staleAfter);
    forall s ensures s in members <==> s == r { MemberIff(db, env.cfg(r).staleAfter, s); }
    assert r in members;
  }

  /** When every other Relay has stopped, gone stale or cannot order, one reconciliation of the
      Relay that is left takes every free or lapsed partition and keeps every one it holds. */
  lemma LastRelayTakesOver(env: Env, w: World, r: string, i: nat)
    requires InstanceId(r) && Available(w.db, r, env.cfg(r).staleAfter) && i < |w.db.partitions|
    requires forall s :: s in w.db.relays && s != r ==> !Available(w.db, s, env.cfg(r).staleAfter)
    ensures var p, p' := w.db.partitions[i], Apply(env, w, Step.Reconcile(r)).db.partitions[i];
      var until := Some(w.db.now + env.cfg(r).orderingLease);
      && (p.owner.None? || (p.leaseUntil.Some? && p.leaseUntil.value <= w.db.now) ==>
            p'.owner == Some(r) && p'.leaseUntil == until && p'.epoch == p.epoch + 1)
      && (p.owner == Some(r) && p.leaseUntil.Some? && w.db.now < p.leaseUntil.value ==>
            p'.owner == Some(r) && p'.leaseUntil == until && p'.epoch == p.epoch)
      && (p.owner.Some? && p.owner != Some(r) && (p.leaseUntil.None? || w.db.now < p.leaseUntil.value) ==> p' == p)
  {
    LastIsWanted(env, w.db, r, i);
    assert Apply(env, w, Step.Reconcile(r)).db == ApplyPartition(env, w.db, Step.Reconcile(r));
  }
}
