/** Reconciliation under a fixed member set: two full rounds, in any order and mixed
    with any other activity, give every partition to its desired owner; from then on its
    epoch stands still exactly as long as the owner renews before its lease runs out. */
module Convergence {
  import opened Types
  import opened Tables
  import opened Protocol
  import Ownership

  /** Reconciliations come from members only, and see exactly the fixed member set;
      every other kind of step is free, except that nobody shuts down. */
  ghost predicate Fixed(env: Env, w: World, members: set<string>, step: Step) {
    PartitionStep(step) ==>
      step.Reconcile? && step.owner in members && ActiveMembers(w.db, env.cfg(step.owner).staleAfter) == members
  }

  ghost predicate FixedRun(env: Env, w: World, members: set<string>, steps: seq<Step>)
    decreases |steps|
  {
    steps == [] || (Fixed(env, w, members, steps[0]) && FixedRun(env, Apply(env, w, steps[0]), members, steps[1..]))
  }

  /** Every member reconciles at least once. */
  ghost predicate FullRound(members: set<string>, steps: seq<Step>) {
    forall m :: m in members ==> Step.Reconcile(m) in steps
  }

  ghost predicate RealIds(members: set<string>) {
    forall m :: m in members ==> InstanceId(m)
  }

  /** A partition leased to someone outside the member set is past its lease. */
  predicate Lapsed(p: Partition, members: set<string>, now: Time) {
    p.owner.Some? && p.owner.value !in members ==> p.leaseUntil.Some? && p.leaseUntil.value <= now
  }

  /** Free, or already with the desired owner. */
  predicate Cleared(p: Partition, desired: string) {
    p.owner.None? || p.owner == Some(desired)
  }

  ghost function Desired(env: Env, i: nat, members: set<string>): string
    requires members != {}
  {
    Ownership.Winner(env.score, i, members).value
  }

  function Reconciled(env: Env, p: Partition, desired: string, owner: string, now: Time): Partition {
    var c := env.cfg(owner);
    ReconcileRow(p, Some(desired), owner, now, c.orderingLease, c.publishTimeout, c.safetyMargin)
  }

  // ---------------------------------------------------------------- one step on one row

  lemma OtherStepsLeaveRows(env: Env, w: World, step: Step)
    requires !PartitionStep(step)
    ensures var db' := Apply(env, w, step).db; db'.partitions == w.db.partitions && w.db.now <= db'.now
  {}

  lemma ReconcileStepRow(env: Env, w: World, members: set<string>, owner: string, i: nat)
    requires members != {} && RealIds(members) && Fixed(env, w, members, Step.Reconcile(owner)) && i < |w.db.partitions|
    ensures var db' := Apply(env, w, Step.Reconcile(owner)).db;
      && |db'.partitions| == |w.db.partitions| && db'.now == w.db.now
      && db'.partitions[i] == Reconciled(env, w.db.partitions[i], Desired(env, i, members), owner, w.db.now)
  {}

  ghost predicate RowStep(env: Env, w: World, step: Step, i: nat, desired: string, w': World) {
    && i < |w.db.partitions| == |w'.db.partitions| && w.db.now <= w'.db.now
    && (step.Reconcile? ==> w'.db.now == w.db.now)
    && w'.db.partitions[i]
         == if step.Reconcile? then Reconciled(env, w.db.partitions[i], desired, step.owner, w.db.now)
           else w.db.partitions[i]
  }

  lemma StepOnRow(env: Env, w: World, members: set<string>, step: Step, i: nat)
    requires members != {} && RealIds(members) && Fixed(env, w, members, step) && i < |w.db.partitions|
    ensures RowStep(env, w, step, i, Desired(env, i, members), Apply(env, w, step))
  {
    if PartitionStep(step) {
      ReconcileStepRow(env, w, members, step.owner, i);
    } else {
      OtherStepsLeaveRows(env, w, step);
    }
  }

  // ---------------------------------------------------------------- rounds

  lemma {:induction false} ClearedStays(env: Env, w: World, members: set<string>, steps: seq<Step>, i: nat)
    requires members != {} && RealIds(members) && FixedRun(env, w, members, steps) && i < |w.db.partitions|
    requires Cleared(w.db.partitions[i], Desired(env, i, members))
    ensures i < |Exec(env, w, steps).db.partitions|
    ensures var p' := Exec(env, w, steps).db.partitions[i];
      && Cleared(p', Desired(env, i, members))
      && (w.db.partitions[i].owner.Some? || Step.Reconcile(Desired(env, i, members)) in steps ==>
           p'.owner == Some(Desired(env, i, members)))
    decreases |steps|
  {
    if steps != [] {
      StepOnRow(env, w, members, steps[0], i);
      ClearedStays(env, Apply(env, w, steps[0]), members, steps[1..], i);
    }
  }

  /** Whoever can clear the row: its owner if that is a member, else the desired owner. */
  ghost function Clearer(p: Partition, members: set<string>, desired: string): string {
    if p.owner.Some? && p.owner.value in members then p.owner.value else desired
  }

  lemma {:induction false} RoundClears(env: Env, w: World, members: set<string>, steps: seq<Step>, i: nat)
    requires members != {} && RealIds(members) && FixedRun(env, w, members, steps) && i < |w.db.partitions|
    requires Lapsed(w.db.partitions[i], members, w.db.now)
    requires Step.Reconcile(Clearer(w.db.partitions[i], members, Desired(env, i, members))) in steps
    ensures i < |Exec(env, w, steps).db.partitions|
    ensures Cleared(Exec(env, w, steps).db.partitions[i], Desired(env, i, members))
    decreases |steps|
  {
    StepOnRow(env, w, members, steps[0], i);
    var w' := Apply(env, w, steps[0]);
    if Cleared(w'.db.partitions[i], Desired(env, i, members)) {
      ClearedStays(env, w', members, steps[1..], i);
    } else {
      RoundClears(env, w', members, steps[1..], i);
    }
  }

  lemma {:induction false} FixedSplits(env: Env, w: World, members: set<string>, first: seq<Step>, second: seq<Step>)
    requires FixedRun(env, w, members, first + second)
    ensures FixedRun(env, w, members, first) && FixedRun(env, Exec(env, w, first), members, second)
    ensures Exec(env, w, first + second) == Exec(env, Exec(env, w, first), second)
    decreases |first|
  {
    if first == [] {
      assert first + second == second;
    } else {
      assert (first + second)[1..] == first[1..] + second;
      FixedSplits(env, Apply(env, w, first[0]), members, first[1..], second);
    }
  }

  /** After two full rounds every partition is owned by its desired owner. */
  lemma TwoRoundsConverge(env: Env, w: World, members: set<string>, first: seq<Step>, second: seq<Step>, i: nat)
    requires members != {} && RealIds(members) && i < |w.db.partitions|
    requires FixedRun(env, w, members, first + second) && FullRound(members, first) && FullRound(members, second)
    requires Lapsed(w.db.partitions[i], members, w.db.now)
    ensures i < |Exec(env, w, first + second).db.partitions|
    ensures Exec(env, w, first + second).db.partitions[i].owner == Ownership.Winner(env.score, i, members)
  {
    FixedSplits(env, w, members, first, second);
    RoundClears(env, w, members, first, i);
    ClearedStays(env, Exec(env, w, first), members, second, i);
  }

  // ---------------------------------------------------------------- renewals

  /** Each reconciliation by the owner comes before the lease left by the previous one ends. */
  ghost predicate Prompt(env: Env, w: World, owner: string, due: Time, steps: seq<Step>)
    decreases |steps|
  {
    steps == [] ||
      var w' := Apply(env, w, steps[0]);
      if steps[0] == Step.Reconcile(owner)
      then w.db.now < due && Prompt(env, w', owner, w.db.now + env.cfg(owner).orderingLease, steps[1..])
      else Prompt(env, w', owner, due, steps[1..])
  }

  lemma {:induction false} EpochsOnlyGrow(env: Env, w: World, members: set<string>, steps: seq<Step>, i: nat)
    requires members != {} && RealIds(members) && FixedRun(env, w, members, steps) && i < |w.db.partitions|
    ensures i < |Exec(env, w, steps).db.partitions|
    ensures w.db.partitions[i].epoch <= Exec(env, w, steps).db.partitions[i].epoch
    decreases |steps|
  {
    if steps != [] {
      StepOnRow(env, w, members, steps[0], i);
      EpochsOnlyGrow(env, Apply(env, w, steps[0]), members, steps[1..], i);
    }
  }

  /** With the desired owner in place, the epoch and barrier stay as they are if the
      owner renews in time, and the epoch moves on if it is ever late. */
  lemma {:induction false} EpochStandsIffRenewalsArePrompt(env: Env, w: World, members: set<string>, steps: seq<Step>,
                                                           i: nat, due: Time)
    requires members != {} && RealIds(members) && FixedRun(env, w, members, steps) && i < |w.db.partitions|
    requires w.db.partitions[i].owner == Some(Desired(env, i, members)) && w.db.partitions[i].leaseUntil == Some(due)
    ensures i < |Exec(env, w, steps).db.partitions|
    ensures var p, p' := w.db.partitions[i], Exec(env, w, steps).db.partitions[i];
      && (p'.epoch == p.epoch <==> Prompt(env, w, p.owner.value, due, steps))
      && (p'.epoch == p.epoch ==> p'.handoff == p.handoff && p'.owner == p.owner)
    decreases |steps|
  {
    if steps != [] {
      var w' := Apply(env, w, steps[0]);
      StepOnRow(env, w, members, steps[0], i);
      EpochsOnlyGrow(env, w', members, steps[1..], i);
      EpochStandsIffRenewalsArePrompt(env, w', members, steps[1..], i, w'.db.partitions[i].leaseUntil.value);
    }
  }
}
