/** What the protocol's own steps and records mean: who may act and who may not, what a claim
    hands to its handler, that the history counts what happened, and what the two timing
    assumptions rule out. */
module StepLaws {
  import opened Types
  import opened Selection
  import opened Tables
  import opened Protocol

  // ---------------------------------------------------------------- claims and handlers

  /** A claim hands each event to a new handler of the caller, which knows the event's place, its
      partition's epoch and the attempts made so far, and has done nothing yet. */
  lemma ClaimsDispatch(env: Env, w: World, owner: string, picks: seq<Id>, i: nat)
    requires forall j :: 0 <= j < |picks| ==> picks[j] in w.db.events
    requires i < |picks|
    ensures var w' := Dispatch(env, w, owner, picks); var e := w.db.events[picks[i]];
      && |w'.handlers| == |w.handlers| + |picks| && w'.handlers[..|w.handlers|] == w.handlers
      && var x := w'.handlers[|w.handlers| + i];
         && x.owner == owner && x.id == picks[i] && x.attempts == e.attempts && x.claimedAt == w.db.now
         && x.alive && x.phase == Claimed && !x.begun && !x.appended
         && x.slot == (if e.key.Some? && e.sequence.Some?
                       then Some(Slot(StreamKey(e.destination, e.key.value), e.sequence.value)) else None)
         && (e.partition.Some? && 0 <= e.partition.value < |w.db.partitions| ==>
               x.partition == e.partition.value && x.epoch == w.db.partitions[e.partition.value].epoch)
  {}

  /** Steps only a handler's own process can take. */
  predicate Acts(step: Step, h: nat) {
    match step
    case Begin(i) => i == h
    case Ack(i) => i == h
    case Fail(i, _) => i == h
    case MarkDelivered(i) => i == h
    case MarkRetry(i, _) => i == h
    case MarkDead(i) => i == h
    case Abandon(i) => i == h
    case _ => false
  }

  /** A handler whose process has died, or that has returned, does nothing more. */
  lemma StoppedHandlersDoNothing(env: Env, w: World, step: Step, h: nat)
    requires Acts(step, h)
    requires h >= |w.handlers| || !w.handlers[h].alive
    ensures ApplyHandler(env, w, step) == w
  {}

  lemma ReturnedHandlersDoNothing(env: Env, w: World, step: Step, h: nat)
    requires Acts(step, h) && h < |w.handlers| && w.handlers[h].phase == Finished
    ensures ApplyHandler(env, w, step) == w
  {
    if step.Abandon? { assert w.handlers[h := w.handlers[h].(phase := Finished)] == w.handlers; }
  }

  /** A crash stops exactly the handlers of one Relay, wherever they are. */
  lemma CrashesStop(w: World, r: string, h: nat)
    requires h < |w.handlers|
    ensures var w' := StepCrash(w, r);
      && w' == w.(handlers := w'.handlers) && |w'.handlers| == |w.handlers|
      && w'.handlers[h] == w.handlers[h].(alive := w.handlers[h].alive && w.handlers[h].owner != r)
  {}

  /** Inside Publish, a handler's call ends acknowledged exactly if its record has landed, or
      fails; outside it returns without a result. */
  lemma CallsEnd(w: World, h: nat, permanent: bool)
    requires Running(w, h)
    ensures var x := w.handlers[h];
      && (x.phase == Publishing && x.appended ==>
            && StepAck(w, h).handlers == w.handlers[h := x.(phase := Acked)]
            && StepAck(w, h).acked == w.acked + {x.id})
      && (x.phase != Publishing || !x.appended ==> StepAck(w, h) == w)
      && (x.phase == Publishing ==>
            StepFail(w, h, permanent) == w.(handlers := w.handlers[h := x.(phase := Failed(permanent))]))
      && (x.phase != Publishing ==> StepFail(w, h, permanent) == w)
      && (x.phase == Publishing ==> StepAbandon(w, h) == w)
      && (x.phase != Publishing ==> StepAbandon(w, h) == w.(handlers := w.handlers[h := x.(phase := Finished)]))
  {}

  /** A record lands in its own stream, at its end, exactly for an attempt that has begun; the
      process need not be alive any more. */
  lemma RecordsLand(w: World, h: nat)
    ensures var w' := StepAppend(w, h);
      && (h >= |w.handlers| || !w.handlers[h].begun ==> w' == w)
      && (h < |w.handlers| && w.handlers[h].begun ==>
            var x := w.handlers[h];
            && w'.handlers == w.handlers[h := x.(appended := true)]
            && w' == w.(handlers := w'.handlers, log := w'.log)
            && (x.slot.None? ==> w'.log == w.log)
            && (x.slot.Some? ==>
                  var k := x.slot.value.stream; var before := if k in w.log then w.log[k] else [];
                  w'.log == w.log[k := before + [Record(x.id, x.slot.value.sequence, h, w.db.now)]]))
  {}

  // ---------------------------------------------------------------- the clock and the switch

  lemma TimePasses(env: Env, w: World, d: nat, paused: bool)
    ensures Apply(env, w, Tick(d)) == w.(db := w.db.(now := w.db.now + d))
    ensures Apply(env, w, SetPaused(paused)) == w.(db := w.db.(paused := paused))
  {}

  // ---------------------------------------------------------------- the history

  /** The step begins an attempt of this event. */
  ghost predicate Begins(env: Env, w: World, step: Step, id: Id) {
    && step.Begin? && step.h < |w.handlers| && w.handlers[step.h].id == id && w.handlers[step.h].phase == Claimed
    && Apply(env, w, step).handlers[step.h].phase == Publishing
  }

  /** The step revives this event. */
  predicate Revives(w: World, step: Step, id: Id) {
    step.RetryDead? && step.id == id && id in w.db.events && w.db.events[id].status == Dead
  }

  ghost function Attempts(env: Env, w: World, steps: seq<Step>, id: Id): nat
    decreases |steps|
  {
    if steps == [] then 0
    else (if Begins(env, w, steps[0], id) then 1 else 0) + Attempts(env, Apply(env, w, steps[0]), steps[1..], id)
  }

  ghost function Revivals(env: Env, w: World, steps: seq<Step>, id: Id): nat
    decreases |steps|
  {
    if steps == [] then 0
    else (if Revives(w, steps[0], id) then 1 else 0) + Revivals(env, Apply(env, w, steps[0]), steps[1..], id)
  }

  lemma BeginCounted(env: Env, w: World, h: nat, id: Id)
    ensures Count(StepBegin(env, w, h).begins, id)
         == Count(w.begins, id) + if Begins(env, w, Step.Begin(h), id) then 1 else 0
  {
    assert Apply(env, w, Step.Begin(h)) == StepBegin(env, w, h);
  }

  lemma HandlersCountNoAttempt(env: Env, w: World, step: Step)
    requires HandlerStep(step) && !step.Begin?
    ensures Apply(env, w, step).begins == w.begins
  {
    var w' := ApplyHandler(env, w, step);
    assert Uncounted(w, w');
    assert Apply(env, w, step) == w';
  }

  lemma OthersCountNoAttempt(env: Env, w: World, step: Step)
    requires !step.Begin?
    ensures Apply(env, w, step).begins == w.begins
  {
    if HandlerStep(step) {
      HandlersCountNoAttempt(env, w, step);
    }
  }

  lemma StepCountsAttempts(env: Env, w: World, step: Step, id: Id)
    ensures Count(Apply(env, w, step).begins, id) == Count(w.begins, id) + if Begins(env, w, step, id) then 1 else 0
  {
    if step.Begin? {
      assert Apply(env, w, step) == StepBegin(env, w, step.h);
      BeginCounted(env, w, step.h, id);
    } else {
      OthersCountNoAttempt(env, w, step);
    }
  }

  lemma RetryDeadCounted(env: Env, w: World, step: Step, id: Id)
    requires step.RetryDead?
    ensures Count(ApplyTable(env, w, step).retries, id) == Count(w.retries, id) + if Revives(w, step, id) then 1 else 0
  {}

  lemma OthersCountNoRevival(env: Env, w: World, step: Step)
    requires !step.RetryDead?
    ensures Apply(env, w, step).retries == w.retries
  {}

  lemma StepCountsRevivals(env: Env, w: World, step: Step, id: Id)
    ensures Count(Apply(env, w, step).retries, id) == Count(w.retries, id) + if Revives(w, step, id) then 1 else 0
  {
    if step.RetryDead? {
      assert Apply(env, w, step) == ApplyTable(env, w, step);
      RetryDeadCounted(env, w, step, id);
    } else {
      OthersCountNoRevival(env, w, step);
    }
  }

  /** The history counts exactly the attempts that began and the revivals that took effect. */
  lemma {:induction false} HistoryCounts(env: Env, w: World, steps: seq<Step>, id: Id)
    ensures var w' := Exec(env, w, steps);
      && Count(w'.begins, id) == Count(w.begins, id) + Attempts(env, w, steps, id)
      && Count(w'.retries, id) == Count(w.retries, id) + Revivals(env, w, steps, id)
    decreases |steps|
  {
    if steps != [] {
      StepCountsAttempts(env, w, steps[0], id);
      StepCountsRevivals(env, w, steps[0], id);
      HistoryCounts(env, Apply(env, w, steps[0]), steps[1..], id);
    }
  }

  // ---------------------------------------------------------------- the assumptions

  /** A handler is live until it returns, or after its process died until its window closes. */
  lemma LiveIff(env: Env, x: Handler, now: Time)
    ensures x.phase == Finished ==> !Live(env, x, now)
    ensures x.alive && x.phase != Finished ==> Live(env, x, now)
    ensures !x.alive ==>
      (Live(env, x, now) <==>
         && x.phase == Publishing
         && now < x.beganAt + env.cfg(x.owner).publishTimeout + env.cfg(x.owner).safetyMargin)
  {}

  /** Timely is broken exactly by a record that lands after its call returned or its window closed. */
  lemma UntimelyIff(env: Env, w: World, step: Step)
    ensures !Timely(env, w, step) <==>
      && step.Append? && step.h < |w.handlers|
      && var x := w.handlers[step.h];
         || x.phase != Publishing
         || x.beganAt + env.cfg(x.owner).publishTimeout + env.cfg(x.owner).safetyMargin <= w.db.now
  {}

  /** Exclusive is broken exactly by an ordered claim of an event that a live handler of the same
      epoch still works on. */
  lemma ReclaimIff(env: Env, w: World, step: Step)
    ensures !Exclusive(env, w, step) <==>
      && step.ClaimOrdered?
      && exists id, h :: Reclaimed(env, w, step, id, h)
  {
    if step.ClaimOrdered? {
      var picks := ClaimedIds(env, w, step.owner, step.limit, step.locked);
      if i, h :| 0 <= i < |picks| && 0 <= h < |w.handlers| && Reclaimed(env, w, step, picks[i], h) {
        assert !Exclusive(env, w, step);
      }
      if !Exclusive(env, w, step) {
        var i, h :| 0 <= i < |picks| && 0 <= h < |w.handlers|
                    && w.handlers[h].slot.Some? && w.handlers[h].id == picks[i]
                    && w.handlers[h].epoch == NewHandler(w.db, step.owner, picks[i]).epoch
                    && Live(env, w.handlers[h], w.db.now);
        assert Reclaimed(env, w, step, picks[i], h);
      }
    }
  }

  ghost predicate Reclaimed(env: Env, w: World, step: Step, id: Id, h: int) {
    && step.ClaimOrdered? && id in ClaimedIds(env, w, step.owner, step.limit, step.locked)
    && 0 <= h < |w.handlers| && w.handlers[h].id == id && w.handlers[h].slot.Some?
    && w.handlers[h].epoch == NewHandler(w.db, step.owner, id).epoch && Live(env, w.handlers[h], w.db.now)
  }
}
