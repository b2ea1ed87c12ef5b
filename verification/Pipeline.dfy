/** From the log to the handlers: a consumer that claims its rows only through its group
    processes the events of a partition in the order they first appear in it. Nothing is
    assumed about time. */
module Pipeline {
  import opened Types
  import opened Selection
  import Inbox
  import opened Consumer

  /** Other parties leave this consumer's rows to its group: they neither claim them nor
      process them unmanaged. They may still renew, retry, bury, revive and commit. */
  predicate Confined(env: Env, step: Step) {
    step.Background? ==>
      && (step.step.TakeClaim? ==> step.step.request.key.consumer != env.consumer)
      && (step.step.Unmanaged? ==> step.step.key.consumer != env.consumer)
  }

  ghost predicate ConfinedReachable(env: Env, g: Group) {
    exists now, size, steps :: AllConfined(env, steps) && g == Exec(env, Init(now, size), steps)
  }

  ghost predicate AllConfined(env: Env, steps: seq<Step>) {
    forall i :: 0 <= i < |steps| ==> Confined(env, steps[i])
  }

  /** Every record of this event lies in this partition. */
  ghost predicate Placed(env: Env, id: Id, tp: TopicPartition) {
    forall at, o: nat :: env.record(at, o) && env.identity(at, o) == Some(id) ==> at == tp
  }

  /** No earlier record of the partition, and no record elsewhere, carries the same event. */
  ghost predicate First(env: Env, tp: TopicPartition, f: nat) {
    && env.record(tp, f)
    && (forall o: nat :: o < f && env.record(tp, o) ==> env.identity(tp, o) != env.identity(tp, f))
    && (env.identity(tp, f).Some? ==> Placed(env, env.identity(tp, f).value, tp))
  }

  /** A record of this event was claimed when everything before it was done. */
  ghost predicate Backed(env: Env, rows: Inbox.Rows, id: Id) {
    exists tp, o: nat :: env.record(tp, o) && env.identity(tp, o) == Some(id) && DoneBelow(env, rows, tp, o)
  }

  ghost predicate ClaimsBacked(env: Env, inbox: Inbox.State) {
    forall t :: 0 <= t < |inbox.claims| && inbox.claims[t].consumer == env.consumer ==>
      Backed(env, inbox.rows, inbox.claims[t].id)
  }

  /** Whatever is done first appeared after things that are done. */
  ghost predicate DoneInOrder(env: Env, rows: Inbox.Rows) {
    forall tp, f: nat :: First(env, tp, f) && Done(env, rows, tp, f) ==> DoneBelow(env, rows, tp, f)
  }

  /** Whatever is processed was a record of some partition. */
  ghost predicate ProcessedBacked(env: Env, rows: Inbox.Rows) {
    forall id :: Inbox.IsProcessed(rows, Inbox.Key(env.consumer, id)) ==> Backed(env, rows, id)
  }

  ghost predicate InboxOrderly(env: Env, inbox: Inbox.State) {
    ClaimsBacked(env, inbox) && ProcessedBacked(env, inbox.rows) && DoneInOrder(env, inbox.rows)
  }

  ghost predicate Orderly(env: Env, g: Group) {
    GroupOk(env, g) && InboxOrderly(env, g.inbox)
  }

  // ---------------------------------------------------------------- one Inbox step

  /** Only a commit or an unmanaged call makes a row processed. */
  lemma NewlyProcessed(inbox: Inbox.State, step: Inbox.Step, key: Inbox.Key)
    requires !Inbox.IsProcessed(inbox.rows, key) && Inbox.IsProcessed(Inbox.Apply(inbox, step).rows, key)
    ensures (step.Commit? && step.token < |inbox.claims| && inbox.claims[step.token] == key)
      || (step.Unmanaged? && step.key == key)
  {}

  lemma NewClaims(inbox: Inbox.State, step: Inbox.Step)
    ensures var claims := Inbox.Apply(inbox, step).claims;
      claims == inbox.claims || (step.TakeClaim? && claims == inbox.claims + [step.request.key])
  {}

  lemma BackedStays(env: Env, rows: Inbox.Rows, rows': Inbox.Rows, id: Id)
    requires Backed(env, rows, id) && forall key :: Inbox.IsProcessed(rows, key) ==> Inbox.IsProcessed(rows', key)
    ensures Backed(env, rows', id)
  {
    var tp, o: nat :| env.record(tp, o) && env.identity(tp, o) == Some(id) && DoneBelow(env, rows, tp, o);
    assert DoneBelow(env, rows', tp, o);
  }

  /** What a step adds to the claims, if it adds this consumer's, is backed. */
  ghost predicate ClaimBacked(env: Env, inbox: Inbox.State, step: Inbox.Step) {
    step.TakeClaim? && step.request.key.consumer == env.consumer ==> Backed(env, inbox.rows, step.request.key.id)
  }

  lemma InboxStepOrders(env: Env, inbox: Inbox.State, step: Inbox.Step)
    requires Inbox.Sound(inbox) && InboxOrderly(env, inbox)
    requires ClaimBacked(env, inbox, step) && (step.Unmanaged? ==> step.key.consumer != env.consumer)
    ensures InboxOrderly(env, Inbox.Apply(inbox, step))
  {
    var inbox' := Inbox.Apply(inbox, step);
    InboxMovesOn(inbox, step);
    NewClaims(inbox, step);
    forall t | 0 <= t < |inbox'.claims| && inbox'.claims[t].consumer == env.consumer
      ensures Backed(env, inbox'.rows, inbox'.claims[t].id)
    {
      BackedStays(env, inbox.rows, inbox'.rows, inbox'.claims[t].id);
    }
    forall id | Inbox.IsProcessed(inbox'.rows, Inbox.Key(env.consumer, id)) ensures Backed(env, inbox'.rows, id) {
      if !Inbox.IsProcessed(inbox.rows, Inbox.Key(env.consumer, id)) {
        NewlyProcessed(inbox, step, Inbox.Key(env.consumer, id));
      }
      BackedStays(env, inbox.rows, inbox'.rows, id);
    }
    forall tp, f: nat | First(env, tp, f) && Done(env, inbox'.rows, tp, f) ensures DoneBelow(env, inbox'.rows, tp, f) {
      if !Done(env, inbox.rows, tp, f) { CommitInOrder(env, inbox, step, tp, f); }
    }
  }

  lemma CommitInOrder(env: Env, inbox: Inbox.State, step: Inbox.Step, tp: TopicPartition, f: nat)
    requires Inbox.Sound(inbox) && ClaimsBacked(env, inbox) && First(env, tp, f)
    requires step.Unmanaged? ==> step.key.consumer != env.consumer
    requires !Done(env, inbox.rows, tp, f) && Done(env, Inbox.Apply(inbox, step).rows, tp, f)
    ensures DoneBelow(env, Inbox.Apply(inbox, step).rows, tp, f)
  {
    var id := env.identity(tp, f).value;
    NewlyProcessed(inbox, step, Inbox.Key(env.consumer, id));
    var at, o: nat :| env.record(at, o) && env.identity(at, o) == Some(id) && DoneBelow(env, inbox.rows, at, o);
    assert at == tp && f <= o;
    InboxMovesOn(inbox, step);
  }

  // ---------------------------------------------------------------- every step of the group

  lemma PollingOrders(env: Env, g: Group, w: nat, timestamp: Option<Time>, owner: string, lease: Time, reported: bool)
    requires Orderly(env, g) && w < |g.workers|
    ensures Orderly(env, StepClaimRecord(env, g, w, timestamp, owner, lease, reported))
  {
    var g' := StepClaimRecord(env, g, w, timestamp, owner, lease, reported);
    ClaimKeeps(env, g, w, timestamp, owner, lease, reported);
    assert WorkerOk(env, g.inbox, g.workers[w]);
    if g'.inbox != g.inbox {
      var work := g.workers[w].current.value;
      var q := RequestFor(env, work, env.identity(work.tp, work.offset).value, timestamp, owner, lease);
      assert Backed(env, g.inbox.rows, q.key.id);
      InboxStepOrders(env, g.inbox, Inbox.TakeClaim(q));
    }
  }

  lemma StepOrders(env: Env, g: Group, step: Step)
    requires Orderly(env, g) && Confined(env, step)
    ensures Orderly(env, Apply(env, g, step))
  {
    StepKeeps(env, g, step);
    match step {
      case Background(s) => InboxStepOrders(env, g.inbox, s);
      case ClaimRecord(w, timestamp, owner, lease, reported) =>
        if w < |g.workers| { PollingOrders(env, g, w, timestamp, owner, lease, reported); }
      case CommitHandler(w, reported) =>
        if w < |g.workers| { CommittingOrders(env, g, w, reported); }
      case FailHandler(w, permanent, delay) =>
        if w < |g.workers| { FailingOrders(env, g, w, permanent, delay); }
      case _ =>
    }
  }

  lemma CommittingOrders(env: Env, g: Group, w: nat, reported: bool)
    requires Orderly(env, g) && w < |g.workers|
    ensures InboxOrderly(env, StepCommitHandler(g, w, reported).inbox)
  {
    var worker := g.workers[w];
    if worker.current.Some? && worker.current.value.phase.Handling? {
      InboxStepOrders(env, g.inbox, Inbox.Commit(worker.current.value.phase.token));
    }
  }

  lemma FailingOrders(env: Env, g: Group, w: nat, permanent: bool, delay: Time)
    requires Orderly(env, g) && w < |g.workers|
    ensures InboxOrderly(env, StepFailHandler(g, w, permanent, delay).inbox)
  {
    var worker := g.workers[w];
    if worker.current.Some? && worker.current.value.phase.Handling? {
      var t := worker.current.value.phase.token;
      InboxStepOrders(env, g.inbox, if permanent then Inbox.Bury(t) else Inbox.Retry(t, delay));
    }
  }

  lemma {:induction false} RunOrders(env: Env, g: Group, steps: seq<Step>)
    requires Orderly(env, g) && AllConfined(env, steps)
    ensures Orderly(env, Exec(env, g, steps))
    decreases |steps|
  {
    if steps != [] {
      StepOrders(env, g, steps[0]);
      RunOrders(env, Apply(env, g, steps[0]), steps[1..]);
    }
  }

  lemma ReachableIsOrderly(env: Env, g: Group)
    requires ConfinedReachable(env, g)
    ensures Orderly(env, g)
  {
    var now, size, steps :| AllConfined(env, steps) && g == Exec(env, Init(now, size), steps);
    RunOrders(env, Init(now, size), steps);
  }

  /** A partition's events are processed in the order they first appear in it; only the
      later event must have all its records there. */
  lemma EffectsFollowTheLog(env: Env, g: Group, tp: TopicPartition, f: nat, o: nat)
    requires ConfinedReachable(env, g) && First(env, tp, f) && Done(env, g.inbox.rows, tp, f)
    requires o < f && env.record(tp, o)
    ensures Done(env, g.inbox.rows, tp, o)
  {
    ReachableIsOrderly(env, g);
    assert DoneBelow(env, g.inbox.rows, tp, f);
  }
}
