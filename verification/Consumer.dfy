/** The managed consumer group: workers that poll one Kafka record at a time, settle it
    through the Inbox, and only then commit its offset. Nothing is assumed about which
    worker holds which partition, so the result also covers former owners. */
module Consumer {
  import opened Types
  import opened Selection
  import Inbox

  datatype TopicPartition = TopicPartition(topic: string, partition: int)

  /** The group's name and the log it reads: which offsets hold a record, and the event
      id a record resolves to, if it resolves at all. */
  datatype Env = Env(
    consumer: string,
    record: (TopicPartition, nat) -> bool,
    identity: (TopicPartition, nat) -> Option<Id>)

  datatype Phase = Polled | Handling(token: nat) | Settled | Unresolved

  /** The record a worker is busy with. */
  datatype Work = Work(tp: TopicPartition, offset: nat, phase: Phase)

  datatype Worker = Worker(positions: map<TopicPartition, nat>, blocked: set<TopicPartition>, current: Option<Work>)

  datatype Group = Group(inbox: Inbox.State, committed: map<TopicPartition, nat>, workers: seq<Worker>)

  datatype Step =
    | Background(step: Inbox.Step)
    | Assign(w: nat, tp: TopicPartition)
    | Lose(w: nat, tp: TopicPartition)
    | Resume(w: nat, tp: TopicPartition)
    | Poll(w: nat, tp: TopicPartition, offset: nat)
    | ClaimRecord(w: nat, timestamp: Option<Time>, owner: string, lease: Time, reported: bool)
    | CommitHandler(w: nat, reported: bool)
    | FailHandler(w: nat, permanent: bool, delay: Time)
    | CommitOffset(w: nat, applied: bool, reported: bool)
    | Abandon(w: nat)
    | GiveUp(w: nat)
    | Crash(w: nat)

  function Init(now: Time, size: nat): Group {
    Group(Inbox.Init(now), map[], seq(size, _ => Worker(map[], {}, None)))
  }

  function CommittedOffset(g: Group, tp: TopicPartition): nat {
    if tp in g.committed then g.committed[tp] else 0
  }

  function SetWorker(g: Group, w: nat, worker: Worker): Group
    requires w < |g.workers|
  {
    g.(workers := g.workers[w := worker])
  }

  function InPhase(worker: Worker, phase: Phase): Worker
    requires worker.current.Some?
  {
    worker.(current := Some(worker.current.value.(phase := phase)))
  }

  /** Poll returns the next record at or after the fetch position. */
  ghost predicate IsNext(env: Env, position: nat, tp: TopicPartition, offset: nat) {
    position <= offset && env.record(tp, offset) && forall o :: position <= o < offset ==> !env.record(tp, o)
  }

  ghost function StepPoll(env: Env, g: Group, w: nat, tp: TopicPartition, offset: nat): Group
    requires w < |g.workers|
  {
    var worker := g.workers[w];
    if worker.current.Some? || tp !in worker.positions || tp in worker.blocked
      || !IsNext(env, worker.positions[tp], tp, offset) then g
    else SetWorker(g, w, worker.(positions := worker.positions[tp := offset + 1],
      current := Some(Work(tp, offset, Polled))))
  }

  function RequestFor(env: Env, work: Work, id: Id, timestamp: Option<Time>, owner: string,
                      lease: Time): Inbox.Request {
    var source := Inbox.Source(work.tp.topic, work.tp.partition, work.offset);
    Inbox.Request(Inbox.Key(env.consumer, id), source, timestamp, owner, lease)
  }

  /** Claim the record's row; an answer that never arrives leaves the record unresolved. */
  function StepClaimRecord(env: Env, g: Group, w: nat, timestamp: Option<Time>, owner: string, lease: Time,
                           reported: bool): Group
    requires w < |g.workers|
  {
    var worker := g.workers[w];
    if worker.current.None? || worker.current.value.phase != Polled then g
    else
      var work := worker.current.value;
      var id := env.identity(work.tp, work.offset);
      if id.None? then SetWorker(g, w, InPhase(worker, Unresolved))
      else
        var q := RequestFor(env, work, id.value, timestamp, owner, lease);
        var result := Inbox.Claim(g.inbox.rows, g.inbox.now, q, |g.inbox.claims|).1;
        var phase :=
          if !reported then Unresolved
          else match result
            case Claimed(_, _) => Handling(|g.inbox.claims|)
            case AlreadyProcessed => Settled
            case _ => Unresolved;
        SetWorker(g, w, InPhase(worker, phase)).(inbox := Inbox.Apply(g.inbox, Inbox.TakeClaim(q)))
  }

  /** Mark processed and commit; a lost fence or a lost answer leaves the record unresolved. */
  function StepCommitHandler(g: Group, w: nat, reported: bool): Group
    requires w < |g.workers|
  {
    var worker := g.workers[w];
    if worker.current.None? || !worker.current.value.phase.Handling? then g
    else
      var t := worker.current.value.phase.token;
      var held := t < |g.inbox.claims| && Inbox.Holds(g.inbox.rows, g.inbox.claims[t], t);
      SetWorker(g, w, InPhase(worker, if held && reported then Settled else Unresolved))
        .(inbox := Inbox.Apply(g.inbox, Inbox.Commit(t)))
  }

  function StepFailHandler(g: Group, w: nat, permanent: bool, delay: Time): Group
    requires w < |g.workers|
  {
    var worker := g.workers[w];
    if worker.current.None? || !worker.current.value.phase.Handling? then g
    else
      var t := worker.current.value.phase.token;
      SetWorker(g, w, InPhase(worker, Unresolved))
        .(inbox := Inbox.Apply(g.inbox, if permanent then Inbox.Bury(t) else Inbox.Retry(t, delay)))
  }

  /** A claim that errs, a lost lease, a timeout: the record is left unresolved. */
  function StepAbandon(g: Group, w: nat): Group
    requires w < |g.workers|
  {
    if g.workers[w].current.None? then g else SetWorker(g, w, InPhase(g.workers[w], Unresolved))
  }

  function StepCommitOffset(g: Group, w: nat, applied: bool, reported: bool): Group
    requires w < |g.workers|
  {
    var worker := g.workers[w];
    if worker.current.None? || worker.current.value.phase != Settled then g
    else
      var work := worker.current.value;
      var g' := if applied then g.(committed := g.committed[work.tp := work.offset + 1]) else g;
      SetWorker(g', w, if applied && reported then worker.(current := None) else InPhase(worker, Unresolved))
  }

  /** Rewind, pause and block the partition of an unresolved record. */
  function StepGiveUp(g: Group, w: nat): Group
    requires w < |g.workers|
  {
    var worker := g.workers[w];
    if worker.current.None? || worker.current.value.phase != Unresolved then g
    else
      var work := worker.current.value;
      var rewound :=
        if work.tp in worker.positions then worker.positions[work.tp := work.offset] else worker.positions;
      SetWorker(g, w, Worker(rewound, worker.blocked + {work.tp}, None))
  }

  ghost function Apply(env: Env, g: Group, step: Step): Group {
    if step.Background? then g.(inbox := Inbox.Apply(g.inbox, step.step))
    else if step.w >= |g.workers| then g
    else
      var worker := g.workers[step.w];
      match step
      case Assign(w, tp) => SetWorker(g, w, worker.(positions := worker.positions[tp := CommittedOffset(g, tp)]))
      case Lose(w, tp) =>
        SetWorker(g, w, worker.(positions := worker.positions - {tp}, blocked := worker.blocked - {tp}))
      case Resume(w, tp) => SetWorker(g, w, worker.(blocked := worker.blocked - {tp}))
      case Poll(w, tp, offset) => StepPoll(env, g, w, tp, offset)
      case ClaimRecord(w, timestamp, owner, lease, reported) =>
        StepClaimRecord(env, g, w, timestamp, owner, lease, reported)
      case CommitHandler(w, reported) => StepCommitHandler(g, w, reported)
      case FailHandler(w, permanent, delay) => StepFailHandler(g, w, permanent, delay)
      case CommitOffset(w, applied, reported) => StepCommitOffset(g, w, applied, reported)
      case Abandon(w) => StepAbandon(g, w)
      case GiveUp(w) => StepGiveUp(g, w)
      case Crash(w) => SetWorker(g, w, Worker(map[], {}, None))
  }

  ghost function Exec(env: Env, g: Group, steps: seq<Step>): Group
    decreases |steps|
  {
    if steps == [] then g else Exec(env, Apply(env, g, steps[0]), steps[1..])
  }

  ghost predicate Reachable(env: Env, g: Group) {
    exists now, size, steps :: g == Exec(env, Init(now, size), steps)
  }

  // ---------------------------------------------------------------- what the group's steps do

  /** An idle worker polls exactly the first record at or after its position, of a partition that
      is its own and not blocked; then it is busy with it and its position is past it. */
  lemma PollTakesIff(env: Env, g: Group, w: nat, tp: TopicPartition, offset: nat)
    requires w < |g.workers|
    ensures var worker, g' := g.workers[w], Apply(env, g, Poll(w, tp, offset));
      var first := && tp in worker.positions && worker.positions[tp] <= offset && env.record(tp, offset)
                   && forall o: nat :: worker.positions[tp] <= o && o < offset ==> !env.record(tp, o);
      if worker.current.None? && tp !in worker.blocked && first
      then && g' == g.(workers := g.workers[w := g'.workers[w]]) && g'.workers[w].blocked == worker.blocked
           && g'.workers[w].current == Some(Work(tp, offset, Polled))
           && g'.workers[w].positions == worker.positions[tp := offset + 1]
      else g' == g
  {}

  /** A worker starts a partition at its committed offset, forgets a lost one, fetches a resumed
      one again, and forgets everything when it crashes; the Inbox may move under all of them. */
  lemma GroupSteps(env: Env, g: Group, w: nat, tp: TopicPartition, step: Inbox.Step)
    requires w < |g.workers|
    ensures var worker := g.workers[w]; var committed := if tp in g.committed then g.committed[tp] else 0;
      && Apply(env, g, Assign(w, tp))
           == g.(workers := g.workers[w := worker.(positions := worker.positions[tp := committed])])
      && Apply(env, g, Lose(w, tp))
           == g.(workers := g.workers[w := Worker(worker.positions - {tp}, worker.blocked - {tp}, worker.current)])
      && Apply(env, g, Resume(w, tp))
           == g.(workers := g.workers[w := Worker(worker.positions, worker.blocked - {tp}, worker.current)])
      && Apply(env, g, Crash(w)) == g.(workers := g.workers[w := Worker(map[], {}, None)])
      && Apply(env, g, Background(step)) == g.(inbox := Inbox.Apply(g.inbox, step))
  {}

  // ---------------------------------------------------------------- what every step keeps

  /** The record resolves to an event this consumer has processed. */
  predicate Done(env: Env, rows: Inbox.Rows, tp: TopicPartition, offset: nat) {
    env.identity(tp, offset).Some? && Inbox.IsProcessed(rows, Inbox.Key(env.consumer, env.identity(tp, offset).value))
  }

  ghost predicate DoneBelow(env: Env, rows: Inbox.Rows, tp: TopicPartition, end: nat) {
    forall o: nat :: o < end && env.record(tp, o) ==> Done(env, rows, tp, o)
  }

  predicate AtWork(worker: Worker, tp: TopicPartition, o: nat) {
    worker.current.Some? && worker.current.value.tp == tp && worker.current.value.offset == o
  }

  /** Everything below a fetch position is done, except the record being worked on. */
  ghost predicate PositionsOk(env: Env, rows: Inbox.Rows, worker: Worker) {
    forall tp, o: nat ::
      tp in worker.positions && o < worker.positions[tp] && env.record(tp, o) && !AtWork(worker, tp, o) ==>
      Done(env, rows, tp, o)
  }

  ghost predicate WorkOk(env: Env, inbox: Inbox.State, work: Work) {
    && env.record(work.tp, work.offset) && DoneBelow(env, inbox.rows, work.tp, work.offset)
    && (work.phase == Settled ==> Done(env, inbox.rows, work.tp, work.offset))
    && (work.phase.Handling? ==>
          && env.identity(work.tp, work.offset).Some? && work.phase.token < |inbox.claims|
          && inbox.claims[work.phase.token] == Inbox.Key(env.consumer, env.identity(work.tp, work.offset).value))
  }

  ghost predicate WorkerOk(env: Env, inbox: Inbox.State, worker: Worker) {
    PositionsOk(env, inbox.rows, worker) && (worker.current.Some? ==> WorkOk(env, inbox, worker.current.value))
  }

  ghost predicate CommittedOk(env: Env, rows: Inbox.Rows, committed: map<TopicPartition, nat>) {
    forall tp :: tp in committed ==> DoneBelow(env, rows, tp, committed[tp])
  }

  ghost predicate GroupOk(env: Env, g: Group) {
    && Inbox.Sound(g.inbox)
    && CommittedOk(env, g.inbox.rows, g.committed)
    && forall w :: 0 <= w < |g.workers| ==> WorkerOk(env, g.inbox, g.workers[w])
  }

  /** What has been processed stays processed, and claims are only added. */
  ghost predicate Onward(inbox: Inbox.State, inbox': Inbox.State) {
    && (forall key :: Inbox.IsProcessed(inbox.rows, key) ==> Inbox.IsProcessed(inbox'.rows, key))
    && inbox.claims <= inbox'.claims
  }

  lemma InboxMovesOn(inbox: Inbox.State, step: Inbox.Step)
    requires Inbox.Sound(inbox)
    ensures Inbox.Sound(Inbox.Apply(inbox, step)) && Onward(inbox, Inbox.Apply(inbox, step))
  {
    Inbox.StepKeeps(inbox, step);
    forall key | Inbox.IsProcessed(inbox.rows, key) ensures Inbox.IsProcessed(Inbox.Apply(inbox, step).rows, key) {
      Inbox.ProcessedStays(inbox, step, key);
    }
    ClaimsAreKept(inbox, step);
  }

  lemma ClaimsAreKept(inbox: Inbox.State, step: Inbox.Step)
    ensures inbox.claims <= Inbox.Apply(inbox, step).claims
  {}

  lemma OnwardKeeps(env: Env, g: Group, inbox': Inbox.State)
    requires GroupOk(env, g) && Inbox.Sound(inbox') && Onward(g.inbox, inbox')
    ensures GroupOk(env, g.(inbox := inbox'))
  {}

  lemma BackgroundKeeps(env: Env, g: Group, step: Inbox.Step)
    requires GroupOk(env, g)
    ensures GroupOk(env, g.(inbox := Inbox.Apply(g.inbox, step)))
  {
    InboxMovesOn(g.inbox, step);
    OnwardKeeps(env, g, Inbox.Apply(g.inbox, step));
  }

  lemma WorkerKeeps(env: Env, g: Group, w: nat, worker: Worker)
    requires GroupOk(env, g) && w < |g.workers| && WorkerOk(env, g.inbox, worker)
    ensures GroupOk(env, SetWorker(g, w, worker))
  {}

  lemma PollKeeps(env: Env, g: Group, w: nat, tp: TopicPartition, offset: nat)
    requires GroupOk(env, g) && w < |g.workers|
    ensures GroupOk(env, StepPoll(env, g, w, tp, offset))
  {}

  lemma PhaseKeeps(env: Env, g: Group, w: nat, phase: Phase)
    requires GroupOk(env, g) && w < |g.workers| && g.workers[w].current.Some?
    requires WorkOk(env, g.inbox, g.workers[w].current.value.(phase := phase))
    ensures GroupOk(env, SetWorker(g, w, InPhase(g.workers[w], phase)))
  {}

  lemma ClaimKeeps(env: Env, g: Group, w: nat, timestamp: Option<Time>, owner: string, lease: Time, reported: bool)
    requires GroupOk(env, g) && w < |g.workers|
    ensures GroupOk(env, StepClaimRecord(env, g, w, timestamp, owner, lease, reported))
  {
    var worker := g.workers[w];
    if worker.current.Some? && worker.current.value.phase == Polled {
      var work := worker.current.value;
      assert WorkerOk(env, g.inbox, worker);
      var id := env.identity(work.tp, work.offset);
      if id.None? {
        PhaseKeeps(env, g, w, Unresolved);
      } else {
        var q := RequestFor(env, work, id.value, timestamp, owner, lease);
        var g' := g.(inbox := Inbox.Apply(g.inbox, Inbox.TakeClaim(q)));
        BackgroundKeeps(env, g, Inbox.TakeClaim(q));
        assert WorkerOk(env, g'.inbox, worker);
        var claimed := StepClaimRecord(env, g, w, timestamp, owner, lease, reported);
        PhaseKeeps(env, g', w, claimed.workers[w].current.value.phase);
      }
    }
  }

  lemma CommitHandlerKeeps(env: Env, g: Group, w: nat, reported: bool)
    requires GroupOk(env, g) && w < |g.workers|
    ensures GroupOk(env, StepCommitHandler(g, w, reported))
  {
    var worker := g.workers[w];
    if worker.current.Some? && worker.current.value.phase.Handling? {
      var t := worker.current.value.phase.token;
      assert WorkerOk(env, g.inbox, worker);
      var g' := g.(inbox := Inbox.Apply(g.inbox, Inbox.Commit(t)));
      BackgroundKeeps(env, g, Inbox.Commit(t));
      assert WorkerOk(env, g'.inbox, worker);
      PhaseKeeps(env, g', w, StepCommitHandler(g, w, reported).workers[w].current.value.phase);
    }
  }

  lemma FailHandlerKeeps(env: Env, g: Group, w: nat, permanent: bool, delay: Time)
    requires GroupOk(env, g) && w < |g.workers|
    ensures GroupOk(env, StepFailHandler(g, w, permanent, delay))
  {
    var worker := g.workers[w];
    if worker.current.Some? && worker.current.value.phase.Handling? {
      var t := worker.current.value.phase.token;
      var step := if permanent then Inbox.Bury(t) else Inbox.Retry(t, delay);
      var g' := g.(inbox := Inbox.Apply(g.inbox, step));
      BackgroundKeeps(env, g, step);
      assert WorkerOk(env, g'.inbox, worker);
      PhaseKeeps(env, g', w, Unresolved);
    }
  }

  lemma CommitOffsetKeeps(env: Env, g: Group, w: nat, applied: bool, reported: bool)
    requires GroupOk(env, g) && w < |g.workers|
    ensures GroupOk(env, StepCommitOffset(g, w, applied, reported))
  {}

  lemma GiveUpKeeps(env: Env, g: Group, w: nat)
    requires GroupOk(env, g) && w < |g.workers|
    ensures GroupOk(env, StepGiveUp(g, w))
  {}

  lemma StepKeeps(env: Env, g: Group, step: Step)
    requires GroupOk(env, g)
    ensures GroupOk(env, Apply(env, g, step))
  {
    if step.Background? {
      BackgroundKeeps(env, g, step.step);
    } else if step.w < |g.workers| {
      assert WorkerOk(env, g.inbox, g.workers[step.w]);
      match step
      case Assign(w, tp) => WorkerKeeps(env, g, w, Apply(env, g, step).workers[w]);
      case Lose(w, tp) => WorkerKeeps(env, g, w, Apply(env, g, step).workers[w]);
      case Resume(w, tp) => WorkerKeeps(env, g, w, Apply(env, g, step).workers[w]);
      case Crash(w) => WorkerKeeps(env, g, w, Apply(env, g, step).workers[w]);
      case Poll(w, tp, offset) => PollKeeps(env, g, w, tp, offset);
      case ClaimRecord(w, timestamp, owner, lease, reported) =>
        ClaimKeeps(env, g, w, timestamp, owner, lease, reported);
      case CommitHandler(w, reported) => CommitHandlerKeeps(env, g, w, reported);
      case FailHandler(w, permanent, delay) => FailHandlerKeeps(env, g, w, permanent, delay);
      case CommitOffset(w, applied, reported) => CommitOffsetKeeps(env, g, w, applied, reported);
      case Abandon(w) => if g.workers[w].current.Some? { PhaseKeeps(env, g, w, Unresolved); }
      case GiveUp(w) => GiveUpKeeps(env, g, w);
    }
  }

  lemma {:induction false} RunKeeps(env: Env, g: Group, steps: seq<Step>)
    requires GroupOk(env, g)
    ensures GroupOk(env, Exec(env, g, steps))
    decreases |steps|
  {
    if steps != [] {
      StepKeeps(env, g, steps[0]);
      RunKeeps(env, Apply(env, g, steps[0]), steps[1..]);
    }
  }

  /** Every record below a committed offset has been processed, through rewinds, pauses,
      failed or ambiguous commits, rebalances, crashes and late commits by former owners. */
  lemma CommittedRecordsAreProcessed(env: Env, g: Group, tp: TopicPartition, offset: nat)
    requires Reachable(env, g) && offset < CommittedOffset(g, tp) && env.record(tp, offset)
    ensures env.identity(tp, offset).Some?
    ensures Inbox.IsProcessed(g.inbox.rows, Inbox.Key(env.consumer, env.identity(tp, offset).value))
    ensures |Inbox.EffectsOn(g.inbox, Inbox.Key(env.consumer, env.identity(tp, offset).value))| == 1
  {
    var now, size, steps :| g == Exec(env, Init(now, size), steps);
    RunKeeps(env, Init(now, size), steps);
    assert DoneBelow(env, g.inbox.rows, tp, g.committed[tp]);
    assert Done(env, g.inbox.rows, tp, offset);
    assert Inbox.EffectsOk(g.inbox, Inbox.Key(env.consumer, env.identity(tp, offset).value));
  }
}
