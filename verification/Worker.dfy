/** One consumer worker as an object: the record it processes, the partitions it has
    blocked, and the gauges it keeps in step with them. Every method leaves the worker, the
    Inbox and the committed offsets as steps of the consumer group would. */
module Worker {
  import opened Types
  import opened Selection
  import Inbox
  import opened InboxStore
  import opened Consumer
  import Laws = InboxLaws

  datatype Blocked = Blocked(tp: TopicPartition, offset: nat, id: Id, resumeAt: Time, permanent: bool, reason: Reason)

  type BlockedMap = map<TopicPartition, Blocked>

  type Offsets = map<TopicPartition, nat>

  /** Why a partition is blocked. */
  datatype Reason = ProtocolError | DatabaseError | RetryWait | DeadEvent | OffsetCommit

  /** What processing one record came to. */
  datatype Verdict = Resolved | Stuck(id: Id, at: Time, permanent: bool, reason: Reason)

  /** How the calls made while processing a record turn out. Statements inside the handler's
      transaction either work or fail; every other call may take effect and still report
      an error. */
  datatype Script = Script(
    claim: Call,
    beginFails: bool,
    renewal: Renewal,
    handler: Outcome,
    markFails: bool,
    commit: Call,
    offset: Call,
    transition: Call,
    delay: nat)

  datatype Renewal = Renewed | LeaseLost | RenewalFailed
  datatype Outcome = Succeeded | Failed(permanent: bool)

  // ---------------------------------------------------------------- gauges

  function WithReason(blocked: BlockedMap, reason: Reason): set<TopicPartition> {
    set tp | tp in blocked && blocked[tp].reason == reason
  }

  function Gauge(gauges: map<Reason, int>, reason: Reason): int {
    if reason in gauges then gauges[reason] else 0
  }

  ghost predicate GaugesMatch(blocked: BlockedMap, gauges: map<Reason, int>, dead: int) {
    (forall reason :: Gauge(gauges, reason) == |WithReason(blocked, reason)|)
      && dead == |WithReason(blocked, DeadEvent)|
  }

  lemma OneFewer(blocked: BlockedMap, tp: TopicPartition, reason: Reason)
    requires tp in blocked
    ensures |WithReason(blocked - {tp}, reason)|
         == |WithReason(blocked, reason)| - if reason == blocked[tp].reason then 1 else 0
  {
    assert WithReason(blocked - {tp}, reason) == WithReason(blocked, reason) - {tp};
  }

  lemma OneMore(blocked: BlockedMap, tp: TopicPartition, b: Blocked, reason: Reason)
    requires tp !in blocked
    ensures |WithReason(blocked[tp := b], reason)|
         == |WithReason(blocked, reason)| + if reason == b.reason then 1 else 0
  {
    OneFewer(blocked[tp := b], tp, reason);
    assert blocked[tp := b] - {tp} == blocked;
  }

  lemma UnblockedGauges(blocked: BlockedMap, gauges: map<Reason, int>, dead: int, tp: TopicPartition)
    requires GaugesMatch(blocked, gauges, dead) && tp in blocked
    ensures var reason := blocked[tp].reason;
      GaugesMatch(blocked - {tp}, gauges[reason := Gauge(gauges, reason) - 1],
                  if reason == DeadEvent then dead - 1 else dead)
  {
    forall reason { OneFewer(blocked, tp, reason); }
  }

  lemma BlockedGauges(blocked: BlockedMap, gauges: map<Reason, int>, dead: int, tp: TopicPartition, b: Blocked)
    requires GaugesMatch(blocked, gauges, dead) && tp !in blocked
    ensures GaugesMatch(blocked[tp := b], gauges[b.reason := Gauge(gauges, b.reason) + 1],
                        if b.reason == DeadEvent then dead + 1 else dead)
  {
    var gauges' := gauges[b.reason := Gauge(gauges, b.reason) + 1];
    forall reason ensures Gauge(gauges', reason) == |WithReason(blocked[tp := b], reason)| {
      assert Gauge(gauges, reason) == |WithReason(blocked, reason)|;
      OneMore(blocked, tp, b, reason);
    }
    OneMore(blocked, tp, b, DeadEvent);
  }

  /** A partition may be fetched again: its wait is over, or an operator revived its event. */
  predicate Due(rows: Inbox.Rows, consumer: string, b: Blocked, now: Time) {
    if b.permanent then
      var key := Inbox.Key(consumer, b.id);
      b.id != Inbox.NIL && key in rows && rows[key].status != Inbox.Dead
    else b.resumeAt <= now
  }

  /** A partition that waits for a time resumes exactly at that time; one that waits for a dead
      event resumes exactly when an operator has revived it; an unreadable record never does. */
  lemma DueIff(rows: Inbox.Rows, consumer: string, b: Blocked, now: Time)
    ensures !b.permanent ==> (Due(rows, consumer, b, now) <==> b.resumeAt <= now)
    ensures b.permanent && b.id == 0 ==> !Due(rows, consumer, b, now)
    ensures b.permanent && b.id != 0 ==>
      (Due(rows, consumer, b, now) <==>
         exists key :: key in rows && key == Inbox.Key(consumer, b.id) && !Laws.InState(rows, key, Inbox.Dead))
  {}

  function SetOf(tps: seq<TopicPartition>): set<TopicPartition> {
    set tp | tp in tps
  }

  lemma OneMoreLost(lost: seq<TopicPartition>, n: nat, blocked: BlockedMap, positions: Offsets)
    requires n < |lost|
    ensures blocked - SetOf(lost[..n + 1]) == blocked - SetOf(lost[..n]) - {lost[n]}
    ensures positions - SetOf(lost[..n + 1]) == positions - SetOf(lost[..n]) - {lost[n]}
  {
    assert lost[..n + 1] == lost[..n] + [lost[n]];
    assert SetOf(lost[..n + 1]) == SetOf(lost[..n]) + {lost[n]};
  }

  // ---------------------------------------------------------------- paths of the group

  predicate OwnStep(step: Step, i: nat) {
    !step.Background? && !step.Assign? && !step.Crash? && step.w == i
  }

  /** These steps of worker i lead to these Inbox rows, committed offsets and worker state,
      at the same time. */
  ghost predicate Leads(env: Env, g: Group, i: nat, steps: seq<Step>, rows: Inbox.Rows, committed: Offsets,
                        worker: Consumer.Worker) {
    var g' := Exec(env, g, steps);
    && (forall j :: 0 <= j < |steps| ==> OwnStep(steps[j], i))
    && g'.inbox.now == g.inbox.now && g'.inbox.rows == rows && g'.committed == committed
    && i < |g'.workers| && g'.workers[i] == worker
  }

  lemma Single(env: Env, g: Group, i: nat, step: Step)
    requires OwnStep(step, i) && i < |g.workers|
    ensures var g' := Apply(env, g, step);
      g'.inbox.now == g.inbox.now && i < |g'.workers| ==>
        Leads(env, g, i, [step], g'.inbox.rows, g'.committed, g'.workers[i])
  {
    var g' := Apply(env, g, step);
    assert [step][1..] == [];
    assert Exec(env, g', []) == g';
  }

  lemma {:induction false} Joined(env: Env, g: Group, before: seq<Step>, after: seq<Step>)
    ensures Exec(env, g, before + after) == Exec(env, Exec(env, g, before), after)
    decreases |before|
  {
    if before == [] {
      assert before + after == after;
    } else {
      assert (before + after)[1..] == before[1..] + after;
      Joined(env, Apply(env, g, before[0]), before[1..], after);
    }
  }

  lemma Follows(env: Env, g: Group, i: nat, before: seq<Step>, after: seq<Step>, rows: Inbox.Rows, committed: Offsets,
                worker: Consumer.Worker)
    requires forall j :: 0 <= j < |before| ==> OwnStep(before[j], i)
    requires Exec(env, g, before).inbox.now == g.inbox.now
    requires Leads(env, Exec(env, g, before), i, after, rows, committed, worker)
    ensures Leads(env, g, i, before + after, rows, committed, worker)
  {
    Joined(env, g, before, after);
  }

  function Left(rows: Inbox.Rows, result: Option<Inbox.Rows>): Inbox.Rows {
    if result.Some? then result.value else rows
  }

  /** Worker i is in the middle of this record. */
  predicate Busy(g: Group, i: nat, tp: TopicPartition, offset: nat, phase: Phase) {
    i < |g.workers| && g.workers[i].current == Some(Work(tp, offset, phase))
  }

  lemma Abandons(env: Env, g: Group, i: nat) returns (steps: seq<Step>)
    requires i < |g.workers| && g.workers[i].current.Some?
    ensures Leads(env, g, i, steps, g.inbox.rows, g.committed, InPhase(g.workers[i], Unresolved))
  {
    steps := [Abandon(i)];
    Single(env, g, i, Abandon(i));
  }

  lemma Fails(env: Env, g: Group, i: nat, tp: TopicPartition, offset: nat, token: nat, permanent: bool, delay: Time)
    returns (steps: seq<Step>)
    requires Busy(g, i, tp, offset, Handling(token)) && token < |g.inbox.claims|
    ensures var r := if permanent then Inbox.MarkDead(g.inbox.rows, g.inbox.now, g.inbox.claims[token], token)
                     else Inbox.MarkRetry(g.inbox.rows, g.inbox.now, g.inbox.claims[token], token, delay);
      Leads(env, g, i, steps, Left(g.inbox.rows, r), g.committed, InPhase(g.workers[i], Unresolved))
  {
    steps := [FailHandler(i, permanent, delay)];
    Single(env, g, i, FailHandler(i, permanent, delay));
  }

  lemma Commits(env: Env, g: Group, i: nat, tp: TopicPartition, offset: nat, token: nat, reported: bool)
    returns (steps: seq<Step>)
    requires Busy(g, i, tp, offset, Handling(token)) && token < |g.inbox.claims|
    requires Inbox.Holds(g.inbox.rows, g.inbox.claims[token], token)
    ensures Leads(env, g, i, steps, Inbox.MarkProcessed(g.inbox.rows, g.inbox.now, g.inbox.claims[token], token).value,
                  g.committed, InPhase(g.workers[i], if reported then Settled else Unresolved))
  {
    steps := [CommitHandler(i, reported)];
    Single(env, g, i, CommitHandler(i, reported));
  }

  lemma CommitsOffset(env: Env, g: Group, i: nat, tp: TopicPartition, offset: nat, applied: bool, reported: bool)
    returns (steps: seq<Step>)
    requires Busy(g, i, tp, offset, Settled)
    ensures Leads(env, g, i, steps, g.inbox.rows, if applied then g.committed[tp := offset + 1] else g.committed,
                  if applied && reported then g.workers[i].(current := None) else InPhase(g.workers[i], Unresolved))
  {
    steps := [CommitOffset(i, applied, reported)];
    Single(env, g, i, CommitOffset(i, applied, reported));
  }

  /** What a claim makes of the record, if its answer arrives. */
  function ClaimPhase(result: Inbox.ClaimResult, token: nat): Phase {
    match result
    case Claimed(_, _) => Handling(token)
    case AlreadyProcessed => Settled
    case _ => Unresolved
  }

  lemma Claims(env: Env, g: Group, i: nat, tp: TopicPartition, offset: nat, q: Inbox.Request, reported: bool)
    returns (steps: seq<Step>)
    requires Busy(g, i, tp, offset, Polled) && env.identity(tp, offset) == Some(q.key.id)
    requires q == RequestFor(env, Work(tp, offset, Polled), q.key.id, q.timestamp, q.owner, q.lease)
    ensures var token := |g.inbox.claims|; var (rows, result) := Inbox.Claim(g.inbox.rows, g.inbox.now, q, token);
      && Leads(env, g, i, steps, rows, g.committed,
           InPhase(g.workers[i], if reported then ClaimPhase(result, token) else Unresolved))
      && (result.Claimed? ==> Holding(Exec(env, g, steps), token, q.key))
  {
    var step := ClaimRecord(i, q.timestamp, q.owner, q.lease, reported);
    steps := [step];
    Single(env, g, i, step);
    assert steps[1..] == [];
    assert Exec(env, g, steps) == StepClaimRecord(env, g, i, q.timestamp, q.owner, q.lease, reported);
  }

  /** What a claim's answer says about the row it leaves. */
  predicate Answers(rows: Inbox.Rows, key: Inbox.Key, result: Inbox.ClaimResult, token: nat) {
    match result
    case Claimed(_, _) => Laws.TokenHolds(rows, key, token)
    case AlreadyProcessed => Inbox.IsProcessed(rows, key)
    case ClaimDead => key in rows && rows[key].status == Inbox.Dead
    case Waiting(_) => key in rows && rows[key].status != Inbox.Dead && rows[key].status != Inbox.Processed
    case _ => true
  }

  lemma ClaimAnswers(rows: Inbox.Rows, now: Time, q: Inbox.Request, token: nat)
    ensures Answers(Inbox.Claim(rows, now, q, token).0, q.key, Inbox.Claim(rows, now, q, token).1, token)
  {}

  /** This token was given out for this row. */
  predicate Holding(g: Group, token: nat, key: Inbox.Key) {
    token < |g.inbox.claims| && g.inbox.claims[token] == key
  }

  lemma Polls(env: Env, g: Group, i: nat, tp: TopicPartition, offset: nat) returns (steps: seq<Step>)
    requires i < |g.workers| && g.workers[i].current.None? && tp in g.workers[i].positions
    requires tp !in g.workers[i].blocked
    requires IsNext(env, g.workers[i].positions[tp], tp, offset)
    ensures Leads(env, g, i, steps, g.inbox.rows, g.committed,
                  g.workers[i].(positions := g.workers[i].positions[tp := offset + 1],
                    current := Some(Work(tp, offset, Polled))))
    ensures Exec(env, g, steps).inbox == g.inbox
  {
    steps := [Poll(i, tp, offset)];
    Single(env, g, i, Poll(i, tp, offset));
    assert steps[1..] == [];
    assert Exec(env, g, steps) == StepPoll(env, g, i, tp, offset);
  }

  lemma GivesUp(env: Env, g: Group, i: nat, before: seq<Step>, rows: Inbox.Rows, committed: Offsets,
                worker: Consumer.Worker)
      returns (steps: seq<Step>)
    requires Leads(env, g, i, before, rows, committed, worker) && worker.current.Some?
    requires worker.current.value.phase == Unresolved
    ensures var work := worker.current.value;
      var rewound := if work.tp in worker.positions then worker.positions[work.tp := work.offset] else worker.positions;
      Leads(env, g, i, steps, rows, committed,
            Consumer.Worker(rewound, worker.blocked + {work.tp}, None))
  {
    var g' := Exec(env, g, before);
    Single(env, g', i, GiveUp(i));
    Follows(env, g, i, before, [GiveUp(i)], rows, committed, StepGiveUp(g', i).workers[i]);
    steps := before + [GiveUp(i)];
  }

  lemma Resumes(env: Env, g: Group, i: nat, before: seq<Step>, rows: Inbox.Rows, committed: Offsets,
                worker: Consumer.Worker, tp: TopicPartition)
      returns (steps: seq<Step>)
    requires Leads(env, g, i, before, rows, committed, worker)
    ensures Leads(env, g, i, steps, rows, committed, worker.(blocked := worker.blocked - {tp}))
  {
    Single(env, Exec(env, g, before), i, Resume(i, tp));
    Follows(env, g, i, before, [Resume(i, tp)], rows, committed, worker.(blocked := worker.blocked - {tp}));
    steps := before + [Resume(i, tp)];
  }

  lemma Loses(env: Env, g: Group, i: nat, before: seq<Step>, rows: Inbox.Rows, committed: Offsets,
              worker: Consumer.Worker, tp: TopicPartition)
      returns (steps: seq<Step>)
    requires Leads(env, g, i, before, rows, committed, worker)
    ensures Leads(env, g, i, steps, rows, committed,
      worker.(positions := worker.positions - {tp}, blocked := worker.blocked - {tp}))
  {
    var left := worker.(positions := worker.positions - {tp}, blocked := worker.blocked - {tp});
    Single(env, Exec(env, g, before), i, Lose(i, tp));
    Follows(env, g, i, before, [Lose(i, tp)], rows, committed, left);
    steps := before + [Lose(i, tp)];
  }

  lemma Stays(env: Env, g: Group, i: nat) returns (steps: seq<Step>)
    requires i < |g.workers|
    ensures Leads(env, g, i, steps, g.inbox.rows, g.committed, g.workers[i])
  {
    steps := [];
  }

  // ---------------------------------------------------------------- what becomes of a record

  /** The handler's transaction began, its lease was renewed throughout, the handler succeeded
      and its processed mark was written. */
  predicate Ran(script: Script) {
    !script.beginFails && script.renewal == Renewed && script.handler == Succeeded && !script.markFails
  }

  /** How a record is answered whose handler failed: its event is dead, or waits for its delay,
      or its lease is waited out if that could not be recorded. */
  predicate FailsAs(id: Id, bury: bool, recorded: bool, delay: nat, now: Time, lease: Time, v: Verdict) {
    && v.Stuck? && v.id == id && (v.permanent <==> recorded && bury)
    && (recorded && bury ==> v.reason == DeadEvent)
    && (recorded && !bury ==> v.reason == RetryWait && v.at == now + delay)
    && (!recorded ==> v.reason == DatabaseError && v.at == now + lease)
  }

  /** How a claimed record is answered, and when its partition is looked at again. */
  predicate HandledAs(held: bool, id: Id, attempts: int, maxAttempts: int, until: Time, script: Script, now: Time,
                      lease: Time, poll: Time, v: Verdict)
  {
    var ran := !script.beginFails && script.renewal == Renewed;
    var fails := script.beginFails || script.renewal == RenewalFailed || (ran && script.handler.Failed?);
    var permanent := ran && script.handler.Failed? && script.handler.permanent;
    && (v.Resolved? <==> Ran(script) && held && script.commit == Works && script.offset == Works)
    && (fails ==>
          FailsAs(id, permanent || attempts >= maxAttempts, script.transition == Works && held, script.delay, now,
                  lease, v))
    && (!script.beginFails && script.renewal == LeaseLost ==> v == Stuck(id, now + lease, false, DatabaseError))
    && (ran && script.handler == Succeeded && (script.markFails || !held) ==>
          v == Stuck(id, until, false, DatabaseError))
    && (Ran(script) && held && script.commit != Works ==> v == Stuck(id, now + poll, false, DatabaseError))
    && (Ran(script) && held && script.commit == Works && script.offset != Works ==>
          v == Stuck(id, now + poll, false, OffsetCommit))
  }

  class Worker {
    const store: InboxStore
    const consumer: string
    const name: string
    const maxAttempts: int
    const lease: Time
    const maintenancePoll: Time

    var positions: Offsets
    var paused: set<TopicPartition>
    var blocked: BlockedMap
    var gauges: map<Reason, int>
    var dead: int
    var committed: Offsets

    constructor (store: InboxStore, consumer: string, name: string, maxAttempts: int, lease: Time,
                 maintenancePoll: Time)
      ensures Valid() && this.store == store && this.consumer == consumer && blocked == map[] && committed == map[]
    {
      this.store, this.consumer, this.name := store, consumer, name;
      this.maxAttempts, this.lease, this.maintenancePoll := maxAttempts, lease, maintenancePoll;
      positions, paused, blocked, gauges, dead, committed := map[], {}, map[], map[], 0, map[];
    }

    /** Fetching is paused on exactly the blocked partitions, and each gauge counts them. */
    ghost predicate Valid()
      reads this
    {
      paused == blocked.Keys && GaugesMatch(blocked, gauges, dead)
    }

    /** The worker as the group has it, while it is busy with this record or with none. */
    ghost function View(current: Option<Work>): Consumer.Worker
      reads this`positions, this`blocked
    {
      Consumer.Worker(positions, blocked.Keys, current)
    }

    /** The worker is worker i of this group, over the same Inbox and committed offsets. */
    ghost predicate Mirrors(env: Env, g: Group, i: nat, current: Option<Work>)
      reads this`positions, this`blocked, this`committed, store
    {
      && env.consumer == consumer && g.inbox.now == store.now && g.inbox.rows == store.rows && g.committed == committed
      && i < |g.workers| && g.workers[i] == View(current)
    }

    // -------------------------------------------------------------- blocking

    /** Drop one entry from the gauges and the map. */
    method Unblock(tp: TopicPartition)
      requires Valid() && tp in blocked
      modifies this`paused, this`blocked, this`gauges, this`dead
      ensures Valid() && blocked == old(blocked) - {tp}
    {
      UnblockedGauges(blocked, gauges, dead, tp);
      var reason := blocked[tp].reason;
      gauges := gauges[reason := Gauge(gauges, reason) - 1];
      if reason == DeadEvent { dead := dead - 1; }
      blocked := blocked - {tp};
      paused := paused - {tp};
    }

    method Block(tp: TopicPartition, b: Blocked)
      requires Valid() && tp !in blocked
      modifies this`paused, this`blocked, this`gauges, this`dead
      ensures Valid() && blocked == old(blocked)[tp := b]
    {
      BlockedGauges(blocked, gauges, dead, tp, b);
      paused := paused + {tp};
      blocked := blocked[tp := b];
      gauges := gauges[b.reason := Gauge(gauges, b.reason) + 1];
      if b.reason == DeadEvent { dead := dead + 1; }
    }

    /** Rewind to the unresolved record, pause its partition and remember why. */
    method Hold(tp: TopicPartition, b: Blocked)
      requires Valid()
      modifies this`positions, this`paused, this`blocked, this`gauges, this`dead
      ensures Valid() && blocked == old(blocked)[tp := b]
      ensures positions == if tp in old(positions) then old(positions)[tp := b.offset] else old(positions)
    {
      if tp in positions { positions := positions[tp := b.offset]; }
      if tp in blocked { Unblock(tp); }
      Block(tp, b);
    }

    method Awaken(tp: TopicPartition, ghost env: Env, ghost g: Group, ghost i: nat, ghost before: seq<Step>)
      returns (ghost steps: seq<Step>)
      requires Valid() && tp in blocked && Leads(env, g, i, before, store.rows, committed, View(None))
      modifies this`paused, this`blocked, this`gauges, this`dead
      ensures Valid() && blocked == old(blocked) - {tp}
      ensures Leads(env, g, i, steps, store.rows, committed, View(None))
    {
      steps := Resumes(env, g, i, before, store.rows, committed, View(None), tp);
      Unblock(tp);
    }

    /** Resume every partition that is due, and no other. */
    method ResumeDue(now: Time, ghost env: Env, ghost g: Group, ghost i: nat) returns (ghost steps: seq<Step>)
      requires Valid() && Mirrors(env, g, i, None)
      modifies this`paused, this`blocked, this`gauges, this`dead
      ensures Valid()
      ensures blocked
           == map tp | tp in old(blocked) && !Due(store.rows, consumer, old(blocked)[tp], now) :: old(blocked)[tp]
      ensures Leads(env, g, i, steps, store.rows, committed, View(None))
    {
      var rest := blocked.Keys;
      steps := Stays(env, g, i);
      while rest != {}
        invariant Valid() && rest <= blocked.Keys
        invariant blocked
               == map tp | tp in old(blocked) && (tp in rest || !Due(store.rows, consumer, old(blocked)[tp], now))
                  :: old(blocked)[tp]
        invariant Leads(env, g, i, steps, store.rows, committed, View(None))
        decreases rest
      {
        var tp :| tp in rest;
        rest := rest - {tp};
        var b := blocked[tp];
        if b.permanent {
          if b.id == Inbox.NIL { continue; }
          var key := Inbox.Key(consumer, b.id);
          if key !in store.rows || store.rows[key].status == Inbox.Dead { continue; }
        } else if b.resumeAt > now {
          continue;
        }
        steps := Awaken(tp, env, g, i, steps);
      }
    }

    method Forget(tp: TopicPartition, ghost env: Env, ghost g: Group, ghost i: nat, ghost before: seq<Step>)
      returns (ghost steps: seq<Step>)
      requires Valid() && Leads(env, g, i, before, store.rows, committed, View(None))
      modifies this`positions, this`paused, this`blocked, this`gauges, this`dead
      ensures Valid() && blocked == old(blocked) - {tp} && positions == old(positions) - {tp}
      ensures Leads(env, g, i, steps, store.rows, committed, View(None))
    {
      steps := Loses(env, g, i, before, store.rows, committed, View(None), tp);
      positions := positions - {tp};
      if tp in blocked { Unblock(tp); }
      assert blocked.Keys == old(blocked).Keys - {tp};
    }

    /** Partitions revoked or lost are resumed and forgotten. */
    method Release(lost: seq<TopicPartition>, ghost env: Env, ghost g: Group, ghost i: nat)
      returns (ghost steps: seq<Step>)
      requires Valid() && Mirrors(env, g, i, None)
      modifies this`positions, this`paused, this`blocked, this`gauges, this`dead
      ensures Valid()
      ensures blocked == old(blocked) - SetOf(lost) && positions == old(positions) - SetOf(lost)
      ensures Leads(env, g, i, steps, store.rows, committed, View(None))
    {
      steps := Stays(env, g, i);
      for n := 0 to |lost|
        invariant Valid()
        invariant blocked == old(blocked) - SetOf(lost[..n])
        invariant positions == old(positions) - SetOf(lost[..n])
        invariant Leads(env, g, i, steps, store.rows, committed, View(None))
      {
        OneMoreLost(lost, n, old(blocked), old(positions));
        steps := Forget(lost[n], env, g, i, steps);
      }
      assert lost[..|lost|] == lost;
    }

    // -------------------------------------------------------------- one record

    /** Record the failure of a claimed attempt: dead if it is permanent or out of attempts. */
    method TransitionFailure(tp: TopicPartition, offset: nat, key: Inbox.Key, token: nat, attempts: int,
                             permanent: bool, script: Script, now: Time,
                             ghost env: Env, ghost g: Group, ghost i: nat)
      returns (v: Verdict, ghost steps: seq<Step>)
      requires Mirrors(env, g, i, Some(Work(tp, offset, Handling(token)))) && Holding(g, token, key)
      requires key.consumer == consumer
      modifies store`rows
      ensures var bury := permanent || attempts >= maxAttempts;
        var r := if script.transition == Errs(false) then None
                 else if bury then Inbox.MarkDead(old(store.rows), store.now, key, token)
                 else Inbox.MarkRetry(old(store.rows), store.now, key, token, script.delay);
        && store.rows == Left(old(store.rows), r)
        && v == if r.None? || script.transition != Works then Stuck(key.id, now + lease, false, DatabaseError)
                else if bury then Stuck(key.id, 0, true, DeadEvent)
                else Stuck(key.id, now + script.delay, false, RetryWait)
      ensures Leads(env, g, i, steps, store.rows, committed, View(Some(Work(tp, offset, Unresolved))))
    {
      var bury := permanent || attempts >= maxAttempts;
      if script.transition == Errs(false) {
        steps := Abandons(env, g, i);
        return Stuck(key.id, now + lease, false, DatabaseError), steps;
      }
      steps := Fails(env, g, i, tp, offset, token, bury, script.delay);
      var ok;
      if bury { ok := store.MarkDead(key, token); } else { ok := store.MarkRetry(key, token, script.delay); }
      if !ok || script.transition != Works { v := Stuck(key.id, now + lease, false, DatabaseError); }
      else if bury { v := Stuck(key.id, 0, true, DeadEvent); }
      else { v := Stuck(key.id, now + script.delay, false, RetryWait); }
    }

    /** Commit the offset of a processed record. */
    method FinishRecord(tp: TopicPartition, offset: nat, key: Inbox.Key, script: Script, now: Time, ghost env: Env,
                        ghost g: Group, ghost i: nat)
      returns (v: Verdict, ghost steps: seq<Step>)
      requires Mirrors(env, g, i, Some(Work(tp, offset, Settled)))
      modifies this`committed
      ensures v == if script.offset == Works then Resolved
        else Stuck(key.id, now + maintenancePoll, false, OffsetCommit)
      ensures committed == if script.offset == Errs(false) then old(committed) else old(committed)[tp := offset + 1]
      ensures Leads(env, g, i, steps, store.rows, committed, View(After(tp, offset, v)))
    {
      steps := CommitsOffset(env, g, i, tp, offset, script.offset != Errs(false), script.offset == Works);
      if script.offset != Errs(false) { committed := committed[tp := offset + 1]; }
      if script.offset != Works { return Stuck(key.id, now + maintenancePoll, false, OffsetCommit), steps; }
      return Resolved, steps;
    }

    /** Mark the record processed and commit the handler's transaction with it. */
    method CommitHandled(tp: TopicPartition, offset: nat, key: Inbox.Key, token: nat, leaseUntil: Time, script: Script,
                         now: Time,
                         ghost env: Env, ghost g: Group, ghost i: nat)
      returns (v: Verdict, ghost steps: seq<Step>)
      requires Mirrors(env, g, i, Some(Work(tp, offset, Handling(token)))) && Holding(g, token, key)
      requires key.consumer == consumer
      modifies store`rows, this`committed
      ensures Leads(env, g, i, steps, store.rows, committed, View(After(tp, offset, v)))
      ensures
        || committed == old(committed)
        || (committed == old(committed)[tp := offset + 1] && Inbox.IsProcessed(store.rows, key))
      ensures Justified(store.rows, Some(key.id), v) && (v.Resolved? ==> committed == old(committed)[tp := offset + 1])
      ensures var held := Laws.TokenHolds(old(store.rows), key, token);
        && (!script.markFails && held && script.commit != Errs(false) ==> Inbox.IsProcessed(store.rows, key))
        && (script.markFails || !held || script.commit == Errs(false) ==> store.rows == old(store.rows))
        && (!script.markFails && held && script.commit == Works && script.offset != Errs(false) ==>
              committed == old(committed)[tp := offset + 1])
        && (v == if script.markFails || !held then Stuck(key.id, leaseUntil, false, DatabaseError)
                 else if script.commit != Works then Stuck(key.id, now + maintenancePoll, false, DatabaseError)
                 else if script.offset != Works then Stuck(key.id, now + maintenancePoll, false, OffsetCommit)
                 else Resolved)
    {
      if script.markFails {
        steps := Abandons(env, g, i);
        return Stuck(key.id, leaseUntil, false, DatabaseError), steps;
      }
      var savepoint := store.rows;
      var ok := store.MarkProcessed(key, token);
      if !ok {
        steps := Abandons(env, g, i);
        return Stuck(key.id, leaseUntil, false, DatabaseError), steps;
      }
      if script.commit == Errs(false) {
        store.rows := savepoint;
        steps := Abandons(env, g, i);
        return Stuck(key.id, now + maintenancePoll, false, DatabaseError), steps;
      }
      steps := Commits(env, g, i, tp, offset, token, script.commit == Works);
      if script.commit != Works { return Stuck(key.id, now + maintenancePoll, false, DatabaseError), steps; }
      ghost var g' := Exec(env, g, steps);
      ghost var rest;
      v, rest := FinishRecord(tp, offset, key, script, now, env, g', i);
      Follows(env, g, i, steps, rest, store.rows, committed, View(After(tp, offset, v)));
      steps := steps + rest;
    }

    /** The handler transaction of a fresh claim. */
    method Handle(tp: TopicPartition, offset: nat, key: Inbox.Key, token: nat, attempts: int, leaseUntil: Time,
                  script: Script, now: Time,
                  ghost env: Env, ghost g: Group, ghost i: nat)
      returns (v: Verdict, ghost steps: seq<Step>)
      requires Mirrors(env, g, i, Some(Work(tp, offset, Handling(token)))) && Holding(g, token, key)
      requires key.consumer == consumer
      modifies store`rows, this`committed
      ensures Leads(env, g, i, steps, store.rows, committed, View(After(tp, offset, v)))
      ensures
        || committed == old(committed)
        || (committed == old(committed)[tp := offset + 1] && Inbox.IsProcessed(store.rows, key))
      ensures Justified(store.rows, Some(key.id), v) && (v.Resolved? ==> committed == old(committed)[tp := offset + 1])
      ensures var held := Laws.TokenHolds(old(store.rows), key, token);
        && HandledAs(held, key.id, attempts, maxAttempts, leaseUntil, script, now, lease, maintenancePoll, v)
        && (Inbox.IsProcessed(store.rows, key) <==>
              Inbox.IsProcessed(old(store.rows), key) || (Ran(script) && held && script.commit != Errs(false)))
        && (Ran(script) && held && script.commit == Works && script.offset != Errs(false) ==>
              committed == old(committed)[tp := offset + 1])
    {
      if script.beginFails {
        v, steps := TransitionFailure(tp, offset, key, token, attempts, false, script, now, env, g, i);
        return;
      }
      match script.renewal {
        case LeaseLost =>
          steps := Abandons(env, g, i);
          return Stuck(key.id, now + lease, false, DatabaseError), steps;
        case RenewalFailed =>
          v, steps := TransitionFailure(tp, offset, key, token, attempts, false, script, now, env, g, i);
          return;
        case Renewed =>
      }
      if script.handler.Failed? {
        var permanent := script.handler.permanent;
        v, steps := TransitionFailure(tp, offset, key, token, attempts, permanent, script, now, env, g, i);
        return;
      }
      v, steps := CommitHandled(tp, offset, key, token, leaseUntil, script, now, env, g, i);
    }

    /** The record the group's worker is left with: none once it is resolved. */
    static function After(tp: TopicPartition, offset: nat, v: Verdict): Option<Work> {
      if v.Resolved? then None else Some(Work(tp, offset, Unresolved))
    }

    /** The verdict matches the event's row: resolved and offset-commit mean processed, dead
        means dead, a retry wait means neither, and only an unreadable identity or a dead
        event blocks for good. */
    predicate Justified(rows: Inbox.Rows, identity: Option<Id>, v: Verdict) {
      match identity
      case None => v == Stuck(Inbox.NIL, 0, true, ProtocolError)
      case Some(id) =>
        var key := Inbox.Key(consumer, id);
        match v
        case Resolved => Inbox.IsProcessed(rows, key)
        case Stuck(named, _, permanent, reason) =>
          && named == id && (permanent <==> reason == DeadEvent) && reason != ProtocolError
          && (reason == DeadEvent ==> key in rows && rows[key].status == Inbox.Dead)
          && (reason == RetryWait ==>
                key in rows && rows[key].status != Inbox.Dead && rows[key].status != Inbox.Processed)
          && (reason == OffsetCommit ==> Inbox.IsProcessed(rows, key))
    }

    function RequestOf(tp: TopicPartition, offset: nat, id: Id): Inbox.Request {
      Inbox.Request(Inbox.Key(consumer, id), Inbox.Source(tp.topic, tp.partition, offset), None, name, lease)
    }

    /** The claim of this record is complete and no other event came from it. */
    ghost predicate Heard(rows: Inbox.Rows, tp: TopicPartition, offset: nat, id: Id) {
      Laws.Complete(RequestOf(tp, offset, id)) && !Laws.Disputed(rows, RequestOf(tp, offset, id))
    }

    /** A record is resolved exactly when it is readable, its claim is heard and answered, its
        offset commit works, and its event was processed before or is free and processed now. */
    ghost predicate Resolves(rows: Inbox.Rows, at: Time, tp: TopicPartition, offset: nat, identity: Option<Id>,
                             script: Script)
    {
      && identity.Some? && Heard(rows, tp, offset, identity.value) && script.claim == Works && script.offset == Works
      && var key := Inbox.Key(consumer, identity.value);
         || Laws.InState(rows, key, Inbox.Processed)
         || (Laws.Free(rows, key, at) && Ran(script) && script.commit == Works)
    }

    /** How a record that stays unresolved is answered, and when it is looked at again. */
    ghost predicate AnsweredAs(rows: Inbox.Rows, at: Time, tp: TopicPartition, offset: nat, id: Id, script: Script,
                               now: Time, v: Verdict)
    {
      var key := Inbox.Key(consumer, id);
      var heard := script.claim == Works && Heard(rows, tp, offset, id);
      && (!heard ==> v == Stuck(id, now + maintenancePoll, false, DatabaseError))
      && (heard && Laws.InState(rows, key, Inbox.Dead) ==> v == Stuck(id, 0, true, DeadEvent))
      && (heard && Laws.InState(rows, key, Inbox.Processed) && script.offset != Works ==>
            v == Stuck(id, now + maintenancePoll, false, OffsetCommit))
      && (heard && key in rows && !Laws.Free(rows, key, at) && rows[key].status != Inbox.Dead
          && rows[key].status != Inbox.Processed ==>
            && v.Stuck? && v.id == id && !v.permanent && v.reason == RetryWait
            && v.at == if rows[key].leaseUntil.Some? then Max(rows[key].availableAt, rows[key].leaseUntil.value)
                       else rows[key].availableAt)
      && (heard && Laws.Free(rows, key, at) ==>
            var attempts := (if key in rows then rows[key].attempts else 0) + 1;
            HandledAs(true, id, attempts, maxAttempts, at + Whole(lease), script, now, lease, maintenancePoll, v))
    }

    /** The verdict follows from the answer to the claim. */
    predicate Followed(id: Id, result: Inbox.ClaimResult, script: Script, now: Time, v: Verdict) {
      match result
      case AlreadyProcessed =>
        v == if script.offset == Works then Resolved else Stuck(id, now + maintenancePoll, false, OffsetCommit)
      case ClaimDead => v == Stuck(id, 0, true, DeadEvent)
      case Waiting(resumeAt) => v == Stuck(id, resumeAt, false, RetryWait)
      case Claimed(attempts, until) =>
        HandledAs(true, id, attempts, maxAttempts, until, script, now, lease, maintenancePoll, v)
      case _ => v == Stuck(id, now + maintenancePoll, false, DatabaseError)
    }

    lemma FollowedIsAnswered(rows: Inbox.Rows, at: Time, tp: TopicPartition, offset: nat, id: Id, q: Inbox.Request,
                             token: nat, script: Script, now: Time, v: Verdict)
      requires script.claim == Works && q == RequestOf(tp, offset, id).(timestamp := q.timestamp)
      requires Followed(id, Inbox.Claim(rows, at, q, token).1, script, now, v)
      ensures AnsweredAs(rows, at, tp, offset, id, script, now, v)
      ensures v.Resolved? <==> Resolves(rows, at, tp, offset, Some(id), script)
    {
      Laws.ClaimAnswers(rows, at, q, token);
    }

    /** Go on as the answer to the claim says. */
    method OnClaim(tp: TopicPartition, offset: nat, key: Inbox.Key, token: nat, result: Inbox.ClaimResult,
                   script: Script, now: Time,
                   ghost env: Env, ghost g: Group, ghost i: nat)
      returns (v: Verdict, ghost steps: seq<Step>)
      requires Mirrors(env, g, i, Some(Work(tp, offset, ClaimPhase(result, token)))) && key.consumer == consumer
      requires Answers(store.rows, key, result, token) && (result.Claimed? ==> Holding(g, token, key))
      modifies store`rows, this`committed
      ensures Leads(env, g, i, steps, store.rows, committed, View(After(tp, offset, v)))
      ensures
        || committed == old(committed)
        || (committed == old(committed)[tp := offset + 1] && Inbox.IsProcessed(store.rows, key))
      ensures Justified(store.rows, Some(key.id), v) && (v.Resolved? ==> committed == old(committed)[tp := offset + 1])
      ensures Followed(key.id, result, script, now, v)
    {
      steps := Stays(env, g, i);
      match result
      case AlreadyProcessed =>
        v, steps := FinishRecord(tp, offset, key, script, now, env, g, i);
      case ClaimDead =>
        v := Stuck(key.id, 0, true, DeadEvent);
      case Waiting(resumeAt) =>
        v := Stuck(key.id, resumeAt, false, RetryWait);
      case Claimed(attempts, leaseUntil) =>
        v, steps := Handle(tp, offset, key, token, attempts, leaseUntil, script, now, env, g, i);
      case _ =>
        v := Stuck(key.id, now + maintenancePoll, false, DatabaseError);
    }

    /** Take one polled record from claim to offset commit. */
    method Process(tp: TopicPartition, offset: nat, timestamp: Option<Time>, identity: Option<Id>, token: nat,
                   script: Script, now: Time,
                   ghost env: Env, ghost g: Group, ghost i: nat)
      returns (v: Verdict, ghost steps: seq<Step>)
      requires Mirrors(env, g, i, Some(Work(tp, offset, Polled))) && identity == env.identity(tp, offset)
      requires token == |g.inbox.claims|
      modifies store`rows, this`committed
      ensures Leads(env, g, i, steps, store.rows, committed, View(After(tp, offset, v)))
      ensures
        || committed == old(committed)
        || (committed == old(committed)[tp := offset + 1] && Done(env, store.rows, tp, offset))
      ensures Justified(store.rows, identity, v) && (v.Resolved? ==> committed == old(committed)[tp := offset + 1])
      ensures v.Resolved? <==> Resolves(old(store.rows), store.now, tp, offset, identity, script)
      ensures identity.Some? ==> AnsweredAs(old(store.rows), store.now, tp, offset, identity.value, script, now, v)
    {
      if identity.None? {
        steps := Abandons(env, g, i);
        return Stuck(Inbox.NIL, 0, true, ProtocolError), steps;
      }
      var key := Inbox.Key(consumer, identity.value);
      if script.claim == Errs(false) {
        steps := Abandons(env, g, i);
        return Stuck(key.id, now + maintenancePoll, false, DatabaseError), steps;
      }
      var request := Inbox.Request(key, Inbox.Source(tp.topic, tp.partition, offset), timestamp, name, lease);
      steps := Claims(env, g, i, tp, offset, request, script.claim == Works);
      ClaimAnswers(store.rows, store.now, request, token);
      var result := store.Claim(request, token);
      if script.claim != Works { return Stuck(key.id, now + maintenancePoll, false, DatabaseError), steps; }
      ghost var rest;
      v, rest := OnClaim(tp, offset, key, token, result, script, now, env, Exec(env, g, steps), i);
      FollowedIsAnswered(old(store.rows), store.now, tp, offset, key.id, request, token, script, now, v);
      Follows(env, g, i, steps, rest, store.rows, committed, View(After(tp, offset, v)));
      steps := steps + rest;
    }

    /** The partition is blocked at this record as its answer says. */
    ghost predicate BlockedAs(rows: Inbox.Rows, tp: TopicPartition, offset: nat, id: Id, script: Script, now: Time)
      requires tp in blocked
      reads this, store
    {
      var b := blocked[tp];
      && b.tp == tp && b.offset == offset
      && AnsweredAs(rows, store.now, tp, offset, id, script, now, Stuck(b.id, b.resumeAt, b.permanent, b.reason))
    }

    /** Process a polled record, and rewind and block its partition if it stays unresolved. */
    method Turn(tp: TopicPartition, offset: nat, timestamp: Option<Time>, identity: Option<Id>, token: nat,
                script: Script, now: Time,
                ghost env: Env, ghost g: Group, ghost i: nat)
      returns (resolved: bool, ghost steps: seq<Step>)
      requires Valid() && Mirrors(env, g, i, Some(Work(tp, offset, Polled))) && identity == env.identity(tp, offset)
      requires token == |g.inbox.claims|
      requires tp in positions && tp !in blocked
      modifies store`rows, this
      ensures Valid() && Leads(env, g, i, steps, store.rows, committed, View(None))
      ensures resolved <==> Resolves(old(store.rows), store.now, tp, offset, identity, script)
      ensures identity.None? ==>
        !resolved && tp in blocked && blocked[tp] == Blocked(tp, offset, Inbox.NIL, 0, true, ProtocolError)
      ensures !resolved && identity.Some? ==>
        tp in blocked && BlockedAs(old(store.rows), tp, offset, identity.value, script, now)
      ensures resolved ==>
        committed == old(committed)[tp := offset + 1] && positions == old(positions) && blocked == old(blocked)
      ensures !resolved ==>
        positions == old(positions)[tp := offset] && tp in blocked && blocked == old(blocked)[tp := blocked[tp]]
    {
      var v;
      v, steps := Process(tp, offset, timestamp, identity, token, script, now, env, g, i);
      if v.Resolved? { return true, steps; }
      steps := GivesUp(env, g, i, steps, store.rows, committed, View(After(tp, offset, v)));
      Hold(tp, Blocked(tp, offset, v.id, v.at, v.permanent, v.reason));
      return false, steps;
    }

    /** One round of the worker's loop: poll the next record of a partition that is not
        paused, process it, and block the partition if the record stays unresolved. */
    method Round(tp: TopicPartition, offset: nat, timestamp: Option<Time>, identity: Option<Id>, token: nat,
                 script: Script, now: Time,
                 ghost env: Env, ghost g: Group, ghost i: nat)
      returns (resolved: bool, ghost steps: seq<Step>)
      requires Valid() && Mirrors(env, g, i, None) && identity == env.identity(tp, offset) && token == |g.inbox.claims|
      requires tp in positions && tp !in paused && IsNext(env, positions[tp], tp, offset)
      modifies store`rows, this
      ensures Valid() && Leads(env, g, i, steps, store.rows, committed, View(None))
      ensures resolved <==> Resolves(old(store.rows), store.now, tp, offset, identity, script)
      ensures identity.None? ==>
        !resolved && tp in blocked && blocked[tp] == Blocked(tp, offset, Inbox.NIL, 0, true, ProtocolError)
      ensures !resolved && identity.Some? ==>
        tp in blocked && BlockedAs(old(store.rows), tp, offset, identity.value, script, now)
      ensures resolved ==>
        committed == old(committed)[tp := offset + 1]
        && positions == old(positions)[tp := offset + 1] && blocked == old(blocked)
      ensures !resolved ==>
        positions == old(positions)[tp := offset] && tp in blocked && blocked == old(blocked)[tp := blocked[tp]]
    {
      ghost var before := Polls(env, g, i, tp, offset);
      positions := positions[tp := offset + 1];
      ghost var after;
      resolved, after := Turn(tp, offset, timestamp, identity, token, script, now, env, Exec(env, g, before), i);
      Follows(env, g, i, before, after, store.rows, committed, View(None));
      steps := before + after;
    }
  }

  /** Whatever a worker's methods lead to from a reachable group is reachable, so everything
      below the offsets they leave committed has been processed, once each. */
  lemma WorkersCommitWhatIsProcessed(env: Env, g: Group, i: nat, steps: seq<Step>, rows: Inbox.Rows, committed: Offsets,
                                     worker: Consumer.Worker, tp: TopicPartition, offset: nat)
    requires Reachable(env, g) && Leads(env, g, i, steps, rows, committed, worker)
    requires tp in committed && offset < committed[tp] && env.record(tp, offset)
    ensures Reachable(env, Exec(env, g, steps))
    ensures env.identity(tp, offset).Some?
    ensures Inbox.IsProcessed(rows, Inbox.Key(env.consumer, env.identity(tp, offset).value))
    ensures |Inbox.EffectsOn(Exec(env, g, steps).inbox, Inbox.Key(env.consumer, env.identity(tp, offset).value))| == 1
  {
    var now, size, start :| g == Exec(env, Init(now, size), start);
    Joined(env, Init(now, size), start, steps);
    CommittedRecordsAreProcessed(env, Exec(env, g, steps), tp, offset);
  }
}
