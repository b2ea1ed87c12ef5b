/** Relay.handle and onPublishFailure as they are written, over the store object. Every
    path through them is a path of handler steps of the protocol that leaves the database
    as the store has it and the handler returned. */
module Handler {
  import opened Types
  import opened Tables
  import opened Protocol
  import opened OutboxLaws
  import Backoff
  import S = Store

  /** What Publish reports. */
  datatype Reply = Acknowledged | Refused(permanent: bool, deadline: bool)

  /** How the outside behaves while one event is handled: the failure hooks, the call that
      begins the attempt, whether its record lands before Publish returns, the reply, a
      shutdown, the call that records the result, and the jitter sample. */
  datatype Script = Script(claimHookFails: bool, begin: Call, lands: bool, reply: Reply, ackHookFails: bool,
                           shutdown: bool, mark: Call, sample: real)

  function RetryDelay(env: Env, x: Handler, script: Script): Time {
    Backoff.RelayDelay(x.attempts, env.cfg(x.owner).baseDelay, env.cfg(x.owner).maxDelay, script.sample)
  }

  // ---------------------------------------------------------------- the path a script leads to

  /** A result whose statement took effect is recorded, whatever its call then reported. */
  function Recorded(script: Script, h: nat, mark: Step): Step {
    if script.mark == Errs(false) then Abandon(h) else mark
  }

  function FailurePath(env: Env, x: Handler, permanent: bool, deadline: bool, script: Script, h: nat): seq<Step> {
    [Fail(h, permanent),
     if script.shutdown && !deadline then Abandon(h)
     else if permanent || x.attempts >= env.cfg(x.owner).maxAttempts then Recorded(script, h, Step.MarkDead(h))
     else Recorded(script, h, Step.MarkRetry(h, RetryDelay(env, x, script)))]
  }

  function ReplyPath(env: Env, x: Handler, script: Script, h: nat): seq<Step> {
    match script.reply
    case Refused(permanent, deadline) => FailurePath(env, x, permanent, deadline, script, h)
    case Acknowledged =>
      [Ack(h), if script.ackHookFails then Abandon(h) else Recorded(script, h, Step.MarkDelivered(h))]
  }

  function PublishPath(env: Env, x: Handler, script: Script, h: nat): seq<Step> {
    (if script.lands then [Append(h)] else []) + ReplyPath(env, x, script, h)
  }

  /** An attempt recorded by a call that then reported an error sends nothing. */
  function AttemptPath(env: Env, db: Db, x: Handler, script: Script, h: nat): seq<Step> {
    var begun := BeginResult(env, db, x);
    if script.begin == Errs(false) then [Abandon(h)]
    else if begun.None? then [Begin(h)]
    else if script.begin == Errs(true) then [Begin(h), Fail(h, false), Abandon(h)]
    else [Begin(h)] + PublishPath(env, x.(attempts := begun.value.events[x.id].attempts), script, h)
  }

  function Path(env: Env, db: Db, x: Handler, script: Script, h: nat): seq<Step> {
    if script.claimHookFails then [Abandon(h)]
    else if x.attempts >= env.cfg(x.owner).maxAttempts then [Recorded(script, h, Step.MarkDead(h))]
    else AttemptPath(env, db, x, script, h)
  }

  // ---------------------------------------------------------------- what becomes of the event

  /** An attempt of this handler would be counted: the row is its Relay's and has attempts left,
      and an ordered row is leased, in the handler's epoch, for the whole publish window. */
  predicate MayBegin(env: Env, db: Db, x: Handler) {
    && HeldBy(db, x.id, x.owner) && db.events[x.id].attempts < env.cfg(x.owner).maxAttempts
    && (x.slot.Some? ==>
          && LeaseRuns(db, x.id)
          && InEpoch(db, x.id, x.owner, x.epoch,
                     db.now + Whole(env.cfg(x.owner).publishTimeout + env.cfg(x.owner).safetyMargin)))
  }

  /** A result of this handler would be recorded. */
  predicate MayRecord(db: Db, x: Handler) {
    && HeldBy(db, x.id, x.owner)
    && (x.slot.Some? ==>
          db.events[x.id].sequence == Some(x.slot.value.sequence) && InEpoch(db, x.id, x.owner, x.epoch, db.now + 1))
  }

  /** A delivery would move the stream on. */
  predicate MayAdvance(db: Db, x: Handler) {
    MayRecord(db, x) && (x.slot.Some? ==> LeaseRuns(db, x.id) && AtItsCursor(db, x.id, x.slot.value.sequence))
  }

  /** The event's row before and after, when nothing but that row and perhaps its cursor moves. */
  predicate RowBecomes(db: Db, db': Db, x: Handler, attempts: int, status: Status) {
    && x.id in db.events && OnlyRow(db, db'.(streams := db.streams), x.id)
    && db'.events[x.id].status == status && db'.events[x.id].attempts == attempts
  }

  /** What handling an event does to its row, by what happened outside: delivered, buried, put
      back with a delay, left inflight with one more attempt counted, or left as it was. */
  ghost predicate Outcome(env: Env, db: Db, db': Db, x: Handler, script: Script) {
    var limit := env.cfg(x.owner).maxAttempts;
    var handled := !script.claimHookFails;
    var begins := handled && x.attempts < limit && script.begin != Errs(false) && MayBegin(env, db, x);
    var answered := begins && script.begin == Works && script.mark != Errs(false);
    var failed := answered && script.reply.Refused? && (script.reply.deadline || !script.shutdown) && MayRecord(db, x);
    var delivers := answered && script.reply == Acknowledged && !script.ackHookFails && MayAdvance(db, x);
    var count := if x.id in db.events then db.events[x.id].attempts + (if begins then 1 else 0) else 0;
    var hopeless := count >= limit || (script.reply.Refused? && script.reply.permanent);
    var spent := handled && x.attempts >= limit && script.mark != Errs(false) && MayRecord(db, x);
    var buries := spent || (failed && hopeless);
    var retries := failed && !hopeless;
    && (delivers ==>
          && RowBecomes(db, db', x, count, Delivered) && db'.events[x.id].deliveredAt == Some(db.now)
          && (if x.slot.Some?
              then CursorMoves(db, db', StreamKey(db.events[x.id].destination, db.events[x.id].key.value))
              else db'.streams == db.streams))
    && (buries ==> RowBecomes(db, db', x, count, Dead) && db'.streams == db.streams)
    && (retries ==>
          && RowBecomes(db, db', x, count, Pending) && db'.streams == db.streams
          && db'.events[x.id].availableAt == db.now + Whole(RetryDelay(env, x.(attempts := count), script)))
    && (!delivers && !buries && !retries && begins ==>
          && RowBecomes(db, db', x, count, Inflight) && db'.streams == db.streams
          && SameLease(db.events[x.id], db'.events[x.id]))
    && (!delivers && !buries && !retries && !begins ==> db' == db)
  }

  function Marked(script: Script, db: Db, result: Option<Db>): Db {
    if script.mark == Errs(false) then db else Left(db, result)
  }

  function AfterReply(env: Env, db: Db, x: Handler, script: Script): Db {
    match script.reply
    case Acknowledged => if script.ackHookFails then db else Marked(script, db, DeliveredResult(db, x))
    case Refused(permanent, deadline) =>
      if script.shutdown && !deadline then db
      else if permanent || x.attempts >= env.cfg(x.owner).maxAttempts then Marked(script, db, DeadResult(db, x))
      else Marked(script, db, RetryResult(db, x, RetryDelay(env, x, script)))
  }

  function AfterAttempt(env: Env, db: Db, x: Handler, script: Script): Db {
    var begun := BeginResult(env, db, x);
    if script.begin == Errs(false) || begun.None? then db
    else if script.begin == Errs(true) then begun.value
    else AfterReply(env, begun.value, x.(attempts := begun.value.events[x.id].attempts), script)
  }

  lemma BeginsIff(env: Env, db: Db, x: Handler)
    ensures BeginResult(env, db, x).Some? <==> MayBegin(env, db, x)
    ensures MayBegin(env, db, x) ==>
      var db' := BeginResult(env, db, x).value;
      && OnlyRow(db, db', x.id) && SameLease(db.events[x.id], db'.events[x.id])
      && db'.events[x.id].attempts == db.events[x.id].attempts + 1
  {
    var c := env.cfg(x.owner);
    OrderedAttemptBeginsIff(db, x.id, x.owner, x.epoch, c.maxAttempts, c.PublishWindow());
    UnorderedAttemptBeginsIff(db, x.id, x.owner, c.maxAttempts);
  }

  lemma RecordsIff(db: Db, x: Handler, delay: Time)
    ensures DeadResult(db, x).Some? <==> MayRecord(db, x)
    ensures MayRecord(db, x) ==>
      OnlyRow(db, DeadResult(db, x).value, x.id) && Buried(db.events[x.id], DeadResult(db, x).value.events[x.id])
    ensures RetryResult(db, x, delay).Some? <==> MayRecord(db, x)
    ensures MayRecord(db, x) ==>
      var db' := RetryResult(db, x, delay).value;
      OnlyRow(db, db', x.id) && RetriedAt(db.events[x.id], db'.events[x.id], db.now + Whole(delay))
  {
    if x.slot.Some? {
      OrderedBurialIff(db, x.id, x.owner, x.epoch, x.slot.value.sequence);
      OrderedRetryIff(db, x.id, x.owner, x.epoch, x.slot.value.sequence, delay);
    } else {
      UnorderedResultsIff(db, x.id, x.owner, delay);
    }
  }

  lemma DeliversIff(db: Db, x: Handler)
    ensures DeliveredResult(db, x).Some? <==> MayAdvance(db, x)
    ensures MayAdvance(db, x) ==>
      var db' := DeliveredResult(db, x).value;
      && OnlyRow(db, db'.(streams := db.streams), x.id) && DeliveredAt(db.events[x.id], db'.events[x.id], db.now)
      && (if x.slot.Some?
          then CursorMoves(db, db', StreamKey(db.events[x.id].destination, db.events[x.id].key.value))
          else db'.streams == db.streams)
  {
    if x.slot.Some? {
      OrderedDeliveryIff(db, x.id, x.owner, x.epoch, x.slot.value.sequence);
    } else {
      UnorderedResultsIff(db, x.id, x.owner, 0);
    }
  }

  /** Counting an attempt changes nothing a result asks for. */
  lemma BegunStillRecords(db: Db, db': Db, x: Handler)
    requires OnlyRow(db, db', x.id) && SameLease(db.events[x.id], db'.events[x.id])
    ensures MayRecord(db', x) == MayRecord(db, x) && MayAdvance(db', x) == MayAdvance(db, x)
  {}

  /** The attempt has begun and the broker's reply is being acted on. */
  ghost predicate Replying(env: Env, db: Db, begun: Db, x: Handler, script: Script) {
    && script.begin == Works && !script.claimHookFails && x.attempts < env.cfg(x.owner).maxAttempts
    && MayBegin(env, db, x) && OnlyRow(db, begun, x.id) && SameLease(db.events[x.id], begun.events[x.id])
    && begun.events[x.id].attempts == db.events[x.id].attempts + 1
  }

  lemma AcknowledgedOutcome(env: Env, db: Db, begun: Db, x: Handler, script: Script)
    requires Replying(env, db, begun, x, script) && script.reply == Acknowledged
    ensures Outcome(env, db, AfterReply(env, begun, x.(attempts := begun.events[x.id].attempts), script), x, script)
  {
    BegunStillRecords(db, begun, x);
    DeliversIff(begun, x.(attempts := begun.events[x.id].attempts));
  }

  lemma RefusedOutcome(env: Env, db: Db, begun: Db, x: Handler, script: Script)
    requires Replying(env, db, begun, x, script) && script.reply.Refused?
    ensures Outcome(env, db, AfterReply(env, begun, x.(attempts := begun.events[x.id].attempts), script), x, script)
  {
    var y := x.(attempts := begun.events[x.id].attempts);
    BegunStillRecords(db, begun, x);
    RecordsIff(begun, y, RetryDelay(env, y, script));
  }

  lemma ReplyOutcome(env: Env, db: Db, x: Handler, script: Script)
    requires script.begin == Works && !script.claimHookFails
    requires x.attempts < env.cfg(x.owner).maxAttempts && MayBegin(env, db, x)
    ensures Outcome(env, db, AfterAttempt(env, db, x, script), x, script)
  {
    BeginsIff(env, db, x);
    var begun := BeginResult(env, db, x).value;
    if script.reply.Refused? {
      RefusedOutcome(env, db, begun, x, script);
    } else {
      AcknowledgedOutcome(env, db, begun, x, script);
    }
  }

  lemma AttemptOutcome(env: Env, db: Db, x: Handler, script: Script)
    requires !script.claimHookFails && x.attempts < env.cfg(x.owner).maxAttempts
    ensures Outcome(env, db, AfterAttempt(env, db, x, script), x, script)
  {
    BeginsIff(env, db, x);
    if script.begin == Works && MayBegin(env, db, x) { ReplyOutcome(env, db, x, script); }
  }

  lemma BurialOutcome(env: Env, db: Db, x: Handler, script: Script)
    requires !script.claimHookFails && x.attempts >= env.cfg(x.owner).maxAttempts
    ensures Outcome(env, db, Marked(script, db, DeadResult(db, x)), x, script)
  {
    RecordsIff(db, x, 0);
  }

  // ---------------------------------------------------------------- paths of the protocol

  /** The steps one handler takes. */
  predicate OwnStep(step: Step, h: nat) {
    step in {Begin(h), Append(h), Ack(h), Step.MarkDelivered(h), Step.MarkDead(h), Abandon(h)}
    || (step.Fail? && step.h == h) || (step.MarkRetry? && step.h == h)
  }

  /** These steps of the handler lead to a world with this database where it has returned. */
  ghost predicate Returns(env: Env, w: World, h: nat, steps: seq<Step>, db: Db) {
    && (forall i :: 0 <= i < |steps| ==> OwnStep(steps[i], h))
    && Exec(env, w, steps).db == db
    && h < |Exec(env, w, steps).handlers| && Exec(env, w, steps).handlers[h].phase == Finished
  }

  lemma Single(env: Env, w: World, step: Step)
    ensures Exec(env, w, [step]) == Apply(env, w, step)
  {
    assert [step][1..] == [];
    assert Exec(env, Apply(env, w, step), []) == Apply(env, w, step);
  }

  lemma Chain(env: Env, w: World, h: nat, step: Step, rest: seq<Step>, db: Db)
    requires OwnStep(step, h) && Returns(env, Apply(env, w, step), h, rest, db)
    ensures Returns(env, w, h, [step] + rest, db)
  {
    assert ([step] + rest)[1..] == rest;
  }

  lemma AfterBegin(env: Env, w: World, h: nat, rest: seq<Step>, db: Db)
    requires Returns(env, StepBegin(env, w, h), h, rest, db)
    ensures Returns(env, w, h, [Begin(h)] + rest, db)
  {
    Chain(env, w, h, Begin(h), rest, db);
  }

  lemma AfterAppend(env: Env, w: World, h: nat, rest: seq<Step>, db: Db)
    requires Returns(env, StepAppend(w, h), h, rest, db)
    ensures Returns(env, w, h, [Append(h)] + rest, db)
  {
    Chain(env, w, h, Append(h), rest, db);
  }

  lemma AfterAck(env: Env, w: World, h: nat, rest: seq<Step>, db: Db)
    requires Returns(env, StepAck(w, h), h, rest, db)
    ensures Returns(env, w, h, [Ack(h)] + rest, db)
  {
    Chain(env, w, h, Ack(h), rest, db);
  }

  lemma AfterFail(env: Env, w: World, h: nat, permanent: bool, rest: seq<Step>, db: Db)
    requires Returns(env, StepFail(w, h, permanent), h, rest, db)
    ensures Returns(env, w, h, [Fail(h, permanent)] + rest, db)
  {
    Chain(env, w, h, Fail(h, permanent), rest, db);
  }

  /** Return without recording anything. */
  lemma Abandoned(env: Env, w: World, h: nat)
    requires Running(w, h) && w.handlers[h].phase != Publishing
    ensures Returns(env, w, h, [Abandon(h)], w.db)
  {
    Single(env, w, Abandon(h));
  }

  /** The database a result leaves: its own if the fence held, the old one otherwise. */
  function Left(db: Db, result: Option<Db>): Db {
    if result.Some? then result.value else db
  }

  /** The handler has returned, and its database is this one. */
  predicate Ended(w: World, h: nat, db: Db) {
    w.db == db && h < |w.handlers| && w.handlers[h].phase == Finished
  }

  lemma OneStep(env: Env, w: World, h: nat, step: Step, db: Db)
    requires OwnStep(step, h) && HandlerStep(step) && Ended(ApplyHandler(env, w, step), h, db)
    ensures Returns(env, w, h, [step], db)
  {
    assert Apply(env, w, step) == ApplyHandler(env, w, step);
    Single(env, w, step);
  }

  lemma DeadEnds(env: Env, w: World, h: nat)
    requires Running(w, h) && MayBury(env, w.handlers[h])
    ensures Ended(StepMarkDead(env, w, h), h, Left(w.db, DeadResult(w.db, w.handlers[h])))
  {}

  lemma RetryEnds(env: Env, w: World, h: nat, delay: Time)
    requires Running(w, h) && MayRetry(env, w.handlers[h])
    ensures Ended(StepMarkRetry(env, w, h, delay), h, Left(w.db, RetryResult(w.db, w.handlers[h], delay)))
  {}

  lemma DeliveredEnds(w: World, h: nat)
    requires Running(w, h) && w.handlers[h].phase == Acked
    ensures Ended(StepMarkDelivered(w, h), h, Left(w.db, DeliveredResult(w.db, w.handlers[h])))
  {}

  lemma DeadReturns(env: Env, w: World, h: nat)
    requires Running(w, h) && MayBury(env, w.handlers[h])
    ensures Returns(env, w, h, [Step.MarkDead(h)], Left(w.db, DeadResult(w.db, w.handlers[h])))
  {
    DeadEnds(env, w, h);
    OneStep(env, w, h, Step.MarkDead(h), Left(w.db, DeadResult(w.db, w.handlers[h])));
  }

  lemma RetryReturns(env: Env, w: World, h: nat, delay: Time)
    requires Running(w, h) && MayRetry(env, w.handlers[h])
    ensures Returns(env, w, h, [Step.MarkRetry(h, delay)], Left(w.db, RetryResult(w.db, w.handlers[h], delay)))
  {
    RetryEnds(env, w, h, delay);
    OneStep(env, w, h, Step.MarkRetry(h, delay), Left(w.db, RetryResult(w.db, w.handlers[h], delay)));
  }

  lemma DeliveredReturns(env: Env, w: World, h: nat)
    requires Running(w, h) && w.handlers[h].phase == Acked
    ensures Returns(env, w, h, [Step.MarkDelivered(h)], Left(w.db, DeliveredResult(w.db, w.handlers[h])))
  {
    DeliveredEnds(w, h);
    OneStep(env, w, h, Step.MarkDelivered(h), Left(w.db, DeliveredResult(w.db, w.handlers[h])));
  }

  method RecordDead(store: S.Store, x: Handler)
    modifies store
    ensures store.View() == Left(old(store.View()), DeadResult(old(store.View()), x))
  {
    var ok;
    if x.slot.Some? {
      ok := store.MarkOrderedDead(x.id, x.owner, x.epoch, x.slot.value.sequence);
    } else {
      ok := store.MarkDead(x.id, x.owner);
    }
  }

  method RecordRetry(store: S.Store, x: Handler, delay: Time)
    modifies store
    ensures store.View() == Left(old(store.View()), RetryResult(old(store.View()), x, delay))
  {
    var ok;
    if x.slot.Some? {
      ok := store.MarkOrderedRetry(x.id, x.owner, x.epoch, x.slot.value.sequence, delay);
    } else {
      ok := store.MarkRetry(x.id, x.owner, delay);
    }
  }

  method RecordDelivered(store: S.Store, x: Handler)
    modifies store
    ensures store.View() == Left(old(store.View()), DeliveredResult(old(store.View()), x))
  {
    var ok;
    if x.slot.Some? {
      ok := store.MarkOrderedDelivered(x.id, x.owner, x.epoch, x.slot.value.sequence);
    } else {
      ok := store.MarkDelivered(x.id, x.owner);
    }
  }

  method MarkDead(env: Env, store: S.Store, x: Handler, script: Script, ghost w: World, ghost h: nat)
    returns (ghost steps: seq<Step>)
    requires store.View() == w.db && Running(w, h) && w.handlers[h] == x && MayBury(env, x)
    modifies store
    ensures steps == [Recorded(script, h, Step.MarkDead(h))] && Returns(env, w, h, steps, store.View())
    ensures store.View() == Marked(script, w.db, DeadResult(w.db, x))
  {
    if script.mark == Errs(false) {
      Abandoned(env, w, h);
      return [Abandon(h)];
    }
    RecordDead(store, x);
    DeadReturns(env, w, h);
    return [Step.MarkDead(h)];
  }

  method MarkRetry(env: Env, store: S.Store, x: Handler, script: Script, ghost w: World, ghost h: nat)
    returns (ghost steps: seq<Step>)
    requires store.View() == w.db && Running(w, h) && w.handlers[h] == x && MayRetry(env, x)
    modifies store
    ensures steps == [Recorded(script, h, Step.MarkRetry(h, RetryDelay(env, x, script)))]
    ensures Returns(env, w, h, steps, store.View())
    ensures store.View() == Marked(script, w.db, RetryResult(w.db, x, RetryDelay(env, x, script)))
  {
    if script.mark == Errs(false) {
      Abandoned(env, w, h);
      return [Abandon(h)];
    }
    var delay := RetryDelay(env, x, script);
    RecordRetry(store, x, delay);
    RetryReturns(env, w, h, delay);
    return [Step.MarkRetry(h, delay)];
  }

  method MarkDelivered(env: Env, store: S.Store, x: Handler, script: Script, ghost w: World, ghost h: nat)
    returns (ghost steps: seq<Step>)
    requires store.View() == w.db && Running(w, h) && w.handlers[h] == x && x.phase == Acked
    modifies store
    ensures steps == [if script.ackHookFails then Abandon(h) else Recorded(script, h, Step.MarkDelivered(h))]
    ensures Returns(env, w, h, steps, store.View())
    ensures store.View() == if script.ackHookFails then w.db else Marked(script, w.db, DeliveredResult(w.db, x))
  {
    if script.ackHookFails || script.mark == Errs(false) {
      Abandoned(env, w, h);
      return [Abandon(h)];
    }
    RecordDelivered(store, x);
    DeliveredReturns(env, w, h);
    return [Step.MarkDelivered(h)];
  }

  /** A failed publish: left inflight on shutdown, dead if permanent or out of attempts,
      and otherwise retried. */
  method OnPublishFailure(env: Env, store: S.Store, x: Handler, permanent: bool, deadline: bool, script: Script,
                          ghost w: World, ghost h: nat)
    returns (ghost steps: seq<Step>)
    requires store.View() == w.db && Running(w, h) && w.handlers[h] == x && x.phase == Publishing
    modifies store
    ensures steps == FailurePath(env, x, permanent, deadline, script, h) && Returns(env, w, h, steps, store.View())
    ensures store.View() == AfterReply(env, w.db, x, script.(reply := Refused(permanent, deadline)))
  {
    var failed := x.(phase := Failed(permanent));
    ghost var w' := StepFail(w, h, permanent);
    ghost var rest;
    if script.shutdown && !deadline {
      Abandoned(env, w', h);
      rest := [Abandon(h)];
    } else if permanent || x.attempts >= env.cfg(x.owner).maxAttempts {
      rest := MarkDead(env, store, failed, script, w', h);
    } else {
      rest := MarkRetry(env, store, failed, script, w', h);
    }
    AfterFail(env, w, h, permanent, rest, store.View());
    steps := [Fail(h, permanent)] + rest;
  }

  /** Act on the reply of a Publish call. */
  method OnReply(env: Env, store: S.Store, x: Handler, script: Script, ghost w: World, ghost h: nat)
    returns (ghost steps: seq<Step>)
    requires store.View() == w.db && Running(w, h) && w.handlers[h] == x && x.phase == Publishing
    requires script.reply == Acknowledged ==> x.appended
    modifies store
    ensures steps == ReplyPath(env, x, script, h) && Returns(env, w, h, steps, store.View())
    ensures store.View() == AfterReply(env, w.db, x, script)
  {
    match script.reply {
      case Refused(permanent, deadline) =>
        steps := OnPublishFailure(env, store, x, permanent, deadline, script, w, h);
      case Acknowledged =>
        ghost var rest := MarkDelivered(env, store, x.(phase := Acked), script, StepAck(w, h), h);
        AfterAck(env, w, h, rest, store.View());
        steps := [Ack(h)] + rest;
    }
  }

  /** Publish the begun attempt; its record may land whatever the reply says. */
  method Publish(env: Env, store: S.Store, x: Handler, script: Script, ghost w: World, ghost h: nat)
    returns (ghost steps: seq<Step>)
    requires store.View() == w.db && Running(w, h) && w.handlers[h] == x && x.phase == Publishing && x.begun
    requires script.reply == Acknowledged ==> script.lands
    modifies store
    ensures steps == PublishPath(env, x, script, h) && Returns(env, w, h, steps, store.View())
    ensures store.View() == AfterReply(env, w.db, x, script)
  {
    if script.lands {
      Appended(w, h);
      ghost var rest := OnReply(env, store, x.(appended := true), script, StepAppend(w, h), h);
      AfterAppend(env, w, h, rest, store.View());
      steps := [Append(h)] + rest;
    } else {
      steps := OnReply(env, store, x, script, w, h);
    }
  }

  lemma Begun(env: Env, w: World, h: nat, db: Db)
    requires Running(w, h) && w.handlers[h].phase == Claimed
    requires w.handlers[h].attempts < env.cfg(w.handlers[h].owner).maxAttempts
    requires BeginResult(env, w.db, w.handlers[h]) == Some(db)
    ensures var w' := StepBegin(env, w, h); var x := w.handlers[h];
      && w'.db == db && Running(w', h)
      && w'.handlers[h] == x.(phase := Publishing, begun := true, beganAt := w.db.now,
           attempts := db.events[x.id].attempts)
  {}

  lemma NotBegun(env: Env, w: World, h: nat)
    requires Running(w, h) && w.handlers[h].phase == Claimed
    requires w.handlers[h].attempts < env.cfg(w.handlers[h].owner).maxAttempts
    requires BeginResult(env, w.db, w.handlers[h]).None?
    ensures Returns(env, w, h, [Begin(h)], w.db)
  {
    Single(env, w, Begin(h));
    assert StepBegin(env, w, h) == SetPhase(w, h, Finished);
  }

  lemma Appended(w: World, h: nat)
    requires Running(w, h) && w.handlers[h].begun
    ensures var w' := StepAppend(w, h);
      w'.db == w.db && Running(w', h) && w'.handlers[h] == w.handlers[h].(appended := true)
  {}

  /** An attempt recorded but not reported back ends without anything having been sent. */
  lemma Unreported(env: Env, w: World, h: nat)
    requires Running(w, h) && w.handlers[h].phase == Publishing
    ensures Returns(env, w, h, [Fail(h, false), Abandon(h)], w.db)
  {
    Abandoned(env, StepFail(w, h, false), h);
    AfterFail(env, w, h, false, [Abandon(h)], w.db);
    assert [Fail(h, false)] + [Abandon(h)] == [Fail(h, false), Abandon(h)];
  }

  method BeginAttempt(env: Env, store: S.Store, x: Handler) returns (attempt: Option<int>)
    modifies store
    ensures var r := BeginResult(env, old(store.View()), x);
      && store.View() == (if r.Some? then r.value else old(store.View()))
      && attempt == (if r.Some? then Some(r.value.events[x.id].attempts) else None)
  {
    var c := env.cfg(x.owner);
    if x.slot.Some? {
      attempt := store.BeginOrderedAttempt(x.id, x.owner, x.epoch, c.maxAttempts, c.PublishWindow());
    } else {
      attempt := store.BeginAttempt(x.id, x.owner, c.maxAttempts);
    }
  }

  /** Begin, publish and record one event within its budget. */
  method Attempt(env: Env, store: S.Store, x: Handler, script: Script, ghost w: World, ghost h: nat)
    returns (ghost steps: seq<Step>)
    requires store.View() == w.db && Running(w, h) && w.handlers[h] == x && x.phase == Claimed
    requires x.attempts < env.cfg(x.owner).maxAttempts && (script.reply == Acknowledged ==> script.lands)
    modifies store
    ensures steps == AttemptPath(env, w.db, x, script, h) && Returns(env, w, h, steps, store.View())
    ensures store.View() == AfterAttempt(env, w.db, x, script)
  {
    if script.begin == Errs(false) {
      Abandoned(env, w, h);
      return [Abandon(h)];
    }
    var attempt := BeginAttempt(env, store, x);
    if attempt.None? {
      NotBegun(env, w, h);
      return [Begin(h)];
    }
    Begun(env, w, h, store.View());
    ghost var rest;
    if script.begin == Errs(true) {
      Unreported(env, StepBegin(env, w, h), h);
      rest := [Fail(h, false), Abandon(h)];
    } else {
      var begun := x.(phase := Publishing, begun := true, beganAt := store.now, attempts := attempt.value);
      rest := Publish(env, store, begun, script, StepBegin(env, w, h), h);
    }
    AfterBegin(env, w, h, rest, store.View());
    steps := [Begin(h)] + rest;
  }

  /** One event from its claim to the handler's return. */
  method Handle(env: Env, store: S.Store, x: Handler, script: Script, ghost w: World, ghost h: nat)
    returns (ghost steps: seq<Step>)
    requires store.View() == w.db && Running(w, h) && w.handlers[h] == x && x.phase == Claimed
    requires script.reply == Acknowledged ==> script.lands
    modifies store
    ensures steps == Path(env, w.db, x, script, h) && Returns(env, w, h, steps, store.View())
    ensures Outcome(env, w.db, store.View(), x, script)
  {
    if script.claimHookFails {
      Abandoned(env, w, h);
      return [Abandon(h)];
    }
    if x.attempts >= env.cfg(x.owner).maxAttempts {
      BurialOutcome(env, w.db, x, script);
      steps := MarkDead(env, store, x, script, w, h);
      return;
    }
    AttemptOutcome(env, w.db, x, script);
    steps := Attempt(env, store, x, script, w, h);
  }

  // ---------------------------------------------------------------- what every path keeps to

  /** Whatever the outside does, a record lands only right after its attempt began, a result
      is recorded only as the last step and never twice, an event is marked delivered only
      right after an acknowledged publish, and a spent handler begins and publishes nothing. */
  lemma PathDiscipline(env: Env, db: Db, x: Handler, script: Script, h: nat, i: nat)
    requires i < |Path(env, db, x, script, h)|
    ensures var p := Path(env, db, x, script, h);
      && (p[i] == Begin(h) ==> i == 0)
      && (p[i] == Append(h) ==> i == 1 && p[0] == Begin(h))
      && (p[i] in {Step.MarkDead(h), Step.MarkDelivered(h), Abandon(h)} || p[i].MarkRetry? ==> i == |p| - 1)
      && (p[i] == Step.MarkDelivered(h) ==> i > 0 && p[i - 1] == Ack(h) && script.reply == Acknowledged)
      && (p[i].MarkRetry? ==> i > 0 && p[i - 1] == Fail(h, false))
      && (x.attempts >= env.cfg(x.owner).maxAttempts ==> |p| == 1 && p[0] in {Abandon(h), Step.MarkDead(h)})
  {}
}
