/** What producers get: which inserts are accepted, where a stream starts, and that a stream
    takes its sequences in any order of arrival. */
module Producers {
  import opened Types
  import opened Selection
  import opened Tables
  import opened Protocol
  import opened Consistency

  // ---------------------------------------------------------------- one insert

  function StreamOf(e: NewEvent): StreamKey {
    StreamKey(e.destination, e.orderingKey)
  }

  /** The start the producer asks for, or the first sequence there is. */
  function FirstSequence(e: NewEvent): int {
    if e.startSequence > 0 then e.startSequence else 1
  }

  /** A row of this stream already has this sequence. */
  ghost predicate Held(db: Db, k: StreamKey, n: int) {
    exists id :: id in db.events && db.events[id].destination == k.destination
                 && db.events[id].key == Some(k.key) && db.events[id].sequence == Some(n)
  }

  /** A known stream refuses another partition and another start than its own. */
  predicate Contradicts(part: StreamKey -> nat, db: Db, e: NewEvent) {
    && e.orderingKey != "" && StreamOf(e) in db.streams
    && (|| db.streams[StreamOf(e)].partition != part(StreamOf(e))
        || (e.startSequence > 0 && e.startSequence != db.streams[StreamOf(e)].start))
  }

  predicate Behind(db: Db, e: NewEvent) {
    e.orderingKey != "" && StreamOf(e) in db.streams && e.sequence < db.streams[StreamOf(e)].next
  }

  /** Every answer to an insert, and the one case in which it is accepted. */
  lemma EnqueueAnswers(part: StreamKey -> nat, db: Db, id: Id, e: NewEvent)
    ensures var r := Tables.Enqueue(part, db, id, e); var ordered := e.orderingKey != "";
      && (r.InvalidEvent? <==> !ValidEvent(e))
      && (r.OrderingConflict? <==> ValidEvent(e) && Contradicts(part, db, e))
      && (r.SequenceAlreadyPassed? <==> ValidEvent(e) && !Contradicts(part, db, e) && Behind(db, e))
      && (r.DuplicateId? <==> ValidEvent(e) && !Contradicts(part, db, e) && !Behind(db, e) && id in db.events)
      && (r.DuplicateSequence? <==>
            && ValidEvent(e) && !Contradicts(part, db, e) && !Behind(db, e) && id !in db.events
            && ordered && Held(db, StreamOf(e), e.sequence))
      && (r.Enqueued? <==>
            && ValidEvent(e) && !Contradicts(part, db, e) && !Behind(db, e) && id !in db.events
            && !(ordered && Held(db, StreamOf(e), e.sequence)))
  {
    assert SlotTaken(db.events, StreamOf(e), e.sequence) <==> Held(db, StreamOf(e), e.sequence);
  }

  /** An accepted insert adds one waiting row, due when asked or at once; a new stream begins at
      the start asked for, or at 1, and a known one stays as it is. */
  lemma EnqueueAdds(part: StreamKey -> nat, db: Db, id: Id, e: NewEvent)
    requires Tables.Enqueue(part, db, id, e).Enqueued?
    ensures var db' := Tables.Enqueue(part, db, id, e).db; var k := StreamOf(e); var ordered := e.orderingKey != "";
      && id in db'.events && db' == db.(events := db.events[id := db'.events[id]], streams := db'.streams)
      && (!ordered ==> db'.streams == db.streams)
      && (ordered && k in db.streams ==> db'.streams == db.streams)
      && (ordered && k !in db.streams ==>
            db'.streams == db.streams[k := Stream(part(k), FirstSequence(e), FirstSequence(e))])
      && var row := db'.events[id];
         && row.status == Pending && row.attempts == 0 && row.createdAt == db.now
         && row.availableAt == (if e.availableAt.Some? then e.availableAt.value else db.now)
         && row.leaseOwner.None? && row.leaseUntil.None? && row.deliveredAt.None? && row.destination == e.destination
         && (if ordered
             then && row.key == Some(e.orderingKey) && row.sequence == Some(e.sequence)
                  && row.partition == Some(part(k)) && row.messageKey == e.orderingKey
             else row.key.None? && row.sequence.None? && row.partition.None? && row.messageKey == e.messageKey)
  {}

  // ---------------------------------------------------------------- arrival in any order

  lemma NewStreamIsEmpty(env: Env, w: World, k: StreamKey, n: int)
    requires Consistent(env, w) && k !in w.db.streams
    ensures !Held(w.db, k, n)
  {
    forall id | id in w.db.events
      ensures !(w.db.events[id].destination == k.destination && w.db.events[id].key == Some(k.key))
    {
      assert RowOk(w.db.streams, w.db.events[id]);
    }
  }

  /** Two different sequences of a new stream, neither asking for a start, are both accepted,
      whichever comes first, and both wait in a stream that starts at 1. */
  lemma NewStreamsTakeAnyOrder(env: Env, w: World, a: Id, first: NewEvent, b: Id, second: NewEvent)
    requires Consistent(env, w) && a !in w.db.events && b !in w.db.events && a != b
    requires ValidEvent(first) && ValidEvent(second) && first.orderingKey != ""
    requires StreamOf(first) == StreamOf(second) && StreamOf(first) !in w.db.streams
    requires first.startSequence == 0 && second.startSequence == 0 && first.sequence != second.sequence
    ensures Tables.Enqueue(env.part, w.db, a, first).Enqueued?
    ensures var db := Tables.Enqueue(env.part, w.db, a, first).db;
      && Tables.Enqueue(env.part, db, b, second).Enqueued?
      && var db' := Tables.Enqueue(env.part, db, b, second).db;
         && db'.streams[StreamOf(first)] == Stream(env.part(StreamOf(first)), 1, 1)
         && a in db'.events && b in db'.events
  {
    NewStreamIsEmpty(env, w, StreamOf(first), first.sequence);
    NewStreamIsEmpty(env, w, StreamOf(first), second.sequence);
    EnqueueAnswers(env.part, w.db, a, first);
    EnqueueAdds(env.part, w.db, a, first);
    var db := Tables.Enqueue(env.part, w.db, a, first).db;
    assert !Held(db, StreamOf(first), second.sequence);
    EnqueueAnswers(env.part, db, b, second);
    EnqueueAdds(env.part, db, b, second);
  }

  // ---------------------------------------------------------------- where streams start

  /** The starts producers asked for in the accepted inserts of a run, for one stream. */
  ghost function AskedStarts(env: Env, w: World, steps: seq<Step>, k: StreamKey): set<int>
    decreases |steps|
  {
    if steps == [] then {}
    else
      (if Asks(env, w, steps[0], k) then {steps[0].event.startSequence} else {})
        + AskedStarts(env, Apply(env, w, steps[0]), steps[1..], k)
  }

  predicate Accepted(env: Env, w: World, step: Step, k: StreamKey) {
    && step.Enqueue? && step.event.orderingKey != "" && StreamOf(step.event) == k
    && Tables.Enqueue(env.part, w.db, step.id, step.event).Enqueued?
  }

  predicate Asks(env: Env, w: World, step: Step, k: StreamKey) {
    Accepted(env, w, step, k) && step.event.startSequence > 0
  }

  lemma EnqueueMovesStreams(env: Env, w: World, step: Step)
    requires step.Enqueue?
    ensures var db' := Apply(env, w, step).db; var r := Tables.Enqueue(env.part, w.db, step.id, step.event);
      db'.streams == if r.Enqueued? then r.db.streams else w.db.streams
  {
    if Tables.Enqueue(env.part, w.db, step.id, step.event).Enqueued? {
      EnqueueAdds(env.part, w.db, step.id, step.event);
    }
  }

  lemma DeliveryKeepsStarts(w: World, h: nat, k: StreamKey)
    ensures var streams' := StepMarkDelivered(w, h).db.streams;
      (k in streams' <==> k in w.db.streams) && (k in w.db.streams ==> streams'[k].start == w.db.streams[k].start)
  {}

  lemma OtherStepsKeepStreams(env: Env, w: World, step: Step)
    requires !step.Enqueue? && !step.MarkDelivered?
    ensures Apply(env, w, step).db.streams == w.db.streams
  {
    if TableStep(step) { TableStepsKeepStreams(env, w, step); }
  }

  lemma TableStepsKeepStreams(env: Env, w: World, step: Step)
    requires TableStep(step) && !step.Enqueue?
    ensures ApplyTable(env, w, step).db.streams == w.db.streams
  {}

  /** A step makes a stream, or keeps its start; only an accepted insert does the former. */
  lemma StepStarts(env: Env, w: World, step: Step, k: StreamKey)
    ensures var streams' := Apply(env, w, step).db.streams;
      && (k in w.db.streams ==> k in streams' && streams'[k].start == w.db.streams[k].start)
      && (k !in w.db.streams && k in streams' ==>
            Accepted(env, w, step, k) && streams'[k].start == FirstSequence(step.event))
      && (k in w.db.streams && Asks(env, w, step, k) ==> step.event.startSequence == w.db.streams[k].start)
      && (Accepted(env, w, step, k) ==> k in streams')
  {
    if step.Enqueue? {
      EnqueueMovesStreams(env, w, step);
      EnqueueAnswers(env.part, w.db, step.id, step.event);
      if Tables.Enqueue(env.part, w.db, step.id, step.event).Enqueued? {
        EnqueueAdds(env.part, w.db, step.id, step.event);
      }
    } else if step.MarkDelivered? {
      DeliveryKeepsStarts(w, step.h, k);
    } else {
      OtherStepsKeepStreams(env, w, step);
    }
  }

  lemma {:induction false} KnownStartsStand(env: Env, w: World, steps: seq<Step>, k: StreamKey)
    requires k in w.db.streams
    ensures var w' := Exec(env, w, steps);
      && k in w'.db.streams && w'.db.streams[k].start == w.db.streams[k].start
      && AskedStarts(env, w, steps, k) <= {w.db.streams[k].start}
    decreases |steps|
  {
    if steps != [] {
      StepStarts(env, w, steps[0], k);
      KnownStartsStand(env, Apply(env, w, steps[0]), steps[1..], k);
    }
  }

  lemma {:induction false} NewStartsAreAsked(env: Env, w: World, steps: seq<Step>, k: StreamKey)
    requires k !in w.db.streams
    ensures var w' := Exec(env, w, steps); var asked := AskedStarts(env, w, steps, k);
      && (k in w'.db.streams ==> asked == {} || asked == {w'.db.streams[k].start})
      && (k in w'.db.streams && asked == {} ==> w'.db.streams[k].start == 1)
      && (k !in w'.db.streams ==> asked == {})
    decreases |steps|
  {
    if steps != [] {
      var w1 := Apply(env, w, steps[0]);
      StepStarts(env, w, steps[0], k);
      if k in w1.db.streams {
        KnownStartsStand(env, w1, steps[1..], k);
      } else {
        NewStartsAreAsked(env, w1, steps[1..], k);
      }
    }
  }

  /** In every run a stream nobody asked a start for starts at 1, and any other stream starts
      where all who asked wanted it. */
  lemma StreamsStartAsAsked(env: Env, start: Time, steps: seq<Step>, k: StreamKey)
    requires k in Exec(env, Init(start), steps).db.streams
    ensures var asked := AskedStarts(env, Init(start), steps, k);
      var s := Exec(env, Init(start), steps).db.streams[k].start;
      (asked == {} ==> s == 1) && (asked != {} ==> asked == {s})
  {
    NewStartsAreAsked(env, Init(start), steps, k);
  }
}
