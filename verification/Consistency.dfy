/** What every step keeps, with no assumption about time: rows agree with their
    stream's cursor, handlers agree with the rows they were claimed from, and each
    stream's broker log grows one sequence at a time. */
module Consistency {
  import opened Types
  import opened Selection
  import opened Tables
  import opened Protocol

  type Events = map<Id, Event>
  type Streams = map<StreamKey, Stream>

  // ---------------------------------------------------------------- logs

  /** The order in which a log first shows each sequence. */
  function FirstSeen(log: seq<Record>): (order: seq<int>) {
    if log == [] then []
    else
      var before := FirstSeen(log[..|log| - 1]);
      var n := log[|log| - 1].sequence;
      if n in before then before else before + [n]
  }

  lemma {:induction false} FirstSeenMembers(log: seq<Record>, n: int)
    ensures n in FirstSeen(log) <==> exists i :: 0 <= i < |log| && log[i].sequence == n
  {
    if log != [] {
      var front, last := log[..|log| - 1], log[|log| - 1];
      FirstSeenMembers(front, n);
      if last.sequence == n { assert log[|log| - 1].sequence == n; }
      if i :| 0 <= i < |front| && front[i].sequence == n { assert log[i].sequence == n; }
    }
  }

  lemma FirstSeenAppend(log: seq<Record>, r: Record)
    ensures FirstSeen(log + [r])
         == if r.sequence in FirstSeen(log) then FirstSeen(log) else FirstSeen(log) + [r.sequence]
  {}

  /** start, start + 1, ..., end - 1 */
  function Range(start: int, end: int): (r: seq<int>)
    requires start <= end
    ensures |r| == end - start
  {
    seq(end - start, i requires 0 <= i < end - start => start + i)
  }

  lemma InRange(start: int, end: int, n: int)
    requires start <= end
    ensures n in Range(start, end) <==> start <= n < end
  {
    if start <= n < end { assert Range(start, end)[n - start] == n; }
  }

  lemma RangeSnoc(start: int, end: int)
    requires start <= end
    ensures Range(start, end) + [end] == Range(start, end + 1)
  {}

  // ---------------------------------------------------------------- rows

  predicate OrderingShape(streams: Streams, e: Event) {
    || (e.key.None? && e.sequence.None? && e.partition.None?)
    || (&& e.key.Some? && e.sequence.Some? && e.partition.Some?
        && !Blank(e.key.value) && e.sequence.value > 0 && e.messageKey == e.key.value
        && var k := StreamKey(e.destination, e.key.value);
           k in streams && e.partition.value == streams[k].partition)
  }

  /** Active rows never sit below the cursor, inflight and dead rows sit exactly on
      it, and delivered rows have been passed. */
  predicate CursorRelation(streams: Streams, e: Event) {
    var slot := SlotOf(e);
    slot.Some? && slot.value.stream in streams ==>
      var next := streams[slot.value.stream].next;
      match e.status
      case Pending => slot.value.sequence >= next
      case Inflight => slot.value.sequence == next
      case Dead => slot.value.sequence == next
      case Delivered => slot.value.sequence < next
  }

  predicate RowOk(streams: Streams, e: Event) {
    && OrderingShape(streams, e)
    && CursorRelation(streams, e)
    && (e.status == Inflight <==> e.leaseOwner.Some?)
    && (e.status == Inflight <==> e.leaseUntil.Some?)
    && (e.status == Delivered <==> e.deliveredAt.Some?)
    && e.attempts >= 0
  }

  predicate StreamOk(env: Env, k: StreamKey, s: Stream) {
    s.partition == env.part(k) && 0 < s.start <= s.next
  }

  ghost predicate UniqueSlots(events: Events) {
    forall i, j ::
      (i in events && j in events && SlotOf(events[i]).Some? && SlotOf(events[i]) == SlotOf(events[j])) ==> i == j
  }

  ghost predicate Rows(env: Env, events: Events, streams: Streams) {
    && (forall k :: k in streams ==> StreamOk(env, k, streams[k]))
    && (forall id :: id in events ==> RowOk(streams, events[id]))
    && UniqueSlots(events)
  }

  // ---------------------------------------------------------------- history

  predicate Passed(streams: Streams, slot: Slot) {
    slot.stream in streams && streams[slot.stream].start <= slot.sequence < streams[slot.stream].next
  }

  /** An id that was ever enqueued is still a row of its slot, or was removed after a
      broker acknowledgement and its slot has been passed. */
  predicate Accounted(events: Events, streams: Streams, acked: set<Id>, id: Id, slot: Option<Slot>) {
    && (slot.Some? ==> slot.value.stream in streams && streams[slot.value.stream].start <= slot.value.sequence)
    && if id in events
       then slot == SlotOf(events[id]) && (events[id].status == Delivered ==> id in acked)
       else id in acked && (slot.Some? ==> Passed(streams, slot.value))
  }

  ghost predicate History(events: Events, streams: Streams, enqueued: map<Id, Option<Slot>>, acked: set<Id>) {
    && (forall id :: id in events ==> id in enqueued)
    && (forall id :: id in enqueued ==> Accounted(events, streams, acked, id, enqueued[id]))
    && (forall i, j :: (i in enqueued && j in enqueued && enqueued[i].Some? && enqueued[i] == enqueued[j]) ==> i == j)
  }

  /** The cursor has passed exactly the slots some acknowledged event was delivered for. */
  ghost predicate Deliveries(streams: Streams, enqueued: map<Id, Option<Slot>>, acked: set<Id>, deliveredBy: map<Slot,
                             Id>) {
    && (forall slot :: slot in deliveredBy <==> Passed(streams, slot))
    && (forall slot :: slot in deliveredBy ==>
          deliveredBy[slot] in enqueued && enqueued[deliveredBy[slot]] == Some(slot) && deliveredBy[slot] in acked)
  }

  // ---------------------------------------------------------------- handlers and broker

  predicate Shown(log: Log, slot: Slot) {
    slot.sequence in FirstSeen(LogFor(log, slot.stream))
  }

  predicate HandlerOk(env: Env, streams: Streams, enqueued: map<Id, Option<Slot>>, acked: set<Id>, log: Log, now: Time,
                      x: Handler) {
    && x.id in enqueued && enqueued[x.id] == x.slot
    && (x.slot.Some? ==>
          && x.slot.value.stream in streams
          && streams[x.slot.value.stream].start <= x.slot.value.sequence <= streams[x.slot.value.stream].next
          && x.partition == env.part(x.slot.value.stream))
    && (x.phase == Claimed ==> !x.begun && !x.appended)
    && (x.phase == Publishing || x.phase == Acked || x.phase.Failed? ==> x.begun)
    && (x.phase == Acked ==> x.appended && x.id in acked)
    && (x.appended && x.slot.Some? ==> Shown(log, x.slot.value))
    && x.claimedAt <= x.beganAt <= now
  }

  ghost predicate Handlers(env: Env, streams: Streams, enqueued: map<Id, Option<Slot>>, acked: set<Id>, log: Log,
                           now: Time,
                           handlers: seq<Handler>)
  {
    forall h :: 0 <= h < |handlers| ==> HandlerOk(env, streams, enqueued, acked, log, now, handlers[h])
  }

  predicate RecordOk(handlers: seq<Handler>, now: Time, k: StreamKey, r: Record) {
    && r.handler < |handlers|
    && var x := handlers[r.handler];
       x.id == r.id && x.slot == Some(Slot(k, r.sequence)) && x.begun && x.beganAt <= r.at <= now
  }

  ghost predicate Records(handlers: seq<Handler>, now: Time, log: Log) {
    forall k, i :: k in log && 0 <= i < |log[k]| ==> RecordOk(handlers, now, k, log[k][i])
  }

  /** A log shows every passed sequence, then perhaps the one at the cursor, first
      appearing in exactly that order. */
  predicate LogOk(s: Stream, log: seq<Record>) {
    && s.start <= s.next
    && (FirstSeen(log) == Range(s.start, s.next) || FirstSeen(log) == Range(s.start, s.next + 1))
  }

  ghost predicate Logs(streams: Streams, log: Log) {
    && (forall k :: k in log ==> k in streams)
    && (forall k :: k in streams ==> LogOk(streams[k], LogFor(log, k)))
  }

  ghost predicate Consistent(env: Env, w: World) {
    && Rows(env, w.db.events, w.db.streams)
    && History(w.db.events, w.db.streams, w.enqueued, w.acked)
    && Deliveries(w.db.streams, w.enqueued, w.acked, w.deliveredBy)
    && Handlers(env, w.db.streams, w.enqueued, w.acked, w.log, w.db.now, w.handlers)
    && Records(w.handlers, w.db.now, w.log)
    && Logs(w.db.streams, w.log)
  }

  // ---------------------------------------------------------------- rewriting rows in place

  predicate SamePlace(e: Event, e': Event) {
    && e.destination == e'.destination && e.messageKey == e'.messageKey
    && e.key == e'.key && e.sequence == e'.sequence && e.partition == e'.partition
  }

  /** Every row keeps its place and stays in order; none appears or disappears. */
  ghost predicate Rewrites(events: Events, events': Events, streams: Streams, acked: set<Id>) {
    && events'.Keys == events.Keys
    && (forall id :: id in events ==>
          && SamePlace(events[id], events'[id]) && RowOk(streams, events'[id])
          && (events'[id].status == Delivered ==> id in acked))
  }

  lemma RewriteKeeps(env: Env, events: Events, events': Events, streams: Streams, enqueued: map<Id, Option<Slot>>,
                     acked: set<Id>)
    requires Rows(env, events, streams) && History(events, streams, enqueued, acked)
    requires Rewrites(events, events', streams, acked)
    ensures Rows(env, events', streams) && History(events', streams, enqueued, acked)
  {
    assert forall id :: id in events ==> SlotOf(events'[id]) == SlotOf(events[id]);
    forall id | id in enqueued ensures Accounted(events', streams, acked, id, enqueued[id]) {
      assert Accounted(events, streams, acked, id, enqueued[id]);
    }
  }

  lemma OneRowRewrites(env: Env, events: Events, streams: Streams, enqueued: map<Id, Option<Slot>>, acked: set<Id>,
                       id: Id, e: Event)
    requires Rows(env, events, streams) && History(events, streams, enqueued, acked)
    requires id in events && SamePlace(events[id], e) && RowOk(streams, e) && (e.status == Delivered ==> id in acked)
    ensures Rewrites(events, events[id := e], streams, acked)
  {}

  // ---------------------------------------------------------------- handlers in place

  predicate SameClaim(x: Handler, x': Handler) {
    && x.owner == x'.owner && x.id == x'.id && x.slot == x'.slot && x.partition == x'.partition
    && x.epoch == x'.epoch && x.claimedAt == x'.claimedAt
    && (x.begun ==> x'.begun && x'.beganAt == x.beganAt)
  }

  ghost predicate SameClaims(handlers: seq<Handler>, handlers': seq<Handler>) {
    && |handlers| <= |handlers'|
    && (forall h :: 0 <= h < |handlers| ==> SameClaim(handlers[h], handlers'[h]))
  }

  lemma RecordsStay(handlers: seq<Handler>, handlers': seq<Handler>, now: Time, now': Time, log: Log)
    requires Records(handlers, now, log) && SameClaims(handlers, handlers') && now <= now'
    ensures Records(handlers', now', log)
  {}

  /** Cursors only move forward and never lose their start. */
  ghost predicate Onward(streams: Streams, streams': Streams) {
    forall k :: k in streams ==>
      k in streams' && streams'[k].start == streams[k].start && streams[k].next <= streams'[k].next
  }

  /** What a handler relies on only grows. */
  lemma HandlerStays(env: Env, w: World, w': World, x: Handler)
    requires HandlerOk(env, w.db.streams, w.enqueued, w.acked, w.log, w.db.now, x)
    requires Onward(w.db.streams, w'.db.streams) && w.acked <= w'.acked && w.db.now <= w'.db.now
    requires x.id in w'.enqueued && w'.enqueued[x.id] == w.enqueued[x.id]
    requires x.appended && x.slot.Some? ==> (Shown(w.log, x.slot.value) ==> Shown(w'.log, x.slot.value))
    ensures HandlerOk(env, w'.db.streams, w'.enqueued, w'.acked, w'.log, w'.db.now, x)
  {}

  lemma HandlersGo(env: Env, w: World, w': World)
    requires Handlers(env, w.db.streams, w.enqueued, w.acked, w.log, w.db.now, w.handlers)
    requires Onward(w.db.streams, w'.db.streams) && w'.acked == w.acked && w.db.now <= w'.db.now
    requires w'.enqueued == w.enqueued && w'.log == w.log && w'.handlers == w.handlers
    ensures Handlers(env, w'.db.streams, w'.enqueued, w'.acked, w'.log, w'.db.now, w'.handlers)
  {}

  // ---------------------------------------------------------------- steps that touch one handler

  /** At most one row is rewritten, and the handler that did it moves on. */
  ghost predicate Touch(env: Env, w: World, w': World, h: nat) {
    && h < |w.handlers| == |w'.handlers|
    && w'.handlers == w.handlers[h := w'.handlers[h]] && SameClaim(w.handlers[h], w'.handlers[h])
    && w'.db.streams == w.db.streams && w'.db.now == w.db.now
    && w'.log == w.log && w'.enqueued == w.enqueued && w'.deliveredBy == w.deliveredBy
    && w.acked <= w'.acked
    && HandlerOk(env, w.db.streams, w.enqueued, w'.acked, w.log, w.db.now, w'.handlers[h])
    && Rewrites(w.db.events, w'.db.events, w.db.streams, w'.acked)
  }

  lemma AckingMore(events: Events, streams: Streams, enqueued: map<Id, Option<Slot>>, acked: set<Id>, acked': set<Id>)
    requires History(events, streams, enqueued, acked) && acked <= acked'
    ensures History(events, streams, enqueued, acked')
  {}

  lemma TouchKeeps(env: Env, w: World, w': World, h: nat)
    requires Consistent(env, w) && Touch(env, w, w', h)
    ensures Consistent(env, w')
  {
    AckingMore(w.db.events, w.db.streams, w.enqueued, w.acked, w'.acked);
    RewriteKeeps(env, w.db.events, w'.db.events, w.db.streams, w.enqueued, w'.acked);
    RecordsStay(w.handlers, w'.handlers, w.db.now, w'.db.now, w.log);
    TouchKeepsHandlers(env, w, w', h);
  }

  lemma TouchKeepsHandlers(env: Env, w: World, w': World, h: nat)
    requires Consistent(env, w) && Touch(env, w, w', h)
    ensures Handlers(env, w'.db.streams, w'.enqueued, w'.acked, w'.log, w'.db.now, w'.handlers)
  {}

  lemma NothingRewrites(env: Env, w: World, acked: set<Id>)
    requires Consistent(env, w) && w.acked <= acked
    ensures Rewrites(w.db.events, w.db.events, w.db.streams, acked)
  {}

  lemma PhaseTouches(env: Env, w: World, h: nat, x: Handler)
    requires Consistent(env, w)
    requires h < |w.handlers| && SameClaim(w.handlers[h], x)
    requires HandlerOk(env, w.db.streams, w.enqueued, w.acked, w.log, w.db.now, x)
    ensures Touch(env, w, w.(handlers := w.handlers[h := x]), h)
  {}

  lemma RowTouches(env: Env, w: World, w': World, h: nat, e: Event)
    requires Consistent(env, w) && h < |w.handlers| == |w'.handlers|
    requires var x := w.handlers[h];
      && x.id in w.db.events && SamePlace(w.db.events[x.id], e) && RowOk(w.db.streams, e)
      && (e.status == Delivered ==> x.id in w.acked)
      && w'.db == w.db.(events := w.db.events[x.id := e])
      && w'.handlers == w.handlers[h := w'.handlers[h]] && SameClaim(x, w'.handlers[h])
      && w'.log == w.log && w'.enqueued == w.enqueued && w'.deliveredBy == w.deliveredBy && w'.acked == w.acked
      && HandlerOk(env, w.db.streams, w.enqueued, w.acked, w.log, w.db.now, w'.handlers[h])
    ensures Touch(env, w, w', h)
  {}

  lemma BeginKeeps(env: Env, w: World, h: nat)
    requires Consistent(env, w)
    ensures Consistent(env, StepBegin(env, w, h))
  {
    if Running(w, h) && w.handlers[h].phase == Claimed {
      var x := w.handlers[h];
      var result := BeginResult(env, w.db, x);
      if x.attempts < env.cfg(x.owner).maxAttempts {
        if result.None? {
          FinishKeeps(env, w, h, Finished);
        } else {
          BegunKeeps(env, w, h, result.value);
        }
      }
    }
  }

  lemma BegunKeeps(env: Env, w: World, h: nat, db: Db)
    requires Consistent(env, w) && Running(w, h) && w.handlers[h].phase == Claimed
    requires w.handlers[h].attempts < env.cfg(w.handlers[h].owner).maxAttempts
    requires BeginResult(env, w.db, w.handlers[h]) == Some(db)
    ensures Consistent(env, StepBegin(env, w, h))
  {
    var x := w.handlers[h];
    assert HandlerOk(env, w.db.streams, w.enqueued, w.acked, w.log, w.db.now, x);
    assert RowOk(w.db.streams, w.db.events[x.id]);
    BegunShape(env, w, h, db);
    RowTouches(env, w, StepBegin(env, w, h), h, w.db.events[x.id].(attempts := w.db.events[x.id].attempts + 1));
    TouchKeeps(env, w, StepBegin(env, w, h), h);
  }

  lemma BegunShape(env: Env, w: World, h: nat, db: Db)
    requires Running(w, h) && w.handlers[h].phase == Claimed
    requires w.handlers[h].attempts < env.cfg(w.handlers[h].owner).maxAttempts
    requires BeginResult(env, w.db, w.handlers[h]) == Some(db)
    ensures var x := w.handlers[h]; var w' := StepBegin(env, w, h);
      && x.id in w.db.events
      && w'.db == w.db.(events := w.db.events[x.id := w.db.events[x.id].(attempts := w.db.events[x.id].attempts + 1)])
      && w'.handlers == w.handlers[h := x.(phase := Publishing, begun := true, beganAt := w.db.now,
           attempts := w.db.events[x.id].attempts + 1)]
  {}

  lemma AckKeeps(env: Env, w: World, h: nat)
    requires Consistent(env, w)
    ensures Consistent(env, StepAck(w, h))
  {
    var w' := StepAck(w, h);
    if Running(w, h) && w.handlers[h].phase == Publishing && w.handlers[h].appended {
      assert HandlerOk(env, w.db.streams, w.enqueued, w.acked, w.log, w.db.now, w.handlers[h]);
      NothingRewrites(env, w, w'.acked);
      TouchKeeps(env, w, w', h);
    }
  }

  lemma FinishKeeps(env: Env, w: World, h: nat, phase: Phase)
    requires Consistent(env, w) && h < |w.handlers|
    requires phase == Finished || (phase.Failed? && w.handlers[h].begun)
    ensures Consistent(env, SetPhase(w, h, phase))
  {}

  /** A recorded result settles the row and returns the handler. */
  lemma SettleKeeps(env: Env, w: World, h: nat, e: Event)
    requires Consistent(env, w) && h < |w.handlers|
    requires var x := w.handlers[h];
      && x.id in w.db.events && SamePlace(w.db.events[x.id], e) && RowOk(w.db.streams, e)
      && (e.status == Delivered ==> x.id in w.acked)
    ensures Consistent(env, SetPhase(w, h, Finished).(db := w.db.(events := w.db.events[w.handlers[h].id := e])))
  {
    var w' := SetPhase(w, h, Finished).(db := w.db.(events := w.db.events[w.handlers[h].id := e]));
    assert HandlerOk(env, w.db.streams, w.enqueued, w.acked, w.log, w.db.now, w.handlers[h]);
    RowTouches(env, w, w', h, e);
    TouchKeeps(env, w, w', h);
  }

  lemma RetryKeeps(env: Env, w: World, h: nat, delay: Time)
    requires Consistent(env, w)
    ensures Consistent(env, StepMarkRetry(env, w, h, delay))
  {
    if Running(w, h) && MayRetry(env, w.handlers[h]) {
      var x := w.handlers[h];
      if RetryResult(w.db, x, delay).None? {
        FinishKeeps(env, w, h, Finished);
      } else {
        assert RowOk(w.db.streams, w.db.events[x.id]);
        var e := RetryResult(w.db, x, delay).value.events[x.id];
        assert SlotOf(e) == SlotOf(w.db.events[x.id]);
        SettleKeeps(env, w, h, e);
      }
    }
  }

  lemma DeadKeeps(env: Env, w: World, h: nat)
    requires Consistent(env, w)
    ensures Consistent(env, StepMarkDead(env, w, h))
  {
    if Running(w, h) && MayBury(env, w.handlers[h]) {
      var x := w.handlers[h];
      if DeadResult(w.db, x).None? {
        FinishKeeps(env, w, h, Finished);
      } else {
        assert RowOk(w.db.streams, w.db.events[x.id]);
        SettleKeeps(env, w, h, Settled(w.db.events[x.id]).(status := Dead));
      }
    }
  }

  // ---------------------------------------------------------------- steps that leave rows and handlers alone

  lemma BackgroundKeeps(env: Env, w: World, db: Db)
    requires Consistent(env, w)
    requires db.events == w.db.events && db.streams == w.db.streams && db.now >= w.db.now
    ensures Consistent(env, w.(db := db))
  {}

  lemma CrashKeeps(env: Env, w: World, owner: string)
    requires Consistent(env, w)
    ensures Consistent(env, StepCrash(w, owner))
  {}

  lemma RetryDeadKeeps(env: Env, w: World, id: Id)
    requires Consistent(env, w)
    ensures Consistent(env, ApplyTable(env, w, Step.RetryDead(id)))
  {
    var w' := ApplyTable(env, w, Step.RetryDead(id));
    if w' != w {
      assert RowOk(w.db.streams, w.db.events[id]);
      var e := w'.db.events[id];
      OneRowRewrites(env, w.db.events, w.db.streams, w.enqueued, w.acked, id, e);
      RewriteKeeps(env, w.db.events, w'.db.events, w.db.streams, w.enqueued, w.acked);
    }
  }

  // ---------------------------------------------------------------- claims

  ghost predicate Picked(w: World, picks: seq<Id>) {
    forall i :: 0 <= i < |picks| ==> (
      && picks[i] in w.db.events && w.db.events[picks[i]].status != Delivered
      && (w.db.events[picks[i]].key.Some? ==> AtCursor(w.db, w.db.events[picks[i]])))
  }

  lemma LeaseRewrites(env: Env, w: World, picks: seq<Id>, owner: string, lease: Time)
    requires Consistent(env, w) && Picked(w, picks)
    ensures Rewrites(w.db.events, Lease(w.db, picks, owner, lease).events, w.db.streams, w.acked)
  {
    var events' := Lease(w.db, picks, owner, lease).events;
    NothingRewrites(env, w, w.acked);
    forall id | id in w.db.events ensures RowOk(w.db.streams, events'[id]) {
      assert RowOk(w.db.streams, w.db.events[id]);
    }
  }

  lemma DispatchKeeps(env: Env, w: World, owner: string, picks: seq<Id>)
    requires Consistent(env, w) && Picked(w, picks)
    ensures Consistent(env, Dispatch(env, w, owner, picks))
  {
    var w' := Dispatch(env, w, owner, picks);
    LeaseRewrites(env, w, picks, owner, env.cfg(owner).eventLease);
    RewriteKeeps(env, w.db.events, w'.db.events, w.db.streams, w.enqueued, w.acked);
    RecordsStay(w.handlers, w'.handlers, w.db.now, w'.db.now, w.log);
    forall h | 0 <= h < |w'.handlers|
      ensures HandlerOk(env, w.db.streams, w.enqueued, w.acked, w.log, w.db.now, w'.handlers[h])
    {
      if h >= |w.handlers| { NewHandlerOk(env, w, owner, picks[h - |w.handlers|]); }
    }
  }

  lemma NewHandlerOk(env: Env, w: World, owner: string, id: Id)
    requires Consistent(env, w) && id in w.db.events
    requires w.db.events[id].key.Some? ==> AtCursor(w.db, w.db.events[id])
    ensures HandlerOk(env, w.db.streams, w.enqueued, w.acked, w.log, w.db.now, NewHandler(w.db, owner, id))
  {}

  // ---------------------------------------------------------------- broker

  lemma AppendKeeps(env: Env, w: World, h: nat)
    requires Consistent(env, w)
    ensures Consistent(env, StepAppend(w, h))
  {
    if h < |w.handlers| && w.handlers[h].begun {
      var x := w.handlers[h];
      assert HandlerOk(env, w.db.streams, w.enqueued, w.acked, w.log, w.db.now, x);
      if x.slot.None? {
        PhaseTouches(env, w, h, x.(appended := true));
        TouchKeeps(env, w, StepAppend(w, h), h);
      } else {
        AppendKeepsLogs(env, w, h);
        AppendKeepsHandlers(env, w, h);
        AppendKeepsRecords(env, w, h);
      }
    }
  }

  predicate Appends(w: World, h: nat) {
    h < |w.handlers| && w.handlers[h].begun && w.handlers[h].slot.Some?
  }

  /** Appending the cursor's sequence, or one already shown, keeps a log in order. */
  lemma LogGrows(s: Stream, log: seq<Record>, r: Record)
    requires LogOk(s, log) && s.start <= r.sequence <= s.next
    ensures LogOk(s, log + [r])
    ensures forall n :: n in FirstSeen(log + [r]) <==> n in FirstSeen(log) || n == r.sequence
  {
    FirstSeenAppend(log, r);
    InRange(s.start, s.next, r.sequence);
    InRange(s.start, s.next + 1, r.sequence);
    RangeSnoc(s.start, s.next);
  }

  lemma AppendKeepsLogs(env: Env, w: World, h: nat)
    requires Consistent(env, w) && Appends(w, h)
    ensures var log' := StepAppend(w, h).log;
      && Logs(w.db.streams, log') && Shown(log', w.handlers[h].slot.value)
      && forall slot :: Shown(w.log, slot) ==> Shown(log', slot)
  {
    var x := w.handlers[h];
    var k, n := x.slot.value.stream, x.slot.value.sequence;
    assert HandlerOk(env, w.db.streams, w.enqueued, w.acked, w.log, w.db.now, x);
    assert LogOk(w.db.streams[k], LogFor(w.log, k));
    var r := Record(x.id, n, h, w.db.now);
    LogGrows(w.db.streams[k], LogFor(w.log, k), r);
    assert StepAppend(w, h).log == w.log[k := LogFor(w.log, k) + [r]];
    OneLogGrows(w.db.streams, w.log, k, r);
  }

  lemma OneLogGrows(streams: Streams, log: Log, k: StreamKey, r: Record)
    requires Logs(streams, log) && k in streams && LogOk(streams[k], LogFor(log, k) + [r])
    requires forall n :: n in FirstSeen(LogFor(log, k) + [r]) <==> n in FirstSeen(LogFor(log, k)) || n == r.sequence
    ensures var log' := log[k := LogFor(log, k) + [r]];
      && Logs(streams, log') && Shown(log', Slot(k, r.sequence))
      && forall slot :: Shown(log, slot) ==> Shown(log', slot)
  {}

  lemma AppendKeepsHandlers(env: Env, w: World, h: nat)
    requires Consistent(env, w) && Appends(w, h)
    ensures var w' := StepAppend(w, h);
      Handlers(env, w'.db.streams, w'.enqueued, w'.acked, w'.log, w'.db.now, w'.handlers)
  {
    AppendKeepsLogs(env, w, h);
    var w' := StepAppend(w, h);
    forall i | 0 <= i < |w'.handlers|
      ensures HandlerOk(env, w'.db.streams, w'.enqueued, w'.acked, w'.log, w'.db.now, w'.handlers[i])
    {
      HandlerStays(env, w, w', w.handlers[i]);
    }
  }

  lemma AppendKeepsRecords(env: Env, w: World, h: nat)
    requires Consistent(env, w) && Appends(w, h)
    ensures var w' := StepAppend(w, h); Records(w'.handlers, w'.db.now, w'.log)
  {
    var w' := StepAppend(w, h);
    assert HandlerOk(env, w.db.streams, w.enqueued, w.acked, w.log, w.db.now, w.handlers[h]);
    RecordsStay(w.handlers, w'.handlers, w.db.now, w'.db.now, w.log);
  }

  // ---------------------------------------------------------------- the atomic advance

  predicate Advances(w: World, h: nat) {
    && Running(w, h) && w.handlers[h].phase == Acked && w.handlers[h].slot.Some?
    && MarkOrderedDelivered(w.db, w.handlers[h].id, w.handlers[h].owner, w.handlers[h].epoch,
         w.handlers[h].slot.value.sequence).Some?
  }

  lemma DeliveredKeeps(env: Env, w: World, h: nat)
    requires Consistent(env, w)
    ensures Consistent(env, StepMarkDelivered(w, h))
  {
    if Running(w, h) && w.handlers[h].phase == Acked {
      var x := w.handlers[h];
      assert HandlerOk(env, w.db.streams, w.enqueued, w.acked, w.log, w.db.now, x);
      if Advances(w, h) {
        AdvanceEffect(env, w, h);
        AdvanceKeeps(env, w, StepMarkDelivered(w, h), h);
      } else if x.slot.None? && Owned(w.db, x.id, x.owner) {
        assert Accounted(w.db.events, w.db.streams, w.acked, x.id, w.enqueued[x.id]);
        assert RowOk(w.db.streams, w.db.events[x.id]);
        SettleKeeps(env, w, h, Settled(w.db.events[x.id]).(status := Delivered, deliveredAt := Some(w.db.now)));
      } else {
        FinishKeeps(env, w, h, Finished);
      }
    }
  }

  /** An effective ordered delivery: the row it settles and the cursor it moves. */
  ghost predicate AdvancedTo(w: World, w': World, h: nat) {
    && h < |w.handlers| && w.handlers[h].slot.Some?
    && var x := w.handlers[h]; var k, n := x.slot.value.stream, x.slot.value.sequence;
       && x.phase == Acked
       && x.id in w.db.events && SlotOf(w.db.events[x.id]) == x.slot && w.db.events[x.id].status == Inflight
       && k in w.db.streams && w.db.streams[k].next == n
       && w'.db.streams == Advance(w.db.streams, x.slot.value)
       && w'.db.events == w.db.events[x.id := Settled(w.db.events[x.id]).(status := Delivered,
            deliveredAt := Some(w.db.now))]
       && w'.deliveredBy == w.deliveredBy[x.slot.value := x.id]
       && w'.enqueued == w.enqueued && w'.acked == w.acked && w'.log == w.log && w'.db.now == w.db.now
       && w'.handlers == w.handlers[h := x.(phase := Finished)]
  }

  lemma AdvanceEffect(env: Env, w: World, h: nat)
    requires Consistent(env, w) && Advances(w, h)
    ensures AdvancedTo(w, StepMarkDelivered(w, h), h)
  {
    var x := w.handlers[h];
    assert HandlerOk(env, w.db.streams, w.enqueued, w.acked, w.log, w.db.now, x);
    assert Accounted(w.db.events, w.db.streams, w.acked, x.id, w.enqueued[x.id]);
    AdvanceMoves(w, h);
  }

  lemma AdvanceMoves(w: World, h: nat)
    requires Advances(w, h) && w.handlers[h].id in w.db.events
    requires SlotOf(w.db.events[w.handlers[h].id]) == w.handlers[h].slot
    ensures AdvancedTo(w, StepMarkDelivered(w, h), h)
  {}

  lemma AdvanceKeeps(env: Env, w: World, w': World, h: nat)
    requires Consistent(env, w) && AdvancedTo(w, w', h)
    ensures Consistent(env, w')
  {
    var x := w.handlers[h];
    var slot := x.slot.value;
    assert HandlerOk(env, w.db.streams, w.enqueued, w.acked, w.log, w.db.now, x);
    assert Rows(env, w'.db.events, w'.db.streams) by {
      assert RowOk(w.db.streams, w.db.events[x.id]);
      AdvanceRows(env, w.db.events, w.db.streams, x.id, slot, w'.db.events[x.id]);
    }
    assert History(w'.db.events, w'.db.streams, w.enqueued, w.acked) by {
      AdvanceHistory(env, w.db.events, w.db.streams, w.enqueued, w.acked, x.id, slot, w'.db.events[x.id]);
    }
    assert Deliveries(w'.db.streams, w.enqueued, w.acked, w'.deliveredBy) by {
      AdvanceDeliveries(w.db.streams, w.enqueued, w.acked, w.deliveredBy, x.id, slot);
    }
    assert Logs(w'.db.streams, w.log) by { AdvanceLogs(w.db.streams, w.log, slot); }
    AdvanceHandlers(env, w, w', h);
  }

  lemma AdvanceHandlers(env: Env, w: World, w': World, h: nat)
    requires Consistent(env, w) && h < |w.handlers| && Onward(w.db.streams, w'.db.streams)
    requires w'.handlers == w.handlers[h := w.handlers[h].(phase := Finished)]
    requires w'.acked == w.acked && w'.db.now == w.db.now && w'.enqueued == w.enqueued && w'.log == w.log
    ensures Handlers(env, w'.db.streams, w'.enqueued, w'.acked, w'.log, w'.db.now, w'.handlers)
    ensures Records(w'.handlers, w'.db.now, w'.log)
  {
    RecordsStay(w.handlers, w'.handlers, w.db.now, w'.db.now, w.log);
    FinishKeeps(env, w, h, Finished);
    HandlersGo(env, SetPhase(w, h, Finished), w');
  }

  function Advance(streams: Streams, slot: Slot): Streams
    requires slot.stream in streams
  {
    streams[slot.stream := streams[slot.stream].(next := slot.sequence + 1)]
  }

  lemma AdvanceRows(env: Env, events: Events, streams: Streams, id: Id, slot: Slot, e: Event)
    requires Rows(env, events, streams) && id in events && SlotOf(events[id]) == Some(slot)
    requires slot.stream in streams && streams[slot.stream].next == slot.sequence
    requires SamePlace(events[id], e) && e.status == Delivered && e.deliveredAt.Some? && e.leaseOwner.None?
    requires e.leaseUntil.None?
    requires e.attempts >= 0
    ensures Rows(env, events[id := e], Advance(streams, slot))
  {}

  lemma AdvanceHistory(env: Env, events: Events, streams: Streams, enqueued: map<Id, Option<Slot>>, acked: set<Id>,
                       id: Id, slot: Slot, e: Event)
    requires Rows(env, events, streams) && History(events, streams, enqueued, acked)
    requires id in events && id in acked && slot.stream in streams && streams[slot.stream].next == slot.sequence
    requires SamePlace(events[id], e)
    ensures History(events[id := e], Advance(streams, slot), enqueued, acked)
  {}

  lemma AdvanceDeliveries(streams: Streams, enqueued: map<Id, Option<Slot>>, acked: set<Id>, deliveredBy: map<Slot, Id>,
                          id: Id, slot: Slot)
    requires Deliveries(streams, enqueued, acked, deliveredBy)
    requires slot.stream in streams && streams[slot.stream].start <= streams[slot.stream].next == slot.sequence
    requires id in enqueued && enqueued[id] == Some(slot) && id in acked
    ensures Deliveries(Advance(streams, slot), enqueued, acked, deliveredBy[slot := id])
  {}

  lemma AdvanceLogs(streams: Streams, log: Log, slot: Slot)
    requires Logs(streams, log) && slot.stream in streams && streams[slot.stream].next == slot.sequence
    requires Shown(log, slot)
    ensures Logs(Advance(streams, slot), log)
  {}

  // ---------------------------------------------------------------- rows that come and go

  /** A new pending row, and the stream it opens or joins. */
  ghost predicate Admits(env: Env, events: Events, streams: Streams, streams': Streams, id: Id, e: Event) {
    && id !in events
    && e.status == Pending && e.leaseOwner.None? && e.leaseUntil.None? && e.deliveredAt.None? && e.attempts == 0
    && OrderingShape(streams', e)
    && match SlotOf(e)
       case None => streams' == streams
       case Some(slot) =>
         && slot.stream in streams' && StreamOk(env, slot.stream, streams'[slot.stream])
         && streams' == streams[slot.stream := streams'[slot.stream]]
         && (if slot.stream in streams then streams'[slot.stream] == streams[slot.stream]
             else streams'[slot.stream].start == streams'[slot.stream].next)
         && streams'[slot.stream].next <= slot.sequence
         && !SlotTaken(events, slot.stream, slot.sequence)
  }

  lemma SlotIsFree(events: Events, slot: Slot, i: Id)
    requires !SlotTaken(events, slot.stream, slot.sequence) && i in events
    ensures SlotOf(events[i]) != Some(slot)
  {}

  lemma AdmitRows(env: Env, events: Events, streams: Streams, streams': Streams, id: Id, e: Event)
    requires Rows(env, events, streams) && Admits(env, events, streams, streams', id, e)
    ensures Rows(env, events[id := e], streams')
  {
    forall i | i in events ensures RowOk(streams', events[i]) { assert RowOk(streams, events[i]); }
    if SlotOf(e).Some? {
      forall i | i in events ensures SlotOf(events[i]) != SlotOf(e) { SlotIsFree(events, SlotOf(e).value, i); }
    }
  }

  /** No sequence is reused: a slot whose row was removed has been passed. */
  lemma AdmitHistory(env: Env, events: Events, streams: Streams, streams': Streams, enqueued: map<Id, Option<Slot>>,
                     acked: set<Id>,
                     id: Id, e: Event)
    requires Rows(env, events, streams) && History(events, streams, enqueued, acked)
    requires Admits(env, events, streams, streams', id, e) && id !in enqueued
    ensures History(events[id := e], streams', enqueued[id := SlotOf(e)], acked)
  {}

  lemma AdmitOpens(env: Env, events: Events, streams: Streams, streams': Streams, id: Id, e: Event, log: Log,
                   enqueued: map<Id, Option<Slot>>, acked: set<Id>, deliveredBy: map<Slot, Id>)
    requires Admits(env, events, streams, streams', id, e) && id !in enqueued
    requires Logs(streams, log) && Deliveries(streams, enqueued, acked, deliveredBy)
    ensures Logs(streams', log) && Onward(streams, streams')
    ensures Deliveries(streams', enqueued[id := SlotOf(e)], acked, deliveredBy)
  {}

  lemma AdmitKeeps(env: Env, w: World, w': World, id: Id, e: Event)
    requires Consistent(env, w) && id !in w.enqueued
    requires Admits(env, w.db.events, w.db.streams, w'.db.streams, id, e)
    requires w'.db.events == w.db.events[id := e] && w'.db.now == w.db.now
    requires w' == w.(db := w'.db, enqueued := w.enqueued[id := SlotOf(e)])
    ensures Consistent(env, w')
  {
    AdmitRows(env, w.db.events, w.db.streams, w'.db.streams, id, e);
    AdmitHistory(env, w.db.events, w.db.streams, w'.db.streams, w.enqueued, w.acked, id, e);
    AdmitOpens(env, w.db.events, w.db.streams, w'.db.streams, id, e, w.log, w.enqueued, w.acked, w.deliveredBy);
    forall i | 0 <= i < |w'.handlers|
      ensures HandlerOk(env, w'.db.streams, w'.enqueued, w'.acked, w'.log, w'.db.now, w'.handlers[i])
    {
      HandlerStays(env, w, w', w.handlers[i]);
    }
  }

  lemma EnqueueKeeps(env: Env, w: World, id: Id, event: NewEvent)
    requires Consistent(env, w) && FreshIds(w, Step.Enqueue(id, event))
    ensures Consistent(env, ApplyTable(env, w, Step.Enqueue(id, event)))
  {
    var result := Tables.Enqueue(env.part, w.db, id, event);
    if result.Enqueued? {
      EnqueueAdmits(env, w, id, event);
      AdmitKeeps(env, w, ApplyTable(env, w, Step.Enqueue(id, event)), id, result.db.events[id]);
    }
  }

  lemma EnqueueAdmits(env: Env, w: World, id: Id, event: NewEvent)
    requires Consistent(env, w) && Tables.Enqueue(env.part, w.db, id, event).Enqueued?
    ensures var db' := Tables.Enqueue(env.part, w.db, id, event).db;
      && id in db'.events && db'.events == w.db.events[id := db'.events[id]]
      && db' == w.db.(events := db'.events, streams := db'.streams)
      && Admits(env, w.db.events, w.db.streams, db'.streams, id, db'.events[id])
  {
    if event.orderingKey != "" {
      var k := StreamKey(event.destination, event.orderingKey);
      if k in w.db.streams {
        assert StreamOk(env, k, w.db.streams[k]);
        assert w.db.streams[k := w.db.streams[k]] == w.db.streams;
      }
    }
  }

  lemma ReplayKeeps(env: Env, w: World, source: Id, id: Id, unordered: bool)
    requires Consistent(env, w) && FreshIds(w, Step.Replay(source, id, unordered))
    ensures Consistent(env, ApplyTable(env, w, Step.Replay(source, id, unordered)))
  {
    var w' := ApplyTable(env, w, Step.Replay(source, id, unordered));
    if w' != w {
      AdmitKeeps(env, w, w', id, w'.db.events[id]);
    }
  }

  lemma CleanupKeeps(env: Env, w: World, retention: Time, batch: set<Id>)
    requires Consistent(env, w)
    ensures Consistent(env, ApplyTable(env, w, Cleanup(retention, batch)))
  {
    var w' := ApplyTable(env, w, Cleanup(retention, batch));
    var kept := w'.db.events;
    assert forall id :: id in kept ==> id in w.db.events && kept[id] == w.db.events[id];
    assert Rows(env, kept, w.db.streams);
    forall id | id in w.enqueued ensures Accounted(kept, w.db.streams, w.acked, id, w.enqueued[id]) {
      assert Accounted(w.db.events, w.db.streams, w.acked, id, w.enqueued[id]);
      if id in w.db.events { assert RowOk(w.db.streams, w.db.events[id]); }
    }
  }

  // ---------------------------------------------------------------- every run

  lemma ClockStepKeeps(env: Env, w: World, step: Step)
    requires Consistent(env, w) && ClockStep(step)
    ensures Consistent(env, w.(db := ApplyClock(w.db, step)))
  {}

  lemma PartitionStepKeeps(env: Env, w: World, step: Step)
    requires Consistent(env, w) && PartitionStep(step)
    ensures Consistent(env, w.(db := ApplyPartition(env, w.db, step)))
  {}

  lemma TableStepKeeps(env: Env, w: World, step: Step)
    requires Consistent(env, w) && FreshIds(w, step) && TableStep(step)
    ensures Consistent(env, ApplyTable(env, w, step))
  {
    match step
    case Enqueue(id, event) => EnqueueKeeps(env, w, id, event);
    case Replay(source, id, unordered) => ReplayKeeps(env, w, source, id, unordered);
    case RetryDead(id) => RetryDeadKeeps(env, w, id);
    case Cleanup(retention, batch) => CleanupKeeps(env, w, retention, batch);
  }

  lemma HandlerStepKeeps(env: Env, w: World, step: Step)
    requires Consistent(env, w) && HandlerStep(step)
    ensures Consistent(env, ApplyHandler(env, w, step))
  {
    match step
    case Begin(h) => BeginKeeps(env, w, h);
    case Append(h) => AppendKeeps(env, w, h);
    case Ack(h) => AckKeeps(env, w, h);
    case Fail(h, permanent) => FailKeeps(env, w, h, permanent);
    case MarkDelivered(h) => DeliveredKeeps(env, w, h);
    case MarkRetry(h, delay) => RetryKeeps(env, w, h, delay);
    case MarkDead(h) => DeadKeeps(env, w, h);
    case Abandon(h) => AbandonKeeps(env, w, h);
    case Crash(r) => CrashKeeps(env, w, r);
  }

  lemma ClaimStepKeeps(env: Env, w: World, step: Step)
    requires Consistent(env, w) && ClaimStep(step)
    ensures Consistent(env, Dispatch(env, w, step.owner, Picks(env, w, step)))
  {
    DispatchKeeps(env, w, step.owner, Picks(env, w, step));
  }

  lemma StepKeeps(env: Env, w: World, step: Step)
    requires Consistent(env, w) && FreshIds(w, step)
    ensures Consistent(env, Apply(env, w, step))
  {
    if ClockStep(step) {
      ClockStepKeeps(env, w, step);
    } else if PartitionStep(step) {
      PartitionStepKeeps(env, w, step);
    } else if TableStep(step) {
      TableStepKeeps(env, w, step);
    } else if ClaimStep(step) {
      ClaimStepKeeps(env, w, step);
    } else {
      HandlerStepKeeps(env, w, step);
    }
  }

  lemma AbandonKeeps(env: Env, w: World, h: nat)
    requires Consistent(env, w)
    ensures Consistent(env, StepAbandon(w, h))
  {
    if Running(w, h) && w.handlers[h].phase != Publishing { FinishKeeps(env, w, h, Finished); }
  }

  lemma FailKeeps(env: Env, w: World, h: nat, permanent: bool)
    requires Consistent(env, w)
    ensures Consistent(env, StepFail(w, h, permanent))
  {
    if Running(w, h) && w.handlers[h].phase == Publishing {
      assert HandlerOk(env, w.db.streams, w.enqueued, w.acked, w.log, w.db.now, w.handlers[h]);
      FinishKeeps(env, w, h, Failed(permanent));
    }
  }

  lemma InitIsConsistent(env: Env, now: Time)
    ensures Consistent(env, Init(now))
  {}
}
