/** The Relay's scheduler: a loop that claims no more than it has room for, dispatches
    everything it claims, and stops only when every handler has reported back. What the
    store, the handlers and the clock do is given as a script, one turn per iteration. */
module Scheduler {
  import opened Types
  import opened Selection

  /** The answer of one store claim. */
  datatype Answer = Events(ids: seq<Id>) | Failure

  datatype Wakeup = Cancelled | Completed | Notified | TimedOut

  /** What happens around one iteration: handlers that finish first, the pause flag (absent
      when it cannot be read), what each claim would return, and what ends the wait. */
  datatype Turn = Turn(
    finished: nat,
    paused: Option<bool>,
    ordered: Answer,
    unordered: Answer,
    now: Time,
    wakeup: Wakeup)

  /** A store returns at most as many events as it is asked for. */
  function Ask(answer: Answer, remaining: nat): (r: Answer)
    ensures r.Failure? <==> answer.Failure?
    ensures r.Events? ==> |r.ids| <= remaining && r.ids <= answer.ids
  {
    match answer
    case Failure => Failure
    case Events(ids) => Events(if |ids| <= remaining then ids else ids[..remaining])
  }

  /** What claimAvailable hands back: the events to dispatch and what it learned. */
  datatype Claim = Claim(ids: seq<Id>, paused: bool, orderedEmpty: bool, failed: bool)

  /** The answers given to the calls that were made, first call first. */
  function Returned(first: Answer, second: Option<Answer>): seq<Id> {
    (if first.Events? then first.ids else []) + (if second.Some? && second.value.Events? then second.value.ids else [])
  }

  /** The class that is asked second; ordered events are skipped when not probed. */
  function Other(preferOrdered: bool, probeOrdered: bool, turn: Turn): Answer {
    if preferOrdered && probeOrdered then turn.unordered else if probeOrdered then turn.ordered else Events([])
  }

  /** The events a claim brings: everything the favoured class gives, and then what the
      other class gives for the room that is left. */
  function Offered(limit: nat, preferOrdered: bool, probeOrdered: bool, turn: Turn): (ids: seq<Id>)
    ensures |ids| <= limit
  {
    if limit == 0 || turn.paused != Some(false) then []
    else
      var first := Ask(if preferOrdered && probeOrdered then turn.ordered else turn.unordered, limit);
      if first.Failure? then []
      else
        var second := Ask(Other(preferOrdered, probeOrdered, turn), limit - |first.ids|);
        first.ids + if second.Events? then second.ids else []
  }

  predicate NoEvents(answer: Answer) {
    answer.Failure? || answer.ids == []
  }

  /** A claim with room comes back empty exactly when claiming is paused or its state cannot
      be read, when the class asked first fails, or when both classes have nothing. */
  lemma NothingOfferedIff(limit: nat, preferOrdered: bool, probeOrdered: bool, turn: Turn)
    requires limit > 0
    ensures var first := if preferOrdered && probeOrdered then turn.ordered else turn.unordered;
      Offered(limit, preferOrdered, probeOrdered, turn) == [] <==>
        || turn.paused != Some(false)
        || first.Failure?
        || (NoEvents(first) && NoEvents(Other(preferOrdered, probeOrdered, turn)))
  {}

  /** When every class asked answers, the room is filled as far as there are events, the
      favoured class first; nothing is made up. */
  lemma OfferedFillsTheRoom(limit: nat, preferOrdered: bool, probeOrdered: bool, turn: Turn)
    requires turn.paused == Some(false) && turn.ordered.Events? && turn.unordered.Events?
    ensures var ids := Offered(limit, preferOrdered, probeOrdered, turn);
      var ordered, unordered := if probeOrdered then turn.ordered.ids else [], turn.unordered.ids;
      && |ids| == Min(limit, |ordered| + |unordered|)
      && ids <= if preferOrdered then ordered + unordered else unordered + ordered
  {}

  /** Ordered events were asked for and none came back; a failed second call counts too. */
  predicate OrderedAskedInVain(preferOrdered: bool, probeOrdered: bool, first: Answer, second: Option<Answer>) {
    && probeOrdered
    && (preferOrdered ==> first == Events([]))
    && (!preferOrdered ==> second == Some(Failure) || second == Some(Events([])))
  }

  /** Ask one class, then the other for what room is left; an error of the second keeps
      what the first returned. */
  method ClaimAvailable(limit: nat, preferOrdered: bool, probeOrdered: bool, turn: Turn)
    returns (claim: Claim, ghost first: Answer, ghost second: Option<Answer>)
    ensures |claim.ids| <= limit
    ensures claim.ids == Returned(first, second) == Offered(limit, preferOrdered, probeOrdered, turn)
    ensures limit > 0 && turn.paused == Some(false) ==>
      && first == Ask(if preferOrdered && probeOrdered then turn.ordered else turn.unordered, limit)
      && (second.Some? <==> first.Events? && |first.ids| < limit)
      && (second.Some? ==> second == Some(Ask(Other(preferOrdered, probeOrdered, turn), limit - |first.ids|)))
    ensures claim.orderedEmpty <==>
      limit > 0 && turn.paused == Some(false) && first.Events?
        && OrderedAskedInVain(preferOrdered, probeOrdered, first, second)
    ensures claim.failed <==>
      && limit > 0
      && (turn.paused.None? || (turn.paused == Some(false) && (first.Failure? || second == Some(Failure))))
    ensures claim.paused <==> (limit > 0 && turn.paused == Some(true))
    ensures claim.paused || limit == 0 ==> claim.ids == []
  {
    first, second := Events([]), None;
    if limit == 0 { return Claim([], false, false, false), first, second; }
    if turn.paused.None? { return Claim([], false, false, true), first, second; }
    if turn.paused.value { return Claim([], true, false, false), first, second; }

    var orderedFirst := preferOrdered && probeOrdered;
    var orderedProbed, orderedEvents := false, 0;
    var answer: Answer;
    if orderedFirst {
      answer, orderedProbed := Ask(turn.ordered, limit), true;
      if answer.Events? { orderedEvents := |answer.ids|; }
    } else {
      answer := Ask(turn.unordered, limit);
    }
    first := answer;
    if answer.Failure? { return Claim([], false, false, true), first, second; }
    var ids := answer.ids;
    if |ids| == limit { return Claim(ids, false, orderedProbed && orderedEvents == 0, false), first, second; }

    if orderedFirst {
      answer := Ask(turn.unordered, limit - |ids|);
    } else if probeOrdered {
      answer, orderedProbed := Ask(turn.ordered, limit - |ids|), true;
      if answer.Events? { orderedEvents := |answer.ids|; }
    } else {
      answer := Events([]);
    }
    second := Some(answer);
    if answer.Failure? { return Claim(ids, false, orderedProbed && orderedEvents == 0, true), first, second; }
    claim := Claim(ids + answer.ids, false, orderedProbed && orderedEvents == 0, false);
  }

  class Scheduler {
    const concurrency: nat
    const batchSize: nat
    const pollInterval: Time
    const idleBackoffMax: Time

    var active: nat
    var running: nat
    var buffered: nat
    var preferOrdered: bool
    var paused: bool
    var idleWait: Time
    var orderedProbeAt: Option<Time>
    var dispatched: seq<Id>
    ghost var claimed: seq<Id>

    constructor (concurrency: nat, batchSize: nat, pollInterval: Time, idleBackoffMax: Time)
      requires concurrency > 0 && batchSize > 0 && 0 < pollInterval <= idleBackoffMax
      ensures Valid() && active == 0 && dispatched == []
    {
      this.concurrency, this.batchSize := concurrency, batchSize;
      this.pollInterval, this.idleBackoffMax := pollInterval, idleBackoffMax;
      active, running, buffered, preferOrdered, paused := 0, 0, 0, true, false;
      idleWait, orderedProbeAt, dispatched, claimed := pollInterval, None, [], [];
    }

    /** Every active handler is still running or has its completion buffered, there are
        never more than the concurrency allows, and no claimed event waits undispatched. */
    ghost predicate Valid()
      reads this
    {
      && concurrency > 0 && batchSize > 0 && 0 < pollInterval <= idleWait <= idleBackoffMax
      && running + buffered == active <= concurrency
      && dispatched == claimed
    }

    /** A handler returns and sends its completion; the channel always has room for it. */
    method Finish()
      requires Valid() && running > 0
      modifies this`running, this`buffered
      ensures Valid() && running == old(running) - 1 && buffered == old(buffered) + 1 <= concurrency
    {
      running, buffered := running - 1, buffered + 1;
    }

    method Receive()
      requires Valid() && buffered > 0
      modifies this`buffered, this`active
      ensures Valid() && buffered == old(buffered) - 1 && active == old(active) - 1
    {
      buffered, active := buffered - 1, active - 1;
    }

    /** Some handlers finish, then every buffered completion is received. */
    method Drain(finished: nat)
      requires Valid()
      modifies this`running, this`buffered, this`active
      ensures Valid() && buffered == 0 && active == running == old(running) - Min(finished, old(running))
    {
      var left := finished;
      while left > 0 && running > 0
        invariant Valid() && 0 <= left <= finished && running == old(running) - (finished - left)
        decreases left
      {
        Finish();
        left := left - 1;
      }
      while buffered > 0
        invariant Valid() && running == old(running) - Min(finished, old(running))
        decreases buffered
      {
        Receive();
      }
    }

    /** One goroutine per claimed event, whatever else the claim said. */
    method Dispatch(ids: seq<Id>)
      requires running + buffered == active && active + |ids| <= concurrency
      requires concurrency > 0 && batchSize > 0 && 0 < pollInterval <= idleWait <= idleBackoffMax
      requires claimed == dispatched + ids
      modifies this`running, this`active, this`dispatched
      ensures Valid() && dispatched == old(dispatched) + ids && active == old(active) + |ids|
    {
      running, active, dispatched := running + |ids|, active + |ids|, dispatched + ids;
    }

    function Room(): nat
      requires active <= concurrency
      reads this
    {
      Min(batchSize, concurrency - active)
    }

    /** The ordered class is asked unless an empty answer was seen within a poll interval. */
    predicate Probes(now: Time)
      reads this
    {
      orderedProbeAt.None? || orderedProbeAt.value <= now
    }

    /** Claim into the free capacity and dispatch the result. The favoured class gets all the
        room it can use, and the favour alternates, so neither class can keep the other out. */
    method Refill(turn: Turn) returns (some: bool, ghost claim: Claim)
      requires Valid() && active < concurrency
      modifies this
      ensures Valid() && dispatched == old(dispatched) + claim.ids && active == old(active) + |claim.ids|
      ensures |claim.ids| <= old(Room())
      ensures claim.ids == Offered(old(Room()), old(preferOrdered), old(Probes(turn.now)), turn)
      ensures (some <==> claim.ids != [])
      ensures preferOrdered == !old(preferOrdered) && paused == claim.paused == (turn.paused == Some(true))
      ensures turn.paused == Some(false) ==>
        var probes := old(orderedProbeAt).None? || old(orderedProbeAt).value <= turn.now;
        var room := if batchSize < concurrency - old(active) then batchSize else concurrency - old(active);
        var favoured := Ask(if old(preferOrdered) && probes then turn.ordered else turn.unordered, room);
        if favoured.Failure? then claim.ids == [] && claim.failed else favoured.ids <= claim.ids
      ensures orderedProbeAt == if claim.orderedEmpty then Some(turn.now + pollInterval) else old(orderedProbeAt)
      ensures idleWait == if claim.ids != [] then pollInterval
                          else if claim.paused || claim.failed || active > 0 then old(idleWait)
                          else Min(idleBackoffMax, old(idleWait) * 2)
    {
      var answer, first, second := ClaimAvailable(Room(), preferOrdered, Probes(turn.now), turn);
      preferOrdered := !preferOrdered;
      if answer.orderedEmpty { orderedProbeAt := Some(turn.now + pollInterval); }
      paused := answer.paused;
      claimed := claimed + Returned(first, second);
      Dispatch(answer.ids);
      some, claim := |answer.ids| > 0, answer;
      if some {
        idleWait := pollInterval;
      } else if !paused && !answer.failed && active == 0 {
        idleWait := Min(idleBackoffMax, idleWait * 2);
      }
    }

    /** Wait until a completion, a notification, the timer or cancellation. */
    method Wait(wakeup: Wakeup)
      requires Valid()
      modifies this`running, this`buffered, this`active, this`idleWait, this`orderedProbeAt
      ensures Valid() && active == if wakeup == Completed && old(active) > 0 then old(active) - 1 else old(active)
      ensures wakeup == Notified ==> idleWait == pollInterval && orderedProbeAt.None?
      ensures wakeup != Notified ==> orderedProbeAt == old(orderedProbeAt)
      ensures wakeup == Cancelled || wakeup == TimedOut ==> idleWait == old(idleWait)
      ensures wakeup == Completed && old(active) > 0 ==> idleWait == pollInterval
    {
      match wakeup {
        case Cancelled =>
        case TimedOut =>
        case Completed =>
          if active > 0 {
            if buffered == 0 { Finish(); }
            Receive();
            idleWait := pollInterval;
          }
        case Notified =>
          idleWait, orderedProbeAt := pollInterval, None;
      }
    }

    /** How many handlers are still running once this many have finished. */
    function Remaining(finished: nat): (left: nat)
      reads this
    {
      running - Min(finished, running)
    }

    /** What this turn's claim brings into the room the remaining handlers leave. */
    function Brings(turn: Turn): seq<Id>
      reads this
    {
      if Remaining(turn.finished) >= concurrency then []
      else
        var room := Min(batchSize, concurrency - Remaining(turn.finished));
        Offered(room, preferOrdered, Probes(turn.now), turn)
    }

    /** One pass through the loop body while claiming is allowed. Every completion is
        received, then exactly what the claim brings is dispatched; only if that is nothing
        does the loop wait, and one more completion may end the wait. */
    method Iterate(turn: Turn)
      requires Valid()
      modifies this
      ensures Valid() && dispatched == old(dispatched) + old(Brings(turn))
      ensures old(Brings(turn)) != [] ==>
        active == old(Remaining(turn.finished)) + |old(Brings(turn))| && idleWait == pollInterval
      ensures old(Brings(turn)) == [] ==>
        var left := old(Remaining(turn.finished));
        active == if turn.wakeup == Completed && left > 0 then left - 1 else left
      ensures old(Brings(turn)) == [] && turn.wakeup == Notified ==> idleWait == pollInterval && orderedProbeAt.None?
      ensures preferOrdered != old(preferOrdered) <==> old(Remaining(turn.finished)) < concurrency
    {
      Drain(turn.finished);
      if active < concurrency {
        var some, claim := Refill(turn);
        if some { return; }
      }
      Wait(turn.wakeup);
    }

    /** Run the scripted turns, then cancel: the loop keeps receiving completions and
        returns only when no handler is left, having dispatched all it ever claimed. */
    method Run(turns: seq<Turn>)
      requires Valid()
      modifies this
      ensures Valid() && active == 0 && running == 0 && buffered == 0
      ensures dispatched == claimed && old(dispatched) <= dispatched
    {
      for i := 0 to |turns|
        invariant Valid() && old(dispatched) <= dispatched
      {
        Iterate(turns[i]);
      }
      while active > 0
        invariant Valid() && old(dispatched) <= dispatched
        decreases active
      {
        if buffered == 0 { Finish(); }
        Receive();
      }
    }
  }
}
