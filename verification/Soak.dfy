/** The soak audit joined to the delivery protocol: a scan of everything the protocol put
    on the broker counts no regression and no skip, and once the streams are drained it
    misses no ordered event. Nothing is assumed about time. */
module Soak {
  import opened Types
  import opened Selection
  import opened Tables
  import opened Protocol
  import opened Consistency
  import opened Windows
  import opened Guarantees
  import Audit
  import Producers

  /** The records of one stream in a scan, as event id and sequence. */
  function Pairs(ms: seq<Audit.Message>, stream: string): seq<(Option<Id>, Option<int>)> {
    if ms == [] then []
    else
      var m := ms[|ms| - 1];
      var before := Pairs(ms[..|ms| - 1], stream);
      if Audit.Ordered(m) && Audit.StreamName(m) == stream then before + [(m.id, m.sequence)] else before
  }

  function LogPairs(log: seq<Record>): (ps: seq<(Option<Id>, Option<int>)>)
    ensures |ps| == |log| && forall i :: 0 <= i < |log| ==> ps[i] == (Some(log[i].id), Some(log[i].sequence))
  {
    seq(|log|, i requires 0 <= i < |log| => (Some(log[i].id), Some(log[i].sequence)))
  }

  /** Kafka allows no slash in a topic, so a stream's name tells its topic and key apart. */
  predicate Topic(t: string) {
    '/' !in t
  }

  function NameOf(k: StreamKey): string {
    k.destination + "/" + k.key
  }

  predicate Nameable(k: StreamKey) {
    Topic(k.destination) && k.key != ""
  }

  /** A scan of the broker: ordered records appear stream by stream in broker order, mixed
      with each other and with records of unordered events in any way. */
  ghost predicate ScanOf(w: World, ms: seq<Audit.Message>) {
    && (forall i :: 0 <= i < |ms| ==>
          if Audit.Ordered(ms[i]) then Topic(ms[i].topic)
          else ms[i].id.Some? && ms[i].id.value in w.enqueued && w.enqueued[ms[i].id.value] == None)
    && (forall k :: Nameable(k) ==> Pairs(ms, NameOf(k)) == LogPairs(LogOf(w, k)))
  }

  function StreamOf(m: Audit.Message): StreamKey {
    StreamKey(m.topic, m.key)
  }

  // ---------------------------------------------------------------- from scan to log

  lemma {:induction false} PairsHold(ms: seq<Audit.Message>, stream: string, i: nat)
    requires i < |ms| && Audit.Ordered(ms[i]) && Audit.StreamName(ms[i]) == stream
    ensures (ms[i].id, ms[i].sequence) in Pairs(ms, stream)
    decreases |ms|
  {
    if i < |ms| - 1 { PairsHold(ms[..|ms| - 1], stream, i); }
  }

  lemma {:induction false} PairsCome(ms: seq<Audit.Message>, stream: string, p: (Option<Id>, Option<int>))
    requires p in Pairs(ms, stream)
    ensures exists i :: 0 <= i < |ms| && ms[i].id == p.0
    decreases |ms|
  {
    var front, m := ms[..|ms| - 1], ms[|ms| - 1];
    if p in Pairs(front, stream) {
      PairsCome(front, stream, p);
      var i :| 0 <= i < |front| && front[i].id == p.0;
      assert ms[i].id == p.0;
    } else {
      assert ms[|ms| - 1].id == p.0;
    }
  }

  /** Where an ordered message of the scan sits in the protocol's history. */
  lemma MessageSlot(env: Env, w: World, ms: seq<Audit.Message>, i: nat)
    requires Consistent(env, w) && ScanOf(w, ms) && i < |ms| && Audit.Ordered(ms[i])
    ensures ms[i].id.Some? && ms[i].sequence.Some? && ms[i].sequence.value > 0
    ensures ms[i].id.value in w.enqueued
    ensures w.enqueued[ms[i].id.value] == Some(Slot(StreamOf(ms[i]), ms[i].sequence.value))
  {
    var k := StreamOf(ms[i]);
    PairsHold(ms, NameOf(k), i);
    var ps := LogPairs(LogOf(w, k));
    assert Nameable(k) && Pairs(ms, NameOf(k)) == ps;
    var j :| 0 <= j < |ps| && ps[j] == (ms[i].id, ms[i].sequence);
    RecordId(env, w, k, j);
    assert Accounted(w.db.events, w.db.streams, w.acked, LogOf(w, k)[j].id, w.enqueued[LogOf(w, k)[j].id]);
    assert StreamOk(env, k, w.db.streams[k]);
  }

  lemma NamesDiffer(a: StreamKey, b: StreamKey)
    requires Topic(a.destination) && Topic(b.destination) && NameOf(a) == NameOf(b)
    ensures a == b
  {
    var s, m, n := NameOf(a), |a.destination|, |b.destination|;
    assert s[m] == '/' && s[n] == '/';
    assert forall i :: 0 <= i < m ==> s[i] == a.destination[i] && s[i] in a.destination;
    assert forall i :: 0 <= i < n ==> s[i] == b.destination[i] && s[i] in b.destination;
    assert m == n;
    assert s[..m] == a.destination && s[..n] == b.destination;
    assert s[m + 1..] == a.key && s[n + 1..] == b.key;
  }

  lemma ScanIsUnambiguous(env: Env, w: World, ms: seq<Audit.Message>)
    requires Consistent(env, w) && ScanOf(w, ms)
    ensures Audit.Unambiguous(ms)
  {
    forall i | 0 <= i < |ms| ensures Audit.WellFormed(ms[i]) {
      if Audit.Ordered(ms[i]) { MessageSlot(env, w, ms, i); }
    }
    forall i, j | 0 <= i < |ms| && 0 <= j < |ms| && ms[i].id == ms[j].id ensures Audit.SamePosition(ms[i], ms[j]) {
      if Audit.Ordered(ms[i]) { MessageSlot(env, w, ms, i); }
      if Audit.Ordered(ms[j]) { MessageSlot(env, w, ms, j); }
    }
    forall i, j | 0 <= i < |ms| && 0 <= j < |ms| && Audit.Ordered(ms[i]) && Audit.SamePosition(ms[i], ms[j])
      ensures ms[i].id == ms[j].id
    {
      MessageSlot(env, w, ms, i);
      MessageSlot(env, w, ms, j);
      NamesDiffer(StreamOf(ms[i]), StreamOf(ms[j]));
    }
  }

  /** The sequences a scan shows for a stream are those of the stream's pairs. */
  lemma {:induction false} SequencesArePairs(ms: seq<Audit.Message>, stream: string)
    requires forall i :: 0 <= i < |ms| && Audit.Ordered(ms[i]) ==> ms[i].sequence.Some?
    ensures var s, ps := Audit.SequencesOf(ms, stream), Pairs(ms, stream);
      |s| == |ps| && forall i :: 0 <= i < |s| ==> ps[i].1 == Some(s[i])
    decreases |ms|
  {
    if ms != [] { SequencesArePairs(ms[..|ms| - 1], stream); }
  }

  lemma {:induction false} FirstsAreFirstSeen(log: seq<Record>, s: seq<int>)
    requires |s| == |log| && forall i :: 0 <= i < |s| ==> s[i] == log[i].sequence
    ensures Audit.Firsts(s) == FirstSeen(log)
    decreases |log|
  {
    if log != [] { FirstsAreFirstSeen(log[..|log| - 1], s[..|s| - 1]); }
  }

  lemma ScanShowsLog(env: Env, w: World, ms: seq<Audit.Message>, k: StreamKey)
    requires Consistent(env, w) && ScanOf(w, ms) && Nameable(k)
    ensures Audit.FirstOrder(ms, NameOf(k)) == FirstSeen(LogOf(w, k))
  {
    ScanIsUnambiguous(env, w, ms);
    assert forall i :: 0 <= i < |ms| && Audit.Ordered(ms[i]) ==> Audit.WellFormed(ms[i]);
    SequencesArePairs(ms, NameOf(k));
    var s, log := Audit.SequencesOf(ms, NameOf(k)), LogOf(w, k);
    forall i | 0 <= i < |s| ensures s[i] == log[i].sequence { assert LogPairs(log)[i] == Pairs(ms, NameOf(k))[i]; }
    FirstsAreFirstSeen(log, s);
  }

  /** A name that no stream of the scan carries shows nothing. */
  lemma {:induction false} ForeignStreamIsEmpty(ms: seq<Audit.Message>, stream: string)
    requires forall i :: 0 <= i < |ms| && Audit.Ordered(ms[i]) ==> Topic(ms[i].topic)
    requires forall k :: Nameable(k) ==> NameOf(k) != stream
    ensures Audit.SequencesOf(ms, stream) == []
    decreases |ms|
  {
    if ms != [] {
      var m := ms[|ms| - 1];
      ForeignStreamIsEmpty(ms[..|ms| - 1], stream);
      assert Audit.Ordered(m) ==> Nameable(StreamOf(m)) && NameOf(StreamOf(m)) == Audit.StreamName(m);
    }
  }

  // ---------------------------------------------------------------- the joined results

  ghost predicate StartsAtOne(w: World) {
    forall k :: k in w.db.streams && Nameable(k) ==> w.db.streams[k].start == 1
  }

  lemma StreamCountsUp(env: Env, w: World, ms: seq<Audit.Message>, k: StreamKey)
    requires Consistent(env, w) && ScanOf(w, ms) && StartsAtOne(w) && Nameable(k)
    ensures Audit.CountsUp(Audit.FirstOrder(ms, NameOf(k)))
  {
    ScanShowsLog(env, w, ms, k);
    if k in w.db.streams { assert LogOk(w.db.streams[k], LogFor(w.log, k)); }
  }

  /** No producer asked a stream to start anywhere but at 1. */
  ghost predicate NobodyAsksOtherwise(env: Env, start: Time, steps: seq<Step>) {
    forall k :: Nameable(k) ==> Producers.AskedStarts(env, Init(start), steps, k) <= {1}
  }

  lemma UnaskedStartAtOne(env: Env, start: Time, steps: seq<Step>)
    requires NobodyAsksOtherwise(env, start, steps)
    ensures StartsAtOne(Exec(env, Init(start), steps))
  {
    var w := Exec(env, Init(start), steps);
    forall k | k in w.db.streams && Nameable(k) ensures w.db.streams[k].start == 1 {
      Producers.StreamsStartAsAsked(env, start, steps, k);
    }
  }

  /** A scan of what any run left on the broker shows no regression and no skip, as long as no
      producer asked a stream to start elsewhere than at 1. */
  lemma EveryRunAuditsClean(env: Env, start: Time, steps: seq<Step>, ms: seq<Audit.Message>)
    requires ValidEnv(env) && Run(env, Init(start), steps, UNTIMED) && NobodyAsksOtherwise(env, start, steps)
    requires ScanOf(Exec(env, Init(start), steps), ms)
    ensures Audit.ObserveAll(Audit.EMPTY, ms).regressions == 0 && Audit.ObserveAll(Audit.EMPTY, ms).skips == 0
  {
    var w := Exec(env, Init(start), steps);
    UnaskedStartAtOne(env, start, steps);
    ReachableIsSound(env, w, UNTIMED);
    ScanIsUnambiguous(env, w, ms);
    forall stream ensures Audit.CountsUp(Audit.FirstOrder(ms, stream)) {
      if k :| Nameable(k) && NameOf(k) == stream {
        StreamCountsUp(env, w, ms, k);
      } else {
        ForeignStreamIsEmpty(ms, stream);
      }
    }
    Audit.AuditIsSoundAndComplete(ms);
  }

  lemma PassedIsShown(s: Stream, log: seq<Record>, n: int)
    requires LogOk(s, log) && s.start <= n < s.next
    ensures exists i :: 0 <= i < |log| && log[i].sequence == n
  {
    InRange(s.start, s.next, n);
    InRange(s.start, s.next + 1, n);
    FirstSeenMembers(log, n);
  }

  lemma PassedIsLogged(env: Env, w: World, id: Id, slot: Slot)
    requires Consistent(env, w) && id in w.enqueued && w.enqueued[id] == Some(slot) && Passed(w.db.streams, slot)
    ensures (Some(id), Some(slot.sequence)) in LogPairs(LogOf(w, slot.stream))
  {
    var log := LogOf(w, slot.stream);
    assert LogOk(w.db.streams[slot.stream], LogFor(w.log, slot.stream));
    PassedIsShown(w.db.streams[slot.stream], log, slot.sequence);
    var i :| 0 <= i < |log| && log[i].sequence == slot.sequence;
    RecordId(env, w, slot.stream, i);
    assert LogPairs(log)[i] == (Some(id), Some(slot.sequence));
  }

  lemma LoggedIsObserved(w: World, ms: seq<Audit.Message>, k: StreamKey, id: Id, n: int)
    requires ScanOf(w, ms) && Nameable(k) && (Some(id), Some(n)) in LogPairs(LogOf(w, k))
    ensures id in Audit.ObserveAll(Audit.EMPTY, ms).observed
  {
    assert Pairs(ms, NameOf(k)) == LogPairs(LogOf(w, k));
    PairsCome(ms, NameOf(k), (Some(id), Some(n)));
    Audit.ObservedIds(ms, id);
  }

  /** Once the cursor has passed an ordered event, the scan has observed it. */
  lemma PassedEventsAreObserved(env: Env, w: World, ms: seq<Audit.Message>, id: Id, slot: Slot)
    requires ValidEnv(env) && Reachable(env, w, UNTIMED) && ScanOf(w, ms) && Nameable(slot.stream)
    requires id in w.enqueued && w.enqueued[id] == Some(slot) && Passed(w.db.streams, slot)
    ensures id in Audit.ObserveAll(Audit.EMPTY, ms).observed
  {
    ReachableIsSound(env, w, UNTIMED);
    PassedIsLogged(env, w, id, slot);
    LoggedIsObserved(w, ms, slot.stream, id, slot.sequence);
  }
}
