/** The whole path: what producers enqueued to a stream takes effect at a consumer once
    per event and in sequence order, through everything both halves can go through, and
    with no assumption about time. */
module EndToEnd {
  import opened Types
  import opened Selection
  import opened Tables
  import opened Protocol
  import opened Consistency
  import opened Windows
  import opened Guarantees
  import Inbox
  import Consumer
  import Pipeline

  /** The stream's broker log as the consumer sees it: its records sit in one partition at
      increasing offsets, and no other record carries an event of the stream. */
  ghost predicate Carried(w: World, k: StreamKey, env: Consumer.Env, tp: Consumer.TopicPartition, offsets: seq<nat>) {
    && |offsets| == |LogOf(w, k)|
    && (forall i :: 0 <= i < |offsets| ==>
          env.record(tp, offsets[i]) && env.identity(tp, offsets[i]) == Some(LogOf(w, k)[i].id))
    && (forall i, j :: 0 <= i < j < |offsets| ==> offsets[i] < offsets[j])
    && (forall at, o: nat, id :: env.record(at, o) && env.identity(at, o) == Some(id) && OfStream(w, k, id) ==>
         at == tp && o in offsets)
  }

  predicate OfStream(w: World, k: StreamKey, id: Id) {
    id in w.enqueued && w.enqueued[id].Some? && w.enqueued[id].value.stream == k
  }

  // ---------------------------------------------------------------- first occurrences

  lemma {:induction false} FirstSeenPrefix(log: seq<Record>, i: nat)
    requires i <= |log|
    ensures FirstSeen(log[..i]) <= FirstSeen(log)
    decreases |log|
  {
    if i == |log| {
      assert log[..i] == log;
    } else {
      assert log[..|log| - 1][..i] == log[..i];
      FirstSeenPrefix(log[..|log| - 1], i);
    }
  }

  predicate Earliest(log: seq<Record>, i: nat) {
    i < |log| && forall j :: 0 <= j < i ==> log[j].sequence != log[i].sequence
  }

  lemma {:induction false} EarliestOf(log: seq<Record>, i: nat) returns (f: nat)
    requires i < |log|
    ensures f <= i && log[f].sequence == log[i].sequence && Earliest(log, f)
  {
    if Earliest(log, i) {
      f := i;
    } else {
      var j :| 0 <= j < i && log[j].sequence == log[i].sequence;
      f := EarliestOf(log, j);
    }
  }

  /** Before a sequence first appears, every smaller one of the stream has appeared. */
  lemma SmallerComeFirst(s: Stream, log: seq<Record>, f: nat, n: int) returns (j: nat)
    requires LogOk(s, log) && Earliest(log, f) && s.start <= n < log[f].sequence
    ensures j < f && log[j].sequence == n
  {
    var m := log[f].sequence;
    var front := log[..f];
    FirstSeenMembers(front, m);
    FirstSeenAppend(front, log[f]);
    assert log[..f + 1] == front + [log[f]];
    FirstSeenPrefix(log, f + 1);
    var shown := FirstSeen(log[..f + 1]);
    assert shown == FirstSeen(front) + [m];
    var last := |shown| - 1;
    assert shown[last] == m && shown[last] == FirstSeen(log)[last] == s.start + last;
    assert FirstSeen(front)[n - s.start] == FirstSeen(log)[n - s.start] == n;
    FirstSeenMembers(front, n);
    j :| 0 <= j < |front| && front[j].sequence == n;
  }

  // ---------------------------------------------------------------- effects in sequence order

  /** Two records of one event show one sequence. */
  ghost predicate OneSequence(log: seq<Record>, id: Id) {
    forall i, j :: 0 <= i < |log| && 0 <= j < |log| && log[i].id == log[j].id == id ==>
      log[i].sequence == log[j].sequence
  }

  lemma IdsFixSequences(penv: Env, w: World, k: StreamKey, id: Id)
    requires Consistent(penv, w)
    ensures OneSequence(LogOf(w, k), id)
  {
    var log := LogOf(w, k);
    forall i, j | 0 <= i < |log| && 0 <= j < |log| && log[i].id == log[j].id == id
      ensures log[i].sequence == log[j].sequence
    {
      RecordId(penv, w, k, i);
      RecordId(penv, w, k, j);
    }
  }

  /** The first record of an event of the stream is the first of its partition. */
  lemma FirstInPartition(w: World, k: StreamKey, env: Consumer.Env, tp: Consumer.TopicPartition, offsets: seq<nat>,
                         f: nat, id: Id)
    requires Carried(w, k, env, tp, offsets) && Earliest(LogOf(w, k), f)
    requires LogOf(w, k)[f].id == id && OfStream(w, k, id) && OneSequence(LogOf(w, k), id)
    ensures Pipeline.First(env, tp, offsets[f])
  {
    assert Pipeline.Placed(env, id, tp);
    forall o: nat | o < offsets[f] && env.record(tp, o) ensures env.identity(tp, o) != Some(id) {
      if o in offsets {
        var j :| 0 <= j < |offsets| && offsets[j] == o;
        assert j < f;
      }
    }
  }

  /** If the effect of sequence m has committed, so has the effect of every sequence of the
      stream before it, exactly once each. */
  lemma EffectsCommitInSequence(penv: Env, w: World, k: StreamKey, env: Consumer.Env, g: Consumer.Group,
                                tp: Consumer.TopicPartition,
                                offsets: seq<nat>, id: Id, m: int, n: int)
    requires ValidEnv(penv) && Reachable(penv, w, UNTIMED)
    requires Pipeline.ConfinedReachable(env, g) && Carried(w, k, env, tp, offsets)
    requires id in w.enqueued && w.enqueued[id] == Some(Slot(k, m))
    requires Inbox.IsProcessed(g.inbox.rows, Inbox.Key(env.consumer, id))
    requires k in w.db.streams && w.db.streams[k].start <= n < m
    ensures exists earlier :: earlier in w.enqueued && w.enqueued[earlier] == Some(Slot(k, n))
              && |Inbox.EffectsOn(g.inbox, Inbox.Key(env.consumer, earlier))| == 1
  {
    ReachableIsSound(penv, w, UNTIMED);
    Pipeline.ReachableIsOrderly(env, g);
    var log := LogOf(w, k);
    var i := RecordOf(w, k, env, g, tp, offsets, id);
    RecordId(penv, w, k, i);
    var f := EarliestOf(log, i);
    RecordId(penv, w, k, f);
    assert log[f].id == id;
    IdsFixSequences(penv, w, k, id);
    FirstInPartition(w, k, env, tp, offsets, f, id);
    assert LogOk(w.db.streams[k], LogFor(w.log, k));
    var j := SmallerComeFirst(w.db.streams[k], log, f, n);
    RecordId(penv, w, k, j);
    Pipeline.EffectsFollowTheLog(env, g, tp, offsets[f], offsets[j]);
    assert Inbox.EffectsOk(g.inbox, Inbox.Key(env.consumer, log[j].id));
  }

  lemma RecordOf(w: World, k: StreamKey, env: Consumer.Env, g: Consumer.Group, tp: Consumer.TopicPartition,
                 offsets: seq<nat>, id: Id) returns (i: nat)
    requires Pipeline.Orderly(env, g) && Carried(w, k, env, tp, offsets) && OfStream(w, k, id)
    requires Inbox.IsProcessed(g.inbox.rows, Inbox.Key(env.consumer, id))
    ensures i < |LogOf(w, k)| && LogOf(w, k)[i].id == id
  {
    assert Pipeline.Backed(env, g.inbox.rows, id);
    var at, o: nat :| env.record(at, o) && env.identity(at, o) == Some(id)
      && Consumer.DoneBelow(env, g.inbox.rows, at, o);
    i :| 0 <= i < |offsets| && offsets[i] == o;
  }
}
