/** The soak audit: a fold over broker records that counts regressions and skips. Both
    counts are zero exactly when every stream's sequences first appear as 1, 2, 3, ... */
module Audit {
  import opened Types
  import opened Selection

  /** A broker record as its headers show it: the event id and the sequence may be
      unreadable, and an empty ordering key marks an unordered event. */
  datatype Message = Message(id: Option<Id>, topic: string, key: string, sequence: Option<int>)

  function StreamName(m: Message): string {
    m.topic + "/" + m.key
  }

  predicate Ordered(m: Message) {
    m.key != ""
  }

  // ---------------------------------------------------------------- the fold

  datatype Tally = Tally(
    observed: set<Id>,
    last: map<string, int>,
    records: nat,
    regressions: nat,
    skips: nat,
    errors: nat)

  const EMPTY := Tally({}, map[], 0, 0, 0, 0)

  function Last(last: map<string, int>, stream: string): int {
    if stream in last then last[stream] else 0
  }

  predicate Regresses(previous: int, sequence: int) {
    previous != 0 && sequence < previous
  }

  predicate Skips(previous: int, sequence: int) {
    !Regresses(previous, sequence) && sequence > previous + 1
  }

  /** Sequence bookkeeping for the first record of an ordered event. */
  function Sequenced(t: Tally, stream: string, sequence: int): Tally {
    var previous := Last(t.last, stream);
    t.(regressions := t.regressions + (if Regresses(previous, sequence) then 1 else 0),
       skips := t.skips + (if Skips(previous, sequence) then 1 else 0),
       last := if sequence > previous then t.last[stream := sequence] else t.last)
  }

  function Observe(t: Tally, m: Message): Tally {
    var counted := t.(records := t.records + 1);
    if m.id.None? then counted.(errors := t.errors + 1)
    else if m.id.value in t.observed then counted
    else
      var noted := counted.(observed := t.observed + {m.id.value});
      if !Ordered(m) then noted
      else if m.sequence.None? then noted.(errors := t.errors + 1)
      else Sequenced(noted, StreamName(m), m.sequence.value)
  }

  function ObserveAll(t: Tally, ms: seq<Message>): Tally {
    if ms == [] then t else Observe(ObserveAll(t, ms[..|ms| - 1]), ms[|ms| - 1])
  }

  // ---------------------------------------------------------------- the object that runs it

  datatype Expected = Expected(ordered: bool, stream: string, sequence: int)

  datatype Snapshot = Snapshot(
    committed: nat,
    observed: nat,
    records: nat,
    duplicates: nat,
    lost: nat,
    regressions: nat,
    skips: nat,
    errors: nat)

  /** How many of the first ids are absent from the second. */
  method CountMissing(ids: set<Id>, among: set<Id>) returns (n: nat)
    ensures n == |ids - among|
  {
    n := 0;
    var rest := ids;
    ghost var found: set<Id> := {};
    while rest != {}
      invariant rest <= ids && found == (ids - rest) - among && n == |found|
      decreases rest
    {
      var id :| id in rest;
      rest := rest - {id};
      if id !in among { n, found := n + 1, found + {id}; }
    }
    assert found == ids - among;
  }

  class Verifier {
    var expected: map<Id, Expected>
    var orderedCommitted: nat
    var unorderedCommitted: nat
    var observed: set<Id>
    var last: map<string, int>
    var records: nat
    var regressions: nat
    var skips: nat
    var errors: nat

    constructor ()
      ensures View() == EMPTY && expected == map[] && orderedCommitted == 0 && unorderedCommitted == 0
    {
      expected, orderedCommitted, unorderedCommitted := map[], 0, 0;
      observed, last, records, regressions, skips, errors := {}, map[], 0, 0, 0, 0;
    }

    /** The same expectations, and nothing observed yet. */
    constructor AuditClone(live: Verifier)
      ensures View() == EMPTY && expected == live.expected
      ensures orderedCommitted == live.orderedCommitted && unorderedCommitted == live.unorderedCommitted
    {
      expected, orderedCommitted, unorderedCommitted := live.expected, live.orderedCommitted, live.unorderedCommitted;
      observed, last, records, regressions, skips, errors := {}, map[], 0, 0, 0, 0;
    }

    function View(): Tally
      reads this
    {
      Tally(observed, last, records, regressions, skips, errors)
    }

    method Committed(id: Id, e: Expected)
      modifies this`expected, this`orderedCommitted, this`unorderedCommitted
      ensures expected == old(expected)[id := e]
      ensures orderedCommitted + unorderedCommitted == old(orderedCommitted + unorderedCommitted) + 1
      ensures orderedCommitted == old(orderedCommitted) + if e.ordered then 1 else 0
    {
      expected := expected[id := e];
      if e.ordered { orderedCommitted := orderedCommitted + 1; } else { unorderedCommitted := unorderedCommitted + 1; }
    }

    method ObserveRecord(m: Message)
      modifies this`observed, this`last, this`records, this`regressions, this`skips, this`errors
      ensures View() == Observe(old(View()), m)
    {
      records := records + 1;
      if m.id.None? {
        errors := errors + 1;
        return;
      }
      if m.id.value in observed { return; }
      observed := observed + {m.id.value};
      if m.key == "" { return; }
      if m.sequence.None? {
        errors := errors + 1;
        return;
      }
      var stream, sequence := m.topic + "/" + m.key, m.sequence.value;
      var previous := Last(last, stream);
      if previous != 0 && sequence < previous {
        regressions := regressions + 1;
      } else if sequence > previous + 1 {
        skips := skips + 1;
      }
      if sequence > previous { last := last[stream := sequence]; }
    }

    /** A scan of the whole log from its beginning. */
    method Scan(ms: seq<Message>)
      modifies this`observed, this`last, this`records, this`regressions, this`skips, this`errors
      ensures View() == ObserveAll(old(View()), ms)
    {
      for i := 0 to |ms|
        invariant View() == ObserveAll(old(View()), ms[..i])
      {
        assert ms[..i + 1][..i] == ms[..i];
        ObserveRecord(ms[i]);
      }
      assert ms[..|ms|] == ms;
    }

    /** The audit's observations replace the live ones. */
    method AdoptAudit(audit: Verifier)
      modifies this`observed, this`last, this`records, this`regressions, this`skips, this`errors
      ensures View() == old(audit.View())
    {
      observed, last, records := audit.observed, audit.last, audit.records;
      regressions, skips, errors := audit.regressions, audit.skips, audit.errors;
    }

    /** Lost events are exactly the expected ones never observed. */
    method TakeSnapshot() returns (s: Snapshot)
      ensures s.committed == |expected| && s.lost == |expected.Keys - observed|
      ensures s.observed == |expected.Keys * observed|
      ensures s.lost == 0 <==> expected.Keys <= observed
      ensures s.records == records && s.regressions == regressions && s.skips == skips
      ensures s.duplicates == Max(0, records - |observed|)
      ensures s.errors == errors + |observed - expected.Keys|
    {
      var missing := CountMissing(expected.Keys, observed);
      var unexpected := CountMissing(observed, expected.Keys);
      assert expected.Keys == (expected.Keys * observed) + (expected.Keys - observed);
      var seen := |expected| - missing;
      s := Snapshot(|expected|, seen, records, Max(0, records - |observed|), missing, regressions, skips,
        errors + unexpected);
    }
  }

  // ---------------------------------------------------------------- what the counts count

  /** The record is the first to show its event. */
  predicate Shows(ms: seq<Message>, i: nat) {
    i < |ms| && ms[i].id.Some? && forall j :: 0 <= j < i ==> ms[j].id != ms[i].id
  }

  /** It also places its event in a stream. */
  predicate Places(ms: seq<Message>, i: nat) {
    Shows(ms, i) && ms[i].key != "" && ms[i].sequence.Some?
  }

  predicate SameStream(ms: seq<Message>, j: nat, i: nat)
    requires j < |ms| && i < |ms|
  {
    ms[j].topic + "/" + ms[j].key == ms[i].topic + "/" + ms[i].key
  }

  datatype Flaw = Unreadable | Regression | Skip

  /** A record cannot be read, comes after a later sequence of its stream, or leaves some out. */
  predicate Flawed(ms: seq<Message>, i: nat, flaw: Flaw)
    requires i < |ms|
  {
    match flaw
    case Unreadable => ms[i].id.None? || (Shows(ms, i) && ms[i].key != "" && ms[i].sequence.None?)
    case Regression =>
      && Places(ms, i)
      && exists j :: 0 <= j < i && Places(ms, j) && SameStream(ms, j, i)
                     && ms[j].sequence.value > 0 && ms[j].sequence.value > ms[i].sequence.value
    case Skip =>
      && Places(ms, i) && ms[i].sequence.value > 1
      && forall j :: 0 <= j < i && Places(ms, j) && SameStream(ms, j, i) ==>
           ms[j].sequence.value + 1 < ms[i].sequence.value
  }

  function Flaws(ms: seq<Message>, flaw: Flaw): set<nat> {
    set i: nat | i < |ms| && Flawed(ms, i, flaw)
  }

  lemma FlawsGrow(ms: seq<Message>, flaw: Flaw)
    requires ms != []
    ensures var last := |ms| - 1;
      |Flaws(ms, flaw)| == |Flaws(ms[..last], flaw)| + if Flawed(ms, last, flaw) then 1 else 0
  {
    var last := |ms| - 1;
    forall i: nat | i < last ensures Flawed(ms, i, flaw) == Flawed(ms[..last], i, flaw) {
      FlawStands(ms, last, i, flaw);
    }
    assert Flaws(ms, flaw) == Flaws(ms[..last], flaw) + if Flawed(ms, last, flaw) then {last} else {};
  }

  lemma FlawStands(ms: seq<Message>, n: nat, i: nat, flaw: Flaw)
    requires i < n <= |ms|
    ensures Flawed(ms, i, flaw) == Flawed(ms[..n], i, flaw)
  {
    assert forall j: nat :: j <= i ==> (Places(ms, j) <==> Places(ms[..n], j)) && (Shows(ms, j) <==> Shows(ms[..n], j));
    assert forall j: nat :: j <= i ==> SameStream(ms, j, i) == SameStream(ms[..n], j, i);
  }

  /** The sequences a stream's events were placed at. */
  function Placed(ms: seq<Message>, stream: string): set<int> {
    set i: nat | i < |ms| && Places(ms, i) && StreamName(ms[i]) == stream :: ms[i].sequence.value
  }

  lemma PlacesStand(ms: seq<Message>, n: nat, i: nat)
    requires i < n <= |ms|
    ensures Places(ms[..n], i) == Places(ms, i) && ms[..n][i] == ms[i]
  {}

  lemma PlacedGrow(ms: seq<Message>, stream: string)
    requires ms != []
    ensures var last := |ms| - 1;
      Placed(ms, stream) == Placed(ms[..last], stream)
        + if Places(ms, last) && StreamName(ms[last]) == stream then {ms[last].sequence.value} else {}
  {
    var last := |ms| - 1;
    forall i: nat | i < last { PlacesStand(ms, last, i); }
    forall x | x in Placed(ms[..last], stream) ensures x in Placed(ms, stream) {
      var i: nat :| i < last && Places(ms[..last], i) && StreamName(ms[..last][i]) == stream
                    && ms[..last][i].sequence.value == x;
      assert Places(ms, i);
    }
    forall x | x in Placed(ms, stream)
      ensures
        || x in Placed(ms[..last], stream)
        || (Places(ms, last) && StreamName(ms[last]) == stream && x == ms[last].sequence.value)
    {
      var i: nat :| i < |ms| && Places(ms, i) && StreamName(ms[i]) == stream && ms[i].sequence.value == x;
      if i < last { assert Places(ms[..last], i); }
    }
  }

  /** The highest of some sequences, or zero if none is positive. */
  ghost predicate Highest(sequences: set<int>, high: int) {
    high in sequences + {0} && high >= 0 && forall x :: x in sequences ==> x <= high
  }

  lemma ShownIff(ms: seq<Message>)
    requires ms != [] && ms[|ms| - 1].id.Some?
    ensures ms[|ms| - 1].id.value in ObserveAll(EMPTY, ms[..|ms| - 1]).observed <==> !Shows(ms, |ms| - 1)
  {
    ObservedIds(ms[..|ms| - 1], ms[|ms| - 1].id.value);
  }

  lemma LastGrows(ms: seq<Message>, stream: string)
    requires ms != []
    ensures var last := |ms| - 1;
      var was, now := Last(ObserveAll(EMPTY, ms[..last]).last, stream), Last(ObserveAll(EMPTY, ms).last, stream);
      now == if Places(ms, last) && StreamName(ms[last]) == stream then Max(was, ms[last].sequence.value) else was
  {
    if ms[|ms| - 1].id.Some? { ShownIff(ms); }
  }

  lemma {:induction false} LastIsHighest(ms: seq<Message>, stream: string)
    ensures Highest(Placed(ms, stream), Last(ObserveAll(EMPTY, ms).last, stream))
    decreases |ms|
  {
    if ms != [] {
      LastIsHighest(ms[..|ms| - 1], stream);
      PlacedGrow(ms, stream);
      LastGrows(ms, stream);
    }
  }

  lemma FlawsByHighest(ms: seq<Message>, high: int)
    requires ms != [] && Places(ms, |ms| - 1) && Highest(Placed(ms[..|ms| - 1], StreamName(ms[|ms| - 1])), high)
    ensures Flawed(ms, |ms| - 1, Regression) <==> Regresses(high, ms[|ms| - 1].sequence.value)
    ensures Flawed(ms, |ms| - 1, Skip) <==> Skips(high, ms[|ms| - 1].sequence.value)
  {
    var front, last := ms[..|ms| - 1], |ms| - 1;
    var placed := Placed(front, StreamName(ms[last]));
    forall j: nat | j < last && Places(ms, j) && SameStream(ms, j, last) ensures ms[j].sequence.value in placed {
      PlacesStand(ms, last, j);
      assert Places(front, j) && StreamName(front[j]) == StreamName(ms[last]);
    }
    if high > 0 {
      var j: nat :| j < |front| && Places(front, j) && StreamName(front[j]) == StreamName(ms[last])
                    && front[j].sequence.value == high;
      PlacesStand(ms, last, j);
      assert Places(ms, j) && SameStream(ms, j, last);
    }
  }

  lemma LastFlaws(ms: seq<Message>)
    requires ms != []
    ensures var i := |ms| - 1; var t, t' := ObserveAll(EMPTY, ms[..i]), ObserveAll(EMPTY, ms);
      && t'.errors == t.errors + (if Flawed(ms, i, Unreadable) then 1 else 0)
      && t'.regressions == t.regressions + (if Flawed(ms, i, Regression) then 1 else 0)
      && t'.skips == t.skips + (if Flawed(ms, i, Skip) then 1 else 0)
  {
    var front, m := ms[..|ms| - 1], ms[|ms| - 1];
    if m.id.Some? { ShownIff(ms); }
    if Places(ms, |ms| - 1) {
      LastIsHighest(front, StreamName(m));
      FlawsByHighest(ms, Last(ObserveAll(EMPTY, front).last, StreamName(m)));
    }
  }

  /** The counts of a scan are the numbers of its records, of its distinct events, and of the
      records with each flaw. */
  lemma {:induction false} CountsAreExact(ms: seq<Message>)
    ensures var t := ObserveAll(EMPTY, ms);
      && t.records == |ms|
      && (forall id :: id in t.observed <==> exists j :: 0 <= j < |ms| && ms[j].id == Some(id))
      && t.errors == |Flaws(ms, Unreadable)| && t.regressions == |Flaws(ms, Regression)| && t.skips == |Flaws(ms, Skip)|
    decreases |ms|
  {
    forall id ensures id in ObserveAll(EMPTY, ms).observed <==> exists j :: 0 <= j < |ms| && ms[j].id == Some(id) {
      ObservedIds(ms, id);
    }
    if ms != [] {
      CountsAreExact(ms[..|ms| - 1]);
      LastFlaws(ms);
      FlawsGrow(ms, Unreadable);
      FlawsGrow(ms, Regression);
      FlawsGrow(ms, Skip);
    }
  }

  // ---------------------------------------------------------------- first occurrences

  /** Values in the order they first appear. */
  function Firsts(s: seq<int>): (order: seq<int>)
    ensures forall x :: x in order <==> x in s
  {
    if s == [] then []
    else
      var before := Firsts(s[..|s| - 1]);
      var n := s[|s| - 1];
      assert s == s[..|s| - 1] + [n];
      if n in before then before else before + [n]
  }

  /** The sequences a stream's records show, in log order. */
  function SequencesOf(ms: seq<Message>, stream: string): seq<int> {
    if ms == [] then []
    else
      var m := ms[|ms| - 1];
      var before := SequencesOf(ms[..|ms| - 1], stream);
      if Ordered(m) && StreamName(m) == stream && m.sequence.Some? then before + [m.sequence.value] else before
  }

  function FirstOrder(ms: seq<Message>, stream: string): seq<int> {
    Firsts(SequencesOf(ms, stream))
  }

  /** 1, 2, ..., n */
  predicate CountsUp(s: seq<int>) {
    forall i :: 0 <= i < |s| ==> s[i] == i + 1
  }

  predicate WellFormed(m: Message) {
    m.id.Some? && (Ordered(m) ==> m.sequence.Some? && m.sequence.value > 0)
  }

  /** An event id names one position, and a position of a stream one event id. */
  predicate SamePosition(a: Message, b: Message) {
    Ordered(a) == Ordered(b) && (Ordered(a) ==> StreamName(a) == StreamName(b) && a.sequence == b.sequence)
  }

  ghost predicate Unambiguous(ms: seq<Message>) {
    && (forall i :: 0 <= i < |ms| ==> WellFormed(ms[i]))
    && (forall i, j :: 0 <= i < |ms| && 0 <= j < |ms| && ms[i].id == ms[j].id ==> SamePosition(ms[i], ms[j]))
    && (forall i, j :: 0 <= i < |ms| && 0 <= j < |ms| && Ordered(ms[i]) && SamePosition(ms[i], ms[j]) ==>
         ms[i].id == ms[j].id)
  }

  ghost predicate AllCountUp(ms: seq<Message>) {
    forall stream :: CountsUp(FirstOrder(ms, stream))
  }

  lemma {:induction false} ObservedIds(ms: seq<Message>, id: Id)
    ensures id in ObserveAll(EMPTY, ms).observed <==> exists i :: 0 <= i < |ms| && ms[i].id == Some(id)
  {
    if ms != [] {
      var front, m := ms[..|ms| - 1], ms[|ms| - 1];
      ObservedIds(front, id);
      if i :| 0 <= i < |front| && front[i].id == Some(id) { assert ms[i].id == Some(id); }
      if m.id == Some(id) { assert ms[|ms| - 1].id == Some(id); }
    }
  }

  lemma {:induction false} SequenceShown(ms: seq<Message>, stream: string, n: int)
    ensures n in SequencesOf(ms, stream) <==>
      exists i :: 0 <= i < |ms| && Ordered(ms[i]) && StreamName(ms[i]) == stream && ms[i].sequence == Some(n)
  {
    if ms != [] {
      var front, m := ms[..|ms| - 1], ms[|ms| - 1];
      SequenceShown(front, stream, n);
      if i :| 0 <= i < |front| && Ordered(front[i]) && StreamName(front[i]) == stream && front[i].sequence == Some(n) {
        assert Ordered(ms[i]) && StreamName(ms[i]) == stream && ms[i].sequence == Some(n);
      }
      if Ordered(m) && StreamName(m) == stream && m.sequence == Some(n) {
        assert Ordered(ms[|ms| - 1]);
      }
    }
  }

  /** The first record of an ordered event. */
  predicate Fresh(t: Tally, m: Message) {
    Ordered(m) && m.id.Some? && m.id.value !in t.observed
  }

  lemma Extended(front: seq<Message>, m: Message)
    ensures (front + [m])[..|front|] == front && (front + [m])[|front|] == m
    ensures forall i :: 0 <= i < |front| ==> (front + [m])[i] == front[i]
  {}

  lemma FrontUnambiguous(front: seq<Message>, m: Message)
    requires Unambiguous(front + [m])
    ensures Unambiguous(front) && WellFormed(m)
  {
    Extended(front, m);
    assert WellFormed((front + [m])[|front|]);
  }

  /** An event is new to the fold exactly when its sequence is new to its stream. */
  lemma FreshMeansNew(front: seq<Message>, m: Message)
    requires Unambiguous(front + [m]) && Ordered(m) && m.id.Some? && m.sequence.Some?
    ensures Fresh(ObserveAll(EMPTY, front), m) <==> m.sequence.value !in SequencesOf(front, StreamName(m))
  {
    var ms := front + [m];
    Extended(front, m);
    ObservedIds(front, m.id.value);
    SequenceShown(front, StreamName(m), m.sequence.value);
    forall i | 0 <= i < |front|
      ensures ms[i].id == m.id <==>
        (Ordered(ms[i]) && StreamName(ms[i]) == StreamName(m) && ms[i].sequence == m.sequence)
    {
      assert ms[i].id == ms[|front|].id ==> SamePosition(ms[i], ms[|front|]);
      assert Ordered(ms[i]) && SamePosition(ms[i], ms[|front|]) ==> ms[i].id == ms[|front|].id;
    }
  }

  /** A first record of an event extends its stream's order; any other record extends none. */
  lemma OrderGrows(front: seq<Message>, m: Message, stream: string)
    requires Unambiguous(front + [m])
    ensures FirstOrder(front + [m], stream) ==
      if Fresh(ObserveAll(EMPTY, front), m) && StreamName(m) == stream && m.sequence.Some?
      then FirstOrder(front, stream) + [m.sequence.value] else FirstOrder(front, stream)
  {
    Extended(front, m);
    FrontUnambiguous(front, m);
    if Ordered(m) && StreamName(m) == stream {
      var before := SequencesOf(front, stream);
      assert (before + [m.sequence.value])[..|before|] == before;
      FreshMeansNew(front, m);
    }
  }

  predicate Flawless(t: Tally) {
    t.regressions == 0 && t.skips == 0
  }

  /** While nothing is flagged, the last sequence of a stream is how many it has shown. */
  ghost predicate InStep(t: Tally, ms: seq<Message>, stream: string) {
    CountsUp(FirstOrder(ms, stream)) && Last(t.last, stream) == |FirstOrder(ms, stream)|
  }

  ghost predicate AllInStep(t: Tally, ms: seq<Message>) {
    forall stream :: InStep(t, ms, stream)
  }

  /** Next in line, and only next in line, is flawless. */
  lemma NextInLine(t: Tally, order: seq<int>, stream: string, q: int)
    requires CountsUp(order) && Last(t.last, stream) == |order| && q !in order && q > 0 && Flawless(t)
    ensures Flawless(Sequenced(t, stream, q)) <==> CountsUp(order + [q])
    ensures CountsUp(order + [q]) ==> Last(Sequenced(t, stream, q).last, stream) == |order + [q]|
    ensures forall s :: s != stream ==> Last(Sequenced(t, stream, q).last, s) == Last(t.last, s)
  {
    assert (order + [q])[|order|] == q;
    forall n | 0 < n <= |order| ensures n in order { assert order[n - 1] == n; }
  }

  lemma FreshStep(t: Tally, front: seq<Message>, m: Message)
    requires Unambiguous(front + [m]) && t == ObserveAll(EMPTY, front) && Flawless(t) && AllInStep(t, front)
    requires Fresh(t, m)
    ensures Flawless(Observe(t, m)) <==> AllCountUp(front + [m])
    ensures AllCountUp(front + [m]) ==> AllInStep(Observe(t, m), front + [m])
  {
    FrontUnambiguous(front, m);
    var stream, q := StreamName(m), m.sequence.value;
    var noted := t.(records := t.records + 1, observed := t.observed + {m.id.value});
    forall s
      ensures FirstOrder(front + [m], s) == if s == stream then FirstOrder(front, s) + [q] else FirstOrder(front, s)
    {
      OrderGrows(front, m, s);
    }
    assert InStep(t, front, stream);
    FreshMeansNew(front, m);
    NextInLine(noted, FirstOrder(front, stream), stream, q);
    forall s | s != stream
      ensures CountsUp(FirstOrder(front + [m], s)) && Last(t.last, s) == |FirstOrder(front + [m], s)|
    {
      assert InStep(t, front, s);
    }
    if CountsUp(FirstOrder(front + [m], stream)) {
      forall s ensures InStep(Observe(t, m), front + [m], s) {}
    }
  }

  lemma OtherStep(t: Tally, front: seq<Message>, m: Message)
    requires Unambiguous(front + [m]) && t == ObserveAll(EMPTY, front) && Flawless(t) && AllInStep(t, front)
    requires !Fresh(t, m)
    ensures Flawless(Observe(t, m)) && AllCountUp(front + [m]) && AllInStep(Observe(t, m), front + [m])
  {
    FrontUnambiguous(front, m);
    forall s ensures CountsUp(FirstOrder(front + [m], s)) && InStep(Observe(t, m), front + [m], s) {
      OrderGrows(front, m, s);
      assert InStep(t, front, s);
    }
  }

  lemma FlawsStay(t: Tally, m: Message)
    ensures Flawless(Observe(t, m)) ==> Flawless(t)
  {}

  lemma OrderPrefix(front: seq<Message>, m: Message)
    requires Unambiguous(front + [m]) && AllCountUp(front + [m])
    ensures AllCountUp(front)
  {
    forall stream ensures CountsUp(FirstOrder(front, stream)) {
      OrderGrows(front, m, stream);
      assert CountsUp(FirstOrder(front + [m], stream));
      var order := FirstOrder(front, stream);
      forall i | 0 <= i < |order| ensures order[i] == i + 1 { assert FirstOrder(front + [m], stream)[i] == order[i]; }
    }
  }

  lemma {:induction false} AuditInvariant(ms: seq<Message>)
    requires Unambiguous(ms)
    ensures Flawless(ObserveAll(EMPTY, ms)) <==> AllCountUp(ms)
    ensures AllCountUp(ms) ==> AllInStep(ObserveAll(EMPTY, ms), ms)
  {
    if ms != [] {
      var front, m := ms[..|ms| - 1], ms[|ms| - 1];
      assert ms == front + [m];
      FrontUnambiguous(front, m);
      AuditInvariant(front);
      var t := ObserveAll(EMPTY, front);
      if !Flawless(t) {
        FlawsStay(t, m);
        if AllCountUp(ms) { OrderPrefix(front, m); }
      } else if Fresh(t, m) {
        FreshStep(t, front, m);
      } else {
        OtherStep(t, front, m);
      }
    }
  }

  /** Sound and complete: no regression and no skip is counted exactly when every stream's
      sequences first appear as 1, 2, 3, ... */
  lemma AuditIsSoundAndComplete(ms: seq<Message>)
    requires Unambiguous(ms)
    ensures ObserveAll(EMPTY, ms).regressions == 0 && ObserveAll(EMPTY, ms).skips == 0
       <==> forall stream :: CountsUp(FirstOrder(ms, stream))
  {
    AuditInvariant(ms);
  }
}
