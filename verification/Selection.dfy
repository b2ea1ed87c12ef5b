/** The bounded, ordered scans behind a claim: the first k rows by
    (available_at, created_at, id), and why claiming may scan the pending and the
    expired rows separately. */
module Selection {
  import opened Types

  type Id = nat

  /** The claim order of one row. Ids are primary keys, so ranks of distinct rows differ. */
  datatype Rank = Rank(availableAt: Time, createdAt: Time, id: Id)

  predicate Before(a: Rank, b: Rank) {
    || a.availableAt < b.availableAt
    || (a.availableAt == b.availableAt && a.createdAt < b.createdAt)
    || (a.availableAt == b.availableAt && a.createdAt == b.createdAt && a.id < b.id)
  }

  ghost predicate IsEarliest(m: Rank, rows: set<Rank>) {
    m in rows && forall x :: x in rows && x != m ==> Before(m, x)
  }

  lemma {:induction false} EarliestExists(rows: set<Rank>)
    requires rows != {}
    ensures exists m :: IsEarliest(m, rows)
  {
    var a :| a in rows;
    var rest := rows - {a};
    if rest == {} {
      assert rows == rest + {a};
      assert IsEarliest(a, rows);
    } else {
      EarliestExists(rest);
      var m :| IsEarliest(m, rest);
      var least := if Before(a, m) then a else m;
      assert Before(a, m) || Before(m, a);
      forall x | x in rows && x != least ensures Before(least, x) {
        assert x == a || x == m || (x in rest && Before(m, x));
      }
      assert IsEarliest(least, rows);
    }
  }

  ghost function Earliest(rows: set<Rank>): (m: Rank)
    requires rows != {}
    ensures IsEarliest(m, rows)
  {
    EarliestExists(rows);
    var m :| IsEarliest(m, rows);
    m
  }

  /** ORDER BY available_at, created_at, id LIMIT k over a set of rows. */
  ghost function Top(k: nat, rows: set<Rank>): (top: seq<Rank>)
    ensures |top| <= k
    ensures forall i :: 0 <= i < |top| ==> top[i] in rows
    ensures forall i, j :: 0 <= i < j < |top| ==> Before(top[i], top[j])
  {
    if k == 0 || rows == {} then []
    else
      var m := Earliest(rows);
      var rest := Top(k - 1, rows - {m});
      assert forall i :: 0 <= i < |rest| ==> Before(m, rest[i]);
      [m] + rest
  }

  ghost function Elements(s: seq<Rank>): (e: set<Rank>)
    ensures forall x :: x in e <==> x in s
  {
    set x | x in s
  }

  /** What Top returns: every row when there are at most k, and otherwise exactly
      k rows, all of which precede every row left behind. */
  lemma {:induction false} TopIsTheEarliest(k: nat, rows: set<Rank>)
    ensures |Top(k, rows)| == Min(k, |rows|)
    ensures forall a, b :: a in Top(k, rows) && b in rows && b !in Top(k, rows) ==> Before(a, b)
  {
    if k > 0 && rows != {} {
      var m := Earliest(rows);
      TopIsTheEarliest(k - 1, rows - {m});
    }
  }

  /** The rows of a table that come before a given rank. */
  function Ahead(rows: set<Rank>, x: Rank): set<Rank> {
    set y | y in rows && Before(y, x)
  }

  /** A row is among the first k exactly when fewer than k rows come before it. */
  lemma {:induction false} TopIff(k: nat, rows: set<Rank>, x: Rank)
    ensures x in Top(k, rows) <==> x in rows && |Ahead(rows, x)| < k
  {
    if k > 0 && rows != {} {
      var m := Earliest(rows);
      if x == m {
        assert Ahead(rows, x) == {};
      } else if x in rows {
        TopIff(k - 1, rows - {m}, x);
        assert Ahead(rows, x) == Ahead(rows - {m}, x) + {m};
      }
    }
  }

  lemma {:induction false} TopIsMonotone(k: nat, rows: set<Rank>, x: Rank)
    requires x in Top(k, rows)
    ensures x in Top(k + 1, rows)
  {
    var m := Earliest(rows);
    if x != m {
      TopIsMonotone(k - 1, rows - {m}, x);
    }
  }

  /** A row among the first k of a larger table is among the first k of any part holding it. */
  lemma {:induction false} TopOfPart(k: nat, part: set<Rank>, rows: set<Rank>, x: Rank)
    requires part <= rows && x in part && x in Top(k, rows)
    ensures x in Top(k, part)
  {
    var m := Earliest(rows);
    if x == m {
      assert Earliest(part) == m;
    } else {
      TopOfPart(k - 1, part - {m}, rows - {m}, x);
      if m in part {
        assert Earliest(part) == m;
      } else {
        assert part - {m} == part;
        TopIsMonotone(k - 1, part, x);
      }
    }
  }

  /** Dropping rows that would not have been selected does not change the selection. */
  lemma {:induction false} TopIgnoresTheRest(k: nat, part: set<Rank>, rows: set<Rank>)
    requires part <= rows
    requires forall x :: x in Top(k, rows) ==> x in part
    ensures Top(k, part) == Top(k, rows)
  {
    if k > 0 && rows != {} {
      var m := Earliest(rows);
      assert m in Top(k, rows);
      assert Earliest(part) == m;
      forall x | x in Top(k - 1, rows - {m}) ensures x in part - {m} {
        assert x in Top(k, rows);
      }
      TopIgnoresTheRest(k - 1, part - {m}, rows - {m});
    }
  }

  /** The claim query: k pending rows and k expired rows, merged and cut to k. */
  ghost function SplitTop(k: nat, pending: set<Rank>, expired: set<Rank>): seq<Rank> {
    Top(k, Elements(Top(k, pending)) + Elements(Top(k, expired)))
  }

  /** The split scan claims exactly what one scan over every eligible row would. */
  lemma SplitScanEqualsSingleScan(k: nat, pending: set<Rank>, expired: set<Rank>)
    ensures SplitTop(k, pending, expired) == Top(k, pending + expired)
  {
    var all := pending + expired;
    var part := Elements(Top(k, pending)) + Elements(Top(k, expired));
    forall x | x in Top(k, all) ensures x in part {
      if x in pending {
        TopOfPart(k, pending, all, x);
      } else {
        TopOfPart(k, expired, all, x);
      }
    }
    TopIgnoresTheRest(k, part, all);
  }

  lemma TopOfOne(k: nat, x: Rank)
    requires k > 0
    ensures Top(k, {x}) == [x]
  {}
}
