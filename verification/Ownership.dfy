/** Rendezvous ownership: which live Relay should hold a virtual partition.
    The hash is a parameter, so every result holds for every hash function. */
module Ownership {
  import opened Types

  type Score = (nat, string) -> nat

  /** Byte order on instance ids. */
  predicate Less(a: string, b: string)
    decreases |a|
  {
    if b == "" then false
    else if a == "" then true
    else a[0] < b[0] || (a[0] == b[0] && Less(a[1..], b[1..]))
  }

  lemma {:induction false} LessIsTotal(a: string, b: string)
    ensures (a == b) || Less(a, b) || Less(b, a)
    ensures Less(a, b) ==> a != b && !Less(b, a)
    decreases |a|
  {
    if a != "" && b != "" && a[0] == b[0] {
      LessIsTotal(a[1..], b[1..]);
      assert a == [a[0]] + a[1..] && b == [b[0]] + b[1..];
    }
  }

  lemma {:induction false} LessIsTransitive(a: string, b: string, c: string)
    requires Less(a, b) && Less(b, c)
    ensures Less(a, c)
    decreases |a|
  {
    if a != "" && a[0] == b[0] && b[0] == c[0] {
      LessIsTransitive(a[1..], b[1..], c[1..]);
    }
  }

  /** Member a is preferred to member b: higher score, ties to the smaller id. */
  predicate Beats(score: Score, p: nat, a: string, b: string) {
    score(p, a) > score(p, b) || (score(p, a) == score(p, b) && Less(a, b))
  }

  ghost predicate IsWinner(score: Score, p: nat, members: set<string>, w: string) {
    w in members && forall m :: m in members && m != w ==> Beats(score, p, w, m)
  }

  lemma BeatsIsTransitive(score: Score, p: nat, a: string, b: string, c: string)
    requires Beats(score, p, a, b) && Beats(score, p, b, c)
    ensures Beats(score, p, a, c)
  {
    if Less(a, b) && Less(b, c) {
      LessIsTransitive(a, b, c);
    }
  }

  lemma WinnerIsUnique(score: Score, p: nat, members: set<string>, v: string, w: string)
    requires IsWinner(score, p, members, v) && IsWinner(score, p, members, w)
    ensures v == w
  {
    LessIsTotal(v, w);
  }

  lemma {:induction false} WinnerExists(score: Score, p: nat, members: set<string>)
    requires members != {}
    ensures exists w :: IsWinner(score, p, members, w)
  {
    var m :| m in members;
    var rest := members - {m};
    if rest == {} {
      assert members == rest + {m};
      assert IsWinner(score, p, members, m);
    } else {
      WinnerExists(score, p, rest);
      var w :| IsWinner(score, p, rest, w);
      LessIsTotal(m, w);
      if Beats(score, p, w, m) {
        assert IsWinner(score, p, members, w);
      } else {
        assert Beats(score, p, m, w);
        forall x | x in members && x != m ensures Beats(score, p, m, x) {
          if x != w { BeatsIsTransitive(score, p, m, w, x); }
        }
        assert IsWinner(score, p, members, m);
      }
    }
  }

  /** The owner a member set desires for a partition, by definition rather than by search. */
  ghost function Winner(score: Score, p: nat, members: set<string>): (w: Option<string>)
    ensures w == None <==> members == {}
    ensures w.Some? ==> IsWinner(score, p, members, w.value)
  {
    if members == {} then None
    else
      WinnerExists(score, p, members);
      var w :| IsWinner(score, p, members, w);
      Some(w)
  }

  /** A member list up to order and repetition. */
  function MemberSet(members: seq<string>): (s: set<string>)
    ensures s == {} <==> members == []
  {
    var s := set m | m in members;
    assert members != [] ==> members[0] in s;
    s
  }

  /** The search the Relay runs over the listed members. Ids of active Relays are never
      empty, which is what lets the empty string stand for no winner. */
  method DesiredOwner(score: Score, p: nat, members: seq<string>) returns (winner: string)
    ensures members == [] ==> winner == ""
    ensures members != [] ==> winner in members
    ensures members != [] && "" !in members ==> Winner(score, p, MemberSet(members)) == Some(winner)
  {
    winner := "";
    var winningScore := 0;
    for i := 0 to |members|
      invariant if i == 0 then winner == "" else winner in members[..i] && winningScore == score(p, winner)
      invariant i > 0 && "" !in members ==> IsWinner(score, p, MemberSet(members[..i]), winner)
    {
      var member := members[i];
      ghost var before, previous := MemberSet(members[..i]), winner;
      assert MemberSet(members[..i + 1]) == before + {member};
      if i > 0 { LessIsTotal(member, winner); }
      var s := score(p, member);
      if winner == "" || s > winningScore || (s == winningScore && Less(member, winner)) {
        if i > 0 && "" !in members {
          forall m | m in before && m != previous && m != member ensures Beats(score, p, member, m) {
            BeatsIsTransitive(score, p, member, previous, m);
          }
        }
        winner := member;
        winningScore := s;
      }
    }
    if members != [] && "" !in members {
      assert members[..|members|] == members;
      ghost var all := MemberSet(members);
      assert members[0] in all;
      WinnerIsUnique(score, p, all, winner, Winner(score, p, all).value);
    }
  }

  /** Removing a member moves no partition except the ones that member held. */
  lemma RemovalMovesOnlyItsOwn(score: Score, p: nat, members: set<string>, gone: string)
    requires Winner(score, p, members) != Some(gone)
    ensures Winner(score, p, members - {gone}) == Winner(score, p, members)
  {
    if members != {} {
      var w := Winner(score, p, members).value;
      assert w in members - {gone};
      WinnerIsUnique(score, p, members - {gone}, w, Winner(score, p, members - {gone}).value);
    }
  }

  /** Adding a member moves partitions only to that member. */
  lemma AdditionMovesOnlyToIt(score: Score, p: nat, members: set<string>, joined: string)
    ensures Winner(score, p, members + {joined}) in {Winner(score, p, members), Some(joined)}
  {
    var grown := members + {joined};
    assert joined in grown;
    var w := Winner(score, p, grown).value;
    if w != joined {
      assert members != {};
      WinnerIsUnique(score, p, members, w, Winner(score, p, members).value);
    }
  }
}
