// Byte order of strings, and the sorted sets of the store's indexes: members ranked by score, then name.

module Ordering {

  predicate Less(a: string, b: string) {
    if b == "" then false
    else if a == "" then true
    else a[0] < b[0] || (a[0] == b[0] && Less(a[1..], b[1..]))
  }

  /** The texts agree up to `k`, where `b` goes on and `a` ends or has the smaller character. */
  predicate PartAt(a: string, b: string, k: nat) {
    k <= |a| && k < |b| && a[..k] == b[..k] && (k < |a| ==> a[k] < b[k])
  }

  lemma PartBehind(a: string, b: string, k: nat)
    requires a != "" && b != "" && a[0] == b[0]
    ensures PartAt(a[1..], b[1..], k) <==> PartAt(a, b, k + 1)
    ensures !PartAt(a, b, 0)
  {
    if k < |a| && k < |b| {
      assert a[..k + 1] == [a[0]] + a[1..][..k] && b[..k + 1] == [b[0]] + b[1..][..k];
    }
  }

  lemma SameHeads(a: string, b: string)
    ensures forall k: nat :: 0 < k && PartAt(a, b, k) ==> a[0] == b[0]
  {
    forall k: nat | 0 < k && PartAt(a, b, k)
      ensures a[0] == b[0]
    {
      assert a[..k][0] == b[..k][0];
    }
  }

  /** One text comes first exactly when, where the two part, it ends or has the smaller character. */
  lemma {:induction false} LessIff(a: string, b: string)
    ensures Less(a, b) <==> exists k: nat :: PartAt(a, b, k)
  {
    if a != "" && b != "" && a[0] == b[0] {
      LessIff(a[1..], b[1..]);
      forall k: nat
        ensures PartAt(a[1..], b[1..], k) <==> PartAt(a, b, k + 1)
        ensures !PartAt(a, b, 0)
      {
        PartBehind(a, b, k);
      }
      hide PartAt;
      assert forall k: nat :: PartAt(a, b, k) ==> k > 0 && PartAt(a[1..], b[1..], k - 1);
    } else {
      assert Less(a, b) ==> PartAt(a, b, 0);
      SameHeads(a, b);
    }
  }

  lemma {:induction false} LessTransitive(a: string, b: string, c: string)
    requires Less(a, b) && Less(b, c)
    ensures Less(a, c)
  {
    if a != "" && a[0] == b[0] && b[0] == c[0] {
      LessTransitive(a[1..], b[1..], c[1..]);
    }
  }

  lemma {:induction false} LessTotal(a: string, b: string)
    ensures a == b || Less(a, b) || Less(b, a)
    ensures !(Less(a, b) && Less(b, a)) && (a == b ==> !Less(a, b))
  {
    if a != "" && b != "" {
      LessTotal(a[1..], b[1..]);
      assert a == [a[0]] + a[1..] && b == [b[0]] + b[1..];
    }
  }

  // ------------------------------------------------------------------ sorted sets

  datatype Entry = Entry(score: int, member: string)

  type ZSet = seq<Entry>

  predicate Before(a: Entry, b: Entry) {
    a.score < b.score || (a.score == b.score && Less(a.member, b.member))
  }

  /** Ranked by score, then member; no member twice. */
  ghost predicate Ranked(z: ZSet) {
    && (forall i, j :: 0 <= i < j < |z| ==> Before(z[i], z[j]))
    && (forall i, j :: 0 <= i < j < |z| ==> z[i].member != z[j].member)
  }

  ghost predicate Has(z: ZSet, member: string) {
    exists i :: 0 <= i < |z| && z[i].member == member
  }

  function MembersOf(z: ZSet): set<string> {
    set i | 0 <= i < |z| :: z[i].member
  }

  function Removed(z: ZSet, member: string): ZSet {
    if z == [] then []
    else if z[0].member == member then Removed(z[1..], member)
    else [z[0]] + Removed(z[1..], member)
  }

  function Inserted(z: ZSet, e: Entry): ZSet {
    if z == [] || Before(e, z[0]) then [e] + z else [z[0]] + Inserted(z[1..], e)
  }

  /** ZADD: the member takes the rank of its new score. */
  function Added(z: ZSet, score: int, member: string): ZSet {
    Inserted(Removed(z, member), Entry(score, member))
  }

  lemma {:induction false} RemovedEntries(z: ZSet, member: string)
    ensures forall e :: e in Removed(z, member) <==> e in z && e.member != member
    ensures |Removed(z, member)| <= |z|
    ensures !Has(z, member) ==> Removed(z, member) == z
  {
    if z != [] {
      RemovedEntries(z[1..], member);
      assert z == [z[0]] + z[1..];
      if !Has(z, member) {
        assert z[0].member != member;
        assert forall i :: 0 <= i < |z[1..]| ==> z[1..][i] == z[i + 1];
      }
    }
  }

  lemma RankedCons(e: Entry, z: ZSet)
    requires Ranked(z) && forall x :: x in z ==> Before(e, x) && x.member != e.member
    ensures Ranked([e] + z)
  {
    hide Before;
    var y := [e] + z;
    forall i, j | 0 <= i < j < |y|
      ensures Before(y[i], y[j]) && y[i].member != y[j].member
    {
      assert y[j] == z[j - 1] && z[j - 1] in z;
    }
  }

  lemma {:induction false} RemovedRanked(z: ZSet, member: string)
    requires Ranked(z)
    ensures Ranked(Removed(z, member))
  {
    if z != [] {
      RemovedRanked(z[1..], member);
      RemovedEntries(z[1..], member);
      if z[0].member != member {
        RankedCons(z[0], Removed(z[1..], member));
      }
    }
  }

  lemma {:induction false} InsertedRanked(z: ZSet, e: Entry)
    requires Ranked(z) && forall x :: x in z ==> x.member != e.member
    ensures Ranked(Inserted(z, e))
    ensures forall x :: x in Inserted(z, e) <==> x in z || x == e
    ensures |Inserted(z, e)| == |z| + 1
  {
    if z != [] {
      if Before(e, z[0]) {
        forall x | x in z
          ensures Before(e, x)
        {
          if x != z[0] {
            BeforeTransitive(e, z[0], x);
          }
        }
        RankedCons(e, z);
      } else {
        InsertedRanked(z[1..], e);
        LessTotal(e.member, z[0].member);
        assert z[0] in z && Before(z[0], e);
        RankedCons(z[0], Inserted(z[1..], e));
        assert z == [z[0]] + z[1..];
      }
    } else {
      assert Inserted(z, e) == [e];
    }
  }

  lemma BeforeTransitive(a: Entry, b: Entry, c: Entry)
    requires Before(a, b) && Before(b, c)
    ensures Before(a, c)
  {
    if a.score == b.score == c.score {
      LessTransitive(a.member, b.member, c.member);
    }
  }

  /** ZADD keeps the ranking, and the member ends with exactly its new score. */
  lemma AddedRanked(z: ZSet, score: int, member: string)
    requires Ranked(z)
    ensures Ranked(Added(z, score, member))
    ensures forall e :: e in Added(z, score, member) <==>
              (e in z && e.member != member) || e == Entry(score, member)
  {
    RemovedRanked(z, member);
    RemovedEntries(z, member);
    InsertedRanked(Removed(z, member), Entry(score, member));
  }

  /** A sorted set is as long as its member set is large. */
  lemma {:induction false} RankedCount(z: ZSet)
    requires Ranked(z)
    ensures |MembersOf(z)| == |z|
  {
    if z != [] {
      RankedCount(z[1..]);
      assert MembersOf(z) == {z[0].member} + MembersOf(z[1..]) by {
        forall m | m in MembersOf(z)
          ensures m in {z[0].member} + MembersOf(z[1..])
        {
          var i :| 0 <= i < |z| && z[i].member == m;
          if i > 0 { assert z[1..][i - 1] == z[i]; }
        }
      }
      assert z[0].member !in MembersOf(z[1..]);
    }
  }
}
