// Session checkpoints, what a session store promises, and the in-memory reference store.

module Sessions {
  import opened Json
  import opened Ordering

  datatype SessionStatus = Running | AwaitingInput | Waiting | Completed | Failed | Cancelled

  /** The fields the stores look at; everything else of a checkpoint is `body`. */
  datatype Session = Session(id: string, status: SessionStatus, updatedMs: int, version: int, body: Json)

  datatype SaveResult = Saved | VersionConflict | Gone

  datatype Outcome = Outcome(result: SaveResult, version: int)

  // ------------------------------------------------------------------ status names

  function StatusIndex(s: SessionStatus): (k: nat)
    ensures k < 6
  {
    match s
    case Running => 0
    case AwaitingInput => 1
    case Waiting => 2
    case Completed => 3
    case Failed => 4
    case Cancelled => 5
  }

  const StatusNames := ["running", "awaiting_input", "waiting", "completed", "failed", "cancelled"]

  function StatusAt(k: nat): SessionStatus
    requires k < 6
  {
    [Running, AwaitingInput, Waiting, Completed, Failed, Cancelled][k]
  }

  /** Every status has its own place in the table of names. */
  lemma StatusHasName()
    ensures forall s :: StatusAt(StatusIndex(s)) == s
    ensures forall k :: 0 <= k < 6 ==> StatusIndex(StatusAt(k)) == k
  {
  }

  /** The status with this name; two older names are still read. */
  method StatusFromName(text: string) returns (s: Option<SessionStatus>)
    ensures forall status :: StatusNames[StatusIndex(status)] == text ==> s == Some(status)
    ensures text == "completed" ==> s == Some(Completed)
    ensures text == "failed" ==> s == Some(Failed)
    ensures text == "cancelled" ==> s == Some(Cancelled)
    ensures text !in StatusNames ==>
              s == if text == "suspended" then Some(AwaitingInput)
                   else if text == "pending" then Some(Running) else None
  {
    NamesDiffer();
    StatusHasName();
    var k := 0;
    while k < 6
      invariant 0 <= k <= 6
      invariant forall i :: 0 <= i < k ==> StatusNames[i] != text
    {
      if text == StatusNames[k] {
        return Some(StatusAt(k));
      }
      k := k + 1;
    }
    if text == "suspended" {
      return Some(AwaitingInput);
    }
    if text == "pending" {
      return Some(Running);
    }
    return None;
  }

  lemma NamesDiffer()
    ensures forall i, j :: 0 <= i < j < 6 ==> StatusNames[i] != StatusNames[j]
  {
    var first := ["ru", "aw", "wa", "co", "fa", "ca"];
    assert forall i :: 0 <= i < 6 ==> StatusNames[i][..2] == first[i];
    forall i, j | 0 <= i < j < 6
      ensures StatusNames[i] != StatusNames[j]
    {
      assert first[i][0] != first[j][0] || first[i][1] != first[j][1];
    }
  }

  // ------------------------------------------------------------------ what every store promises

  type Contents = map<string, Session>

  function VersionOf(m: Contents, id: string): int {
    if id in m then m[id].version else 0
  }

  /** An unconditional write: the stored version still moves on by one. */
  function SaveIn(m: Contents, c: Session): Contents {
    m[c.id := c.(version := VersionOf(m, c.id) + 1)]
  }

  /** A write that goes through only when the stored version is the expected one. */
  function SaveIfIn(m: Contents, c: Session, expected: int): Contents {
    if VersionOf(m, c.id) == expected then SaveIn(m, c) else m
  }

  function SaveIfOutcome(m: Contents, c: Session, expected: int): Outcome {
    if VersionOf(m, c.id) == expected then Outcome(Saved, expected + 1)
    else if c.id in m then Outcome(VersionConflict, m[c.id].version)
    else Outcome(Gone, 0)
  }

  function LoadFrom(m: Contents, id: string): Option<Session> {
    if id in m then Some(m[id]) else None
  }

  /**
   * What a conditional write answers tells what a client that loads the session sees: after a write that went
   * through the next version with the new contents; after a conflict a session of another version, the one
   * reported; and none at all where the session was expected but gone. Other sessions keep as they were.
   */
  lemma OutcomeTells(m: Contents, c: Session, expected: int, id: string)
    ensures var out := SaveIfOutcome(m, c, expected);
            var after := SaveIfIn(m, c, expected);
            var before := LoadFrom(m, c.id);
            && (out.result == Saved <==> expected == if before.Some? then before.value.version else 0)
            && (out.result == Saved ==> LoadFrom(after, c.id) == Some(c.(version := out.version))
                                        && out.version == expected + 1)
            && (out.result == VersionConflict ==> before.Some? && before.value.version == out.version != expected)
            && (out.result == Gone ==> before.None? && expected != 0 && out.version == 0)
            && (out.result != Saved ==> after == m)
            && (id != c.id ==> LoadFrom(after, id) == LoadFrom(m, id))
  {
  }

  /** Ids with this status, or all ids. */
  function Matching(m: Contents, status: Option<SessionStatus>): set<string> {
    set id | id in m && (status.Some? ==> m[id].status == status.value)
  }

  ghost predicate Sorted(out: seq<Session>) {
    forall i, j :: 0 <= i < j < |out| ==> Less(out[i].id, out[j].id)
  }

  /** All sessions, ascending by id. */
  ghost predicate IsListing(m: Contents, out: seq<Session>) {
    Sorted(out) && forall c :: c in out <==> c.id in m && m[c.id] == c
  }

  /** Every session is filed under its own id, and versions count from one. */
  ghost predicate Filed(m: Contents) {
    forall id :: id in m ==> m[id].id == id && m[id].version >= 1
  }

  /** There is only one such listing. */
  lemma {:induction false} SortedUnique(a: seq<Session>, b: seq<Session>)
    requires Sorted(a) && Sorted(b) && forall c :: c in a <==> c in b
    ensures a == b
  {
    assert |b| > 0 ==> b[0] in b;
    if a != [] {
      assert a[0] in a && a[0] in b;
      assert b[0] in b && b[0] in a;
      LessTotal(a[0].id, b[0].id);
      HeadIsLeast(a, b[0]);
      HeadIsLeast(b, a[0]);
      assert a[0] == b[0];
      SameTail(a, b);
      SortedUnique(a[1..], b[1..]);
    }
  }

  lemma HeadIsLeast(a: seq<Session>, c: Session)
    requires Sorted(a) && c in a
    ensures c == a[0] || Less(a[0].id, c.id)
  {
  }

  lemma SameTail(a: seq<Session>, b: seq<Session>)
    requires Sorted(a) && Sorted(b) && a != [] && b != [] && a[0] == b[0] && forall c :: c in a <==> c in b
    ensures forall c :: c in a[1..] <==> c in b[1..]
  {
    assert a == [a[0]] + a[1..] && b == [b[0]] + b[1..];
    HeadNotInTail(a);
    HeadNotInTail(b);
    forall c
      ensures c in a[1..] <==> c in b[1..]
    {
      assert c in a <==> c == a[0] || c in a[1..];
      assert c in b <==> c == b[0] || c in b[1..];
    }
  }

  lemma HeadNotInTail(a: seq<Session>)
    requires Sorted(a) && a != []
    ensures a[0] !in a[1..]
  {
    LessTotal(a[0].id, a[0].id);
  }

  // ------------------------------------------------------------------ sorting by id

  function InsertById(out: seq<Session>, c: Session): seq<Session> {
    if out == [] || Less(c.id, out[0].id) then [c] + out else [out[0]] + InsertById(out[1..], c)
  }

  function SortById(xs: seq<Session>): seq<Session> {
    if xs == [] then [] else InsertById(SortById(xs[1..]), xs[0])
  }

  lemma {:induction false} InsertByIdSorted(out: seq<Session>, c: Session)
    requires Sorted(out) && forall x :: x in out ==> x.id != c.id
    ensures Sorted(InsertById(out, c)) && forall x :: x in InsertById(out, c) <==> x in out || x == c
  {
    if out != [] {
      assert out == [out[0]] + out[1..];
      if Less(c.id, out[0].id) {
        forall x | x in out
          ensures Less(c.id, x.id)
        {
          HeadIsLeast(out, x);
          if x != out[0] {
            LessTransitive(c.id, out[0].id, x.id);
          }
        }
        SortedCons(c, out);
      } else {
        LessTotal(c.id, out[0].id);
        InsertByIdSorted(out[1..], c);
        SortedCons(out[0], InsertById(out[1..], c));
      }
    }
  }

  lemma SortedCons(c: Session, out: seq<Session>)
    requires Sorted(out) && forall x :: x in out ==> Less(c.id, x.id)
    ensures Sorted([c] + out)
  {
    var y := [c] + out;
    forall i, j | 0 <= i < j < |y|
      ensures Less(y[i].id, y[j].id)
    {
      assert y[j] == out[j - 1] && out[j - 1] in out;
    }
  }

  ghost predicate DistinctIds(xs: seq<Session>) {
    forall i, j :: 0 <= i < j < |xs| ==> xs[i].id != xs[j].id
  }

  lemma {:induction false} SortByIdSorted(xs: seq<Session>)
    requires DistinctIds(xs)
    ensures Sorted(SortById(xs)) && forall x :: x in SortById(xs) <==> x in xs
  {
    if xs != [] {
      assert xs == [xs[0]] + xs[1..];
      SortByIdSorted(xs[1..]);
      InsertByIdSorted(SortById(xs[1..]), xs[0]);
    }
  }

  // ------------------------------------------------------------------ the in-memory store

  class InMemoryStateStore {
    var sessions: Contents

    constructor ()
      ensures sessions == map[]
    {
      sessions := map[];
    }

    method Save(c: Session)
      modifies this
      ensures sessions == SaveIn(old(sessions), c)
    {
      // The map's own access creates a missing session at version 0.
      if c.id !in sessions {
        sessions := sessions[c.id := Session("", Running, 0, 0, Null)];
      }
      var previous := sessions[c.id].version;
      sessions := sessions[c.id := c.(version := previous + 1)];
    }

    method SaveIf(c: Session, expected: int) returns (o: Outcome)
      modifies this
      ensures sessions == SaveIfIn(old(sessions), c, expected)
      ensures o == SaveIfOutcome(old(sessions), c, expected)
    {
      var exists_ := c.id in sessions;
      var current := if exists_ then sessions[c.id].version else 0;
      if current != expected {
        return Outcome(if exists_ then VersionConflict else Gone, current);
      }
      sessions := sessions[c.id := c.(version := expected + 1)];
      return Outcome(Saved, expected + 1);
    }

    method Load(id: string) returns (c: Option<Session>)
      ensures c == LoadFrom(sessions, id)
    {
      if id !in sessions {
        return None;
      }
      return Some(sessions[id]);
    }

    method Remove(id: string) returns (removed: bool)
      modifies this
      ensures sessions == old(sessions) - {id} && removed == (id in old(sessions))
    {
      removed := id in sessions;
      sessions := sessions - {id};
    }

    method List() returns (out: seq<Session>)
      requires Filed(sessions)
      ensures IsListing(sessions, out)
    {
      var xs: seq<Session> := [];
      var ids := sessions.Keys;
      while ids != {}
        invariant ids <= sessions.Keys
        invariant DistinctIds(xs)
        invariant forall c :: c in xs <==> c.id in sessions.Keys - ids && sessions[c.id] == c
        decreases ids
      {
        var id :| id in ids;
        assert forall c :: c in xs ==> c.id != id;
        xs := xs + [sessions[id]];
        ids := ids - {id};
      }
      SortByIdSorted(xs);
      out := SortById(xs);
    }

    method Count(status: Option<SessionStatus>) returns (n: nat)
      ensures n == |Matching(sessions, status)|
    {
      if status.None? {
        assert Matching(sessions, status) == sessions.Keys;
        return |sessions|;
      }
      n := 0;
      var ids := sessions.Keys;
      ghost var seen: set<string> := {};
      while ids != {}
        invariant ids <= sessions.Keys
        invariant seen == set id | id in sessions.Keys - ids && sessions[id].status == status.value
        invariant n == |seen|
        decreases ids
      {
        var id :| id in ids;
        ids := ids - {id};
        if sessions[id].status == status.value {
          n := n + 1;
          seen := seen + {id};
        }
      }
      assert seen == Matching(sessions, status);
    }
  }
}
