// Which calls the Redis store and the in-memory store answer alike, over every sequence of calls.

module StoreAgreement {
  import opened Json
  import opened Ordering
  import opened Sessions
  import opened RedisStore

  datatype Op =
    | SaveOp(c: Session)
    | SaveIfOp(c: Session, expected: int)
    | LoadOp(id: string)
    | RemoveOp(id: string)
    | ListOp
    | CountOp(status: Option<SessionStatus>)

  datatype Answer =
    | Done
    | Wrote(o: Outcome)
    | Found(s: Option<Session>)
    | Dropped(gone: bool)
    | Listed(out: seq<Session>)
    | Counted(n: nat)
    | Refused(e: StoreError)

  function After(m: Contents, op: Op): Contents {
    match op
    case SaveOp(c) => SaveIn(m, c)
    case SaveIfOp(c, expected) => SaveIfIn(m, c, expected)
    case RemoveOp(id) => m - {id}
    case _ => m
  }

  /** The answer a session store gives. */
  ghost predicate Gives(m: Contents, op: Op, a: Answer) {
    match op
    case SaveOp(_) => a == Done
    case SaveIfOp(c, expected) => a == Wrote(SaveIfOutcome(m, c, expected))
    case LoadOp(id) => a == Found(LoadFrom(m, id))
    case RemoveOp(id) => a == Dropped(id in m)
    case ListOp => a.Listed? && IsListing(m, a.out)
    case CountOp(status) => a == Counted(|Matching(m, status)|)
  }

  lemma GivesUnique(m: Contents, op: Op, a: Answer, b: Answer)
    requires Gives(m, op, a) && Gives(m, op, b)
    ensures a == b
  {
    if op.ListOp? {
      SortedUnique(a.out, b.out);
    }
  }

  /** Named sessions, versions that can exist, and no more sessions than a listing holds. */
  predicate Supported(m: Contents, op: Op, maxList: nat) {
    match op
    case SaveOp(c) => c.id != ""
    case SaveIfOp(c, expected) => c.id != "" && expected >= 0
    case LoadOp(id) => id != ""
    case RemoveOp(id) => id != ""
    case ListOp => |m| <= maxList
    case CountOp(_) => true
  }

  // ------------------------------------------------------------------ one call

  method AskMemory(store: InMemoryStateStore, op: Op) returns (a: Answer)
    requires Filed(store.sessions)
    modifies store
    ensures Gives(old(store.sessions), op, a)
    ensures store.sessions == After(old(store.sessions), op) && Filed(store.sessions)
  {
    match op
    case SaveOp(c) =>
      store.Save(c);
      a := Done;
    case SaveIfOp(c, expected) =>
      var o := store.SaveIf(c, expected);
      a := Wrote(o);
    case LoadOp(id) =>
      var s := store.Load(id);
      a := Found(s);
    case RemoveOp(id) =>
      var gone := store.Remove(id);
      a := Dropped(gone);
    case ListOp =>
      var out := store.List();
      a := Listed(out);
    case CountOp(status) =>
      var n := store.Count(status);
      a := Counted(n);
  }

  /** The Redis store answers as a session store should exactly when the call is supported. */
  method AskRedis(store: RedisStateStore, op: Op) returns (a: Answer)
    requires Exact(store.Snapshot())
    modifies store
    ensures Exact(store.Snapshot())
    ensures Gives(old(store.Sessions()), op, a) <==> Supported(old(store.Sessions()), op, store.maxList)
    ensures Supported(old(store.Sessions()), op, store.maxList) ==>
              store.Sessions() == After(old(store.Sessions()), op)
  {
    hide Exact, Covered, Live, IsListing, SaveIfOutcome, SaveIfIn, SaveIn;
    ExactCovered(store.Snapshot());
    ghost var m := store.Sessions();
    match op
    case SaveOp(c) =>
      var r := store.Save(c);
      a := if r.Ok? then Done else Refused(r.error);
    case SaveIfOp(c, expected) =>
      var r := store.SaveIf(c, expected);
      a := if r.Ok? then Wrote(r.value) else Refused(r.error);
    case LoadOp(id) =>
      var r := store.Load(id);
      a := if r.Ok? then Found(r.value) else Refused(r.error);
    case RemoveOp(id) =>
      var r := store.Remove(id);
      a := if r.Ok? then Dropped(r.value) else Refused(r.error);
    case ListOp =>
      ghost var before := store.Snapshot();
      ghost var newest := store.Newest();
      var out := store.List();
      a := Listed(out);
      ListingIffShort(before, newest, store.maxList, out);
    case CountOp(status) =>
      var n := store.Count(status);
      a := Counted(n);
  }

  /** A listing of the newest `maxList` sessions lists them all exactly when there are no more. */
  lemma ListingIffShort(db: Db, newest: ZSet, maxList: nat, out: seq<Session>)
    requires Exact(db) && newest == if |db.all| > maxList then db.all[|db.all| - maxList..] else db.all
    requires Sorted(out)
    requires forall c :: c in out <==> c.id in MembersOf(newest) && c.id in db.hashes && c == Live(db.hashes)[c.id]
    ensures IsListing(Live(db.hashes), out) <==> |Live(db.hashes)| <= maxList
  {
    hide Ranked, Sorted, HashOk, Live;
    LiveKeys(db.hashes);
    var m := Live(db.hashes);
    CountIsCardinal(db, None);
    assert Matching(m, None) == m.Keys;
    assert |m| == |db.all|;
    if |db.all| <= maxList {
      forall id | id in m
        ensures id in MembersOf(newest)
      {
      }
    } else {
      var i := |db.all| - maxList - 1;
      var e := db.all[i];
      assert e in db.all;
      NotInSuffix(db.all, i);
      LiveNamed(db, e.member);
      assert m[e.member] !in out;
    }
  }

  lemma LiveKeys(hashes: map<string, Hash>)
    ensures Live(hashes).Keys == hashes.Keys
  {
  }

  lemma LiveNamed(db: Db, id: string)
    requires Covered(db) && id in db.hashes
    ensures id in Live(db.hashes) && Live(db.hashes)[id].id == id
  {
    hide Ranked;
  }

  lemma NothingFiled()
    ensures Filed(map[])
  {
  }

  lemma NotInSuffix(z: ZSet, i: nat)
    requires Ranked(z) && i < |z|
    ensures z[i].member !in MembersOf(z[i + 1..])
  {
    var w := z[i + 1..];
    forall j | 0 <= j < |w|
      ensures w[j].member != z[i].member
    {
      assert w[j] == z[i + 1 + j];
    }
  }

  // ------------------------------------------------------------------ every sequence of calls

  function RunAll(m: Contents, ops: seq<Op>): Contents {
    if ops == [] then m else After(RunAll(m, ops[..|ops| - 1]), ops[|ops| - 1])
  }

  /** Each call is supported by the contents it meets. */
  ghost predicate AllSupported(ops: seq<Op>, maxList: nat) {
    forall k :: 0 <= k < |ops| ==> Supported(RunAll(map[], ops[..k]), ops[k], maxList)
  }

  lemma RunAllStep(ops: seq<Op>, k: nat)
    requires k < |ops|
    ensures RunAll(map[], ops[..k + 1]) == After(RunAll(map[], ops[..k]), ops[k])
  {
    assert ops[..k + 1][..k] == ops[..k];
  }

  /**
   * Fresh stores of both kinds, given the same calls, give the same answers exactly when every call is
   * supported.
   */
  method Compare(ops: seq<Op>, maxList: nat) returns (memory: seq<Answer>, redis: seq<Answer>)
    ensures |memory| == |redis| == |ops|
    ensures memory == redis <==> AllSupported(ops, maxList)
  {
    hide Exact, After, Gives, Supported, Filed;
    var reference := new InMemoryStateStore();
    var store := new RedisStateStore(maxList);
    memory, redis := [], [];
    NothingFiled();
    var i := 0;
    ghost var alike := true;
    while i < |ops|
      invariant 0 <= i <= |ops| && |memory| == |redis| == i
      invariant fresh(reference) && fresh(store) && store.maxList == maxList
      invariant Filed(reference.sessions) && Exact(store.Snapshot())
      invariant reference.sessions == RunAll(map[], ops[..i])
      invariant alike ==> memory == redis && store.Sessions() == reference.sessions
      invariant alike ==> forall k :: 0 <= k < i ==> Supported(RunAll(map[], ops[..k]), ops[k], maxList)
      invariant !alike ==> exists k :: 0 <= k < i && memory[k] != redis[k]
      invariant !alike ==> exists k :: 0 <= k < i && !Supported(RunAll(map[], ops[..k]), ops[k], maxList)
    {
      ghost var m := reference.sessions;
      RunAllStep(ops, i);
      var x := AskMemory(reference, ops[i]);
      var y := AskRedis(store, ops[i]);
      if alike {
        if Supported(m, ops[i], maxList) {
          GivesUnique(m, ops[i], x, y);
        } else {
          alike := false;
          assert x != y;
          assert (memory + [x])[i] != (redis + [y])[i];
        }
      } else {
        ghost var k :| 0 <= k < i && memory[k] != redis[k];
        assert (memory + [x])[k] != (redis + [y])[k];
      }
      memory, redis := memory + [x], redis + [y];
      i := i + 1;
    }
    assert ops[..i] == ops;
  }
}
