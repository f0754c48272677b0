// The Redis session store: one hash per session and seven sorted-set indexes, written by a script
// that runs as one step.

module RedisStore {
  import opened Json
  import opened Text
  import opened Ordering
  import opened Sessions

  /** A session hash. The status is kept as the digits of its index. */
  datatype Hash = Hash(blob: Session, version: int, status: nat, updatedMs: int)

  datatype Db = Db(hashes: map<string, Hash>, all: ZSet, byStatus: seq<ZSet>)

  /** What a reader of the hashes sees: the version field overrides the one inside the blob. */
  function Live(hashes: map<string, Hash>): Contents {
    map id | id in hashes :: hashes[id].blob.(version := hashes[id].version)
  }

  ghost predicate HashOk(id: string, h: Hash) {
    && h.blob.id == id && h.version >= 1
    && h.status == StatusIndex(h.blob.status) && h.updatedMs == h.blob.updatedMs
  }

  ghost predicate Shaped(db: Db) {
    && |db.byStatus| == 6 && Ranked(db.all)
    && (forall k :: 0 <= k < 6 ==> Ranked(db.byStatus[k]))
    && (forall id :: id in db.hashes ==> HashOk(id, db.hashes[id]))
  }

  /** Every live session is indexed under all and under its own status, with its time as the score. */
  ghost predicate Covered(db: Db) {
    && Shaped(db)
    && (forall id :: id in db.hashes ==> Entry(db.hashes[id].updatedMs, id) in db.all)
    && (forall id :: id in db.hashes ==> Entry(db.hashes[id].updatedMs, id) in db.byStatus[db.hashes[id].status])
  }

  /** ... and nothing else is indexed. */
  ghost predicate Exact(db: Db) {
    && Covered(db)
    && (forall e :: e in db.all ==> e.member in db.hashes)
    && (forall k, e :: 0 <= k < 6 && e in db.byStatus[k] ==> e.member in db.hashes && db.hashes[e.member].status == k)
  }

  // ------------------------------------------------------------------ what the save script leaves behind

  function Unfiled(byStatus: seq<ZSet>, previous: int, wanted: nat, id: string): seq<ZSet>
    requires |byStatus| == 6 && previous < 6
  {
    if previous >= 0 && previous != wanted then byStatus[previous := Removed(byStatus[previous], id)] else byStatus
  }

  function AfterSave(db: Db, c: Session): Db
    requires Shaped(db)
  {
    var current := if c.id in db.hashes then db.hashes[c.id].version else 0;
    var previous := if c.id in db.hashes then db.hashes[c.id].status else -1;
    var wanted := StatusIndex(c.status);
    var rest := Unfiled(db.byStatus, previous, wanted, c.id);
    Db(db.hashes[c.id := Hash(c, current + 1, wanted, c.updatedMs)],
       Added(db.all, c.updatedMs, c.id),
       rest[wanted := Added(rest[wanted], c.updatedMs, c.id)])
  }

  lemma CoveredGives(db: Db)
    requires Covered(db)
    ensures Shaped(db) && |db.byStatus| == 6 && Ranked(db.all)
    ensures forall id :: id in db.hashes ==> HashOk(id, db.hashes[id])
  {
  }

  lemma ExactCovered(db: Db)
    requires Exact(db)
    ensures Covered(db)
  {
  }

  lemma SaveShaped(db: Db, c: Session)
    requires Shaped(db)
    ensures Shaped(AfterSave(db, c))
  {
    hide Ranked, Added, Removed;
    var previous := if c.id in db.hashes then db.hashes[c.id].status else -1;
    var wanted := StatusIndex(c.status);
    if previous >= 0 {
      RemovedRanked(db.byStatus[previous], c.id);
    }
    AddedRanked(db.all, c.updatedMs, c.id);
    AddedRanked(Unfiled(db.byStatus, previous, wanted, c.id)[wanted], c.updatedMs, c.id);
  }

  /** The entries of one status index after a save. */
  lemma SaveIndex(db: Db, c: Session, k: nat)
    requires Shaped(db) && k < 6
    ensures forall e :: e in AfterSave(db, c).byStatus[k] ==>
              (e in db.byStatus[k] && e.member != c.id) ||
              (e in db.byStatus[k] && k != StatusIndex(c.status) &&
               !(c.id in db.hashes && db.hashes[c.id].status == k)) ||
              (e == Entry(c.updatedMs, c.id) && k == StatusIndex(c.status))
    ensures forall e :: e in db.byStatus[k] && e.member != c.id ==> e in AfterSave(db, c).byStatus[k]
    ensures k == StatusIndex(c.status) ==> Entry(c.updatedMs, c.id) in AfterSave(db, c).byStatus[k]
  {
    hide Ranked, Added, Removed;
    var previous := if c.id in db.hashes then db.hashes[c.id].status else -1;
    var wanted := StatusIndex(c.status);
    if previous >= 0 {
      RemovedRanked(db.byStatus[previous], c.id);
      RemovedEntries(db.byStatus[previous], c.id);
    }
    AddedRanked(Unfiled(db.byStatus, previous, wanted, c.id)[wanted], c.updatedMs, c.id);
  }

  lemma SaveHashes(db: Db, c: Session)
    requires Shaped(db)
    ensures var t := AfterSave(db, c);
            && t.hashes == db.hashes[c.id := Hash(c, VersionOf(Live(db.hashes), c.id) + 1, StatusIndex(c.status),
                                                  c.updatedMs)]
            && |t.byStatus| == 6
            && (forall e :: e in t.all <==> (e in db.all && e.member != c.id) || e == Entry(c.updatedMs, c.id))
    ensures Live(AfterSave(db, c).hashes) == SaveIn(Live(db.hashes), c)
  {
    hide Ranked, Added, Removed;
    AddedRanked(db.all, c.updatedMs, c.id);
  }

  lemma SaveKeepsCovered(db: Db, c: Session)
    requires Covered(db)
    ensures Covered(AfterSave(db, c))
  {
    hide AfterSave;
    SaveShaped(db, c);
    SaveHashes(db, c);
    hide Shaped, Live;
    var t := AfterSave(db, c);
    forall id | id in t.hashes
      ensures Entry(t.hashes[id].updatedMs, id) in t.all
      ensures Entry(t.hashes[id].updatedMs, id) in t.byStatus[t.hashes[id].status]
    {
      StatusInRange(t, id);
      SaveIndex(db, c, t.hashes[id].status);
    }
  }

  lemma StatusInRange(db: Db, id: string)
    requires Shaped(db) && id in db.hashes
    ensures db.hashes[id].status < 6
  {
    hide Ranked;
    assert HashOk(id, db.hashes[id]);
  }

  lemma SaveKeepsExact(db: Db, c: Session)
    requires Exact(db)
    ensures Exact(AfterSave(db, c))
  {
    hide AfterSave, Covered;
    CoveredGives(db);
    SaveKeepsCovered(db, c);
    SaveHashes(db, c);
    hide Shaped, Live;
    var t := AfterSave(db, c);
    forall k, e | 0 <= k < 6 && e in t.byStatus[k]
      ensures e.member in t.hashes && t.hashes[e.member].status == k
    {
      SaveIndex(db, c, k);
    }
  }

  /** A save keeps every live session indexed, and keeps the indexes exact when they were. */
  lemma SaveKeepsIndexes(db: Db, c: Session)
    requires Covered(db)
    ensures Covered(AfterSave(db, c)) && (Exact(db) ==> Exact(AfterSave(db, c)))
    ensures Live(AfterSave(db, c).hashes) == SaveIn(Live(db.hashes), c)
  {
    hide AfterSave, Live, SaveIn;
    SaveHashes(db, c);
    SaveKeepsCovered(db, c);
    if Exact(db) {
      SaveKeepsExact(db, c);
    }
  }

  // ------------------------------------------------------------------ removal

  function Cleared(byStatus: seq<ZSet>, id: string): seq<ZSet> {
    seq(|byStatus|, k requires 0 <= k < |byStatus| => Removed(byStatus[k], id))
  }

  function AfterRemove(db: Db, id: string): Db {
    Db(db.hashes - {id}, Removed(db.all, id), Cleared(db.byStatus, id))
  }

  lemma RemoveEntries(db: Db, id: string)
    requires Shaped(db)
    ensures Shaped(AfterRemove(db, id))
    ensures forall e :: e in AfterRemove(db, id).all <==> e in db.all && e.member != id
    ensures forall k, e :: 0 <= k < 6 ==>
              (e in AfterRemove(db, id).byStatus[k] <==> e in db.byStatus[k] && e.member != id)
  {
    hide Ranked, Removed;
    RemovedRanked(db.all, id);
    RemovedEntries(db.all, id);
    forall k | 0 <= k < 6
      ensures Ranked(AfterRemove(db, id).byStatus[k])
      ensures forall e :: e in AfterRemove(db, id).byStatus[k] <==> e in db.byStatus[k] && e.member != id
    {
      RemovedRanked(db.byStatus[k], id);
      RemovedEntries(db.byStatus[k], id);
    }
  }

  lemma RemoveKeepsCovered(db: Db, id: string)
    requires Covered(db)
    ensures Covered(AfterRemove(db, id))
  {
    hide AfterRemove, Shaped;
    CoveredGives(db);
    RemoveEntries(db, id);
    RemoveHashes(db, id);
    var t := AfterRemove(db, id);
    forall x | x in t.hashes
      ensures Entry(t.hashes[x].updatedMs, x) in t.all
      ensures Entry(t.hashes[x].updatedMs, x) in t.byStatus[t.hashes[x].status]
    {
      StatusInRange(t, x);
    }
  }

  lemma RemoveKeepsExact(db: Db, id: string)
    requires Exact(db)
    ensures Exact(AfterRemove(db, id))
  {
    hide AfterRemove, Covered, Shaped;
    ExactCovered(db);
    CoveredGives(db);
    RemoveKeepsCovered(db, id);
    RemoveEntries(db, id);
    RemoveHashes(db, id);
  }

  lemma RemoveHashes(db: Db, id: string)
    ensures AfterRemove(db, id).hashes == db.hashes - {id} && |AfterRemove(db, id).byStatus| == |db.byStatus|
  {
  }

  /** No index has an entry of this id. */
  ghost predicate Unlisted(db: Db, id: string) {
    && (forall e :: e in db.all ==> e.member != id)
    && (forall k, e :: 0 <= k < |db.byStatus| && e in db.byStatus[k] ==> e.member != id)
  }

  lemma NoneLeft(db: Db, id: string)
    ensures Unlisted(AfterRemove(db, id), id)
  {
    hide Removed;
    RemovedEntries(db.all, id);
    forall k | 0 <= k < |db.byStatus|
      ensures forall e :: e in Removed(db.byStatus[k], id) ==> e.member != id
    {
      RemovedEntries(db.byStatus[k], id);
    }
  }

  /** Dropping one session and its index entries. */
  lemma RemoveKeepsIndexes(db: Db, id: string)
    requires Covered(db)
    ensures Covered(AfterRemove(db, id)) && (Exact(db) ==> Exact(AfterRemove(db, id)))
    ensures Live(AfterRemove(db, id).hashes) == Live(db.hashes) - {id}
  {
    hide AfterRemove, Covered, Exact;
    RemoveKeepsCovered(db, id);
    RemoveHashes(db, id);
    if Exact(db) {
      RemoveKeepsExact(db, id);
    }
  }

  // ------------------------------------------------------------------ counting

  lemma CountIsCardinal(db: Db, status: Option<SessionStatus>)
    requires Exact(db)
    ensures (if status.None? then |db.all| else |db.byStatus[StatusIndex(status.value)]|)
            == |Matching(Live(db.hashes), status)|
  {
    hide Ranked;
    var z := if status.None? then db.all else db.byStatus[StatusIndex(status.value)];
    RankedCount(z);
    forall id
      ensures id in MembersOf(z) <==> id in Matching(Live(db.hashes), status)
    {
      MemberIsEntry(z, id);
      if id in db.hashes {
        StatusIndexInjective(db.hashes[id].blob.status, if status.Some? then status.value else Running);
      }
    }
    assert MembersOf(z) == Matching(Live(db.hashes), status);
  }

  lemma MemberIsEntry(z: ZSet, id: string)
    ensures id in MembersOf(z) <==> exists e :: e in z && e.member == id
  {
    if e :| e in z && e.member == id {
      var i :| 0 <= i < |z| && z[i] == e;
      assert z[i].member == id;
    }
  }

  lemma StatusIndexInjective(a: SessionStatus, b: SessionStatus)
    ensures StatusIndex(a) == StatusIndex(b) <==> a == b
  {
  }

  // ------------------------------------------------------------------ lazy and bulk pruning

  /** The ids in `gone` are out of every index; all else is as it was. */
  ghost predicate Pruned(before: Db, after: Db, gone: set<string>) {
    && Shaped(after) && after.hashes == before.hashes && gone !! before.hashes.Keys
    && (forall e :: e in after.all <==> e in before.all && e.member !in gone)
    && (forall k, e :: 0 <= k < 6 && |before.byStatus| == 6 ==>
          (e in after.byStatus[k] <==> e in before.byStatus[k] && e.member !in gone))
  }

  lemma PrunedRanked(before: Db, after: Db, gone: set<string>)
    requires Pruned(before, after, gone)
    ensures Ranked(after.all)
  {
  }

  lemma PruneOne(before: Db, db: Db, gone: set<string>, id: string)
    requires Shaped(before) && Pruned(before, db, gone) && id !in before.hashes
    ensures Pruned(before, AfterRemove(db, id), gone + {id})
  {
    RemoveEntries(db, id);
    assert AfterRemove(db, id).hashes == before.hashes;
    hide AfterRemove, Shaped;
  }

  lemma PrunedCovered(before: Db, after: Db, gone: set<string>)
    requires Covered(before) && Pruned(before, after, gone)
    ensures Covered(after) && (Exact(before) ==> Exact(after))
  {
    hide Ranked, HashOk;
    forall id | id in before.hashes
      ensures before.hashes[id].status < 6
    {
      StatusInRange(before, id);
    }
  }

  /** Members indexed under all whose hash is gone. */
  ghost function Stale(db: Db): set<string> {
    MembersOf(db.all) - db.hashes.Keys
  }

  lemma {:induction false} RemovedPrefix(z: ZSet, id: string, k: nat)
    requires k <= |z| && forall i :: 0 <= i < k ==> z[i].member != id
    ensures k <= |Removed(z, id)| && Removed(z, id)[..k] == z[..k]
  {
    if k > 0 {
      assert forall i :: 0 <= i < k - 1 ==> z[1..][i] == z[i + 1];
      RemovedPrefix(z[1..], id, k - 1);
      assert z[..k] == [z[0]] + z[1..][..k - 1];
    }
  }

  // ------------------------------------------------------------------ the store

  datatype StoreError = EmptyId | NegativeVersion

  const PrunePage := 500
  const PruneRounds := 100000

  class RedisStateStore {
    const maxList: nat
    var hashes: map<string, Hash>
    var all: ZSet
    var byStatus: seq<ZSet>

    ghost function Snapshot(): Db
      reads this
    {
      Db(hashes, all, byStatus)
    }

    ghost function Sessions(): Contents
      reads `hashes
    {
      Live(hashes)
    }

    constructor (maxList: nat)
      ensures Exact(Snapshot()) && Sessions() == map[] && this.maxList == maxList
    {
      this.maxList := maxList;
      hashes, all, byStatus := map[], [], [[], [], [], [], [], []];
    }

    /** The save script: compare the version, write the hash, move the session between indexes. */
    method SaveScript(c: Session, expected: int) returns (code: int, version: int, previous: int)
      requires Shaped(Snapshot())
      modifies this
      ensures var v := VersionOf(old(Sessions()), c.id);
              if expected >= 0 && v != expected then
                Snapshot() == old(Snapshot()) && previous == -1 &&
                if c.id in old(hashes) then code == 0 && version == v else code == -1 && version == 0
              else
                Snapshot() == AfterSave(old(Snapshot()), c) && code == 1 && version == v + 1
    {
      hide Ranked, Added, Removed;
      var known := c.id in hashes;
      var current := if known then hashes[c.id].version else 0;
      if expected >= 0 && current != expected {
        if known {
          return 0, current, -1;
        }
        return -1, 0, -1;
      }
      previous := if known then hashes[c.id].status else -1;
      if known {
        StatusInRange(Snapshot(), c.id);
      }
      var next := current + 1;
      hashes := hashes[c.id := Hash(c, next, StatusIndex(c.status), c.updatedMs)];
      var wanted := StatusIndex(c.status);
      if previous >= 0 && previous != wanted {
        byStatus := byStatus[previous := Removed(byStatus[previous], c.id)];
      }
      byStatus := byStatus[wanted := Added(byStatus[wanted], c.updatedMs, c.id)];
      all := Added(all, c.updatedMs, c.id);
      return 1, next, previous;
    }

    method Write(c: Session, expected: int) returns (r: Result<Outcome, StoreError>)
      requires Covered(Snapshot())
      modifies this
      ensures Covered(Snapshot()) && (old(Exact(Snapshot())) ==> Exact(Snapshot()))
      ensures r == if c.id == "" then Err(EmptyId)
                   else if expected < 0 then Ok(Outcome(Saved, VersionOf(old(Sessions()), c.id) + 1))
                   else Ok(SaveIfOutcome(old(Sessions()), c, expected))
      ensures Sessions() == if c.id == "" then old(Sessions())
                            else if expected < 0 then SaveIn(old(Sessions()), c)
                            else SaveIfIn(old(Sessions()), c, expected)
    {
      hide Shaped, Exact, AfterSave, Live, SaveIn, VersionOf;
      if c.id == "" {
        return Err(EmptyId);
      }
      SaveKeepsIndexes(Snapshot(), c);
      var code, version, previous := SaveScript(c, expected);
      LiveVersion(old(hashes), c.id);
      if code == 0 {
        return Ok(Outcome(VersionConflict, version));
      }
      if code == -1 {
        return Ok(Outcome(Gone, 0));
      }
      return Ok(Outcome(Saved, version));
    }

    method Save(c: Session) returns (r: Result<bool, StoreError>)
      requires Covered(Snapshot())
      modifies this
      ensures Covered(Snapshot()) && (old(Exact(Snapshot())) ==> Exact(Snapshot()))
      ensures r == if c.id == "" then Err(EmptyId) else Ok(true)
      ensures Sessions() == if c.id == "" then old(Sessions()) else SaveIn(old(Sessions()), c)
    {
      hide Covered, Exact;
      var o := Write(c, -1);
      if o.Err? {
        return Err(o.error);
      }
      return Ok(true);
    }

    method SaveIf(c: Session, expected: int) returns (r: Result<Outcome, StoreError>)
      requires Covered(Snapshot())
      modifies this
      ensures Covered(Snapshot()) && (old(Exact(Snapshot())) ==> Exact(Snapshot()))
      ensures r == if expected < 0 then Err(NegativeVersion) else if c.id == "" then Err(EmptyId)
                   else Ok(SaveIfOutcome(old(Sessions()), c, expected))
      ensures Sessions() == if expected < 0 || c.id == "" then old(Sessions())
                            else SaveIfIn(old(Sessions()), c, expected)
    {
      hide Covered, Exact;
      if expected < 0 {
        return Err(NegativeVersion);
      }
      r := Write(c, expected);
    }

    method Load(id: string) returns (r: Result<Option<Session>, StoreError>)
      ensures r == if id == "" then Err(EmptyId) else Ok(LoadFrom(Sessions(), id))
    {
      if id == "" {
        return Err(EmptyId);
      }
      if id !in hashes {
        return Ok(None);
      }
      return Ok(Some(hashes[id].blob.(version := hashes[id].version)));
    }

    /** Takes an id out of the six status indexes and the one of all sessions. */
    method RemoveFromEveryIndex(id: string)
      requires |byStatus| == 6
      modifies this`all, this`byStatus
      ensures all == Removed(old(all), id) && byStatus == Cleared(old(byStatus), id)
    {
      all := Removed(all, id);
      var k := 0;
      while k < 6
        invariant 0 <= k <= 6 && |byStatus| == 6 && all == Removed(old(all), id)
        invariant forall i :: 0 <= i < k ==> byStatus[i] == Removed(old(byStatus)[i], id)
        invariant forall i :: k <= i < 6 ==> byStatus[i] == old(byStatus)[i]
      {
        byStatus := byStatus[k := Removed(byStatus[k], id)];
        k := k + 1;
      }
    }

    /** Only the index of a known previous status is cleared; all of them when it is unknown. */
    method Unindex(id: string, previous: Option<SessionStatus>)
      requires |byStatus| == 6
      modifies this`all, this`byStatus
      ensures all == Removed(old(all), id)
      ensures byStatus == if previous.None? then Cleared(old(byStatus), id)
                          else var k := StatusIndex(previous.value);
                               old(byStatus)[k := Removed(old(byStatus)[k], id)]
    {
      if previous.Some? {
        var k := StatusIndex(previous.value);
        all := Removed(all, id);
        byStatus := byStatus[k := Removed(byStatus[k], id)];
      } else {
        RemoveFromEveryIndex(id);
      }
    }

    /**
     * Deletes the hash and the index entries. The status read back is the digits of an index, which is
     * no status name, so every index is cleared each time.
     */
    method Remove(id: string) returns (r: Result<bool, StoreError>)
      requires Covered(Snapshot())
      modifies this
      ensures Covered(Snapshot()) && (old(Exact(Snapshot())) ==> Exact(Snapshot()))
      ensures r == if id == "" then Err(EmptyId) else Ok(id in old(Sessions()))
      ensures Sessions() == if id == "" then old(Sessions()) else old(Sessions()) - {id}
      ensures id != "" ==> Unlisted(Snapshot(), id)
    {
      hide Exact, Live, Unlisted;
      if id == "" {
        return Err(EmptyId);
      }
      RemoveKeepsIndexes(Snapshot(), id);
      assert |byStatus| == 6;
      LiveVersion(hashes, id);
      var previous: Option<SessionStatus> := None;
      if id in hashes {
        DigitsAreNoName(hashes[id].status);
        previous := StatusFromName(Decimal(hashes[id].status));
      }
      hide Covered;
      NoneLeft(Snapshot(), id);
      var found := id in hashes;
      hashes := hashes - {id};
      Unindex(id, previous);
      return Ok(found);
    }

    method Count(status: Option<SessionStatus>) returns (n: nat)
      requires Covered(Snapshot())
      ensures Exact(Snapshot()) ==> n == |Matching(Sessions(), status)|
    {
      if Exact(Snapshot()) {
        CountIsCardinal(Snapshot(), status);
      }
      if status.None? {
        return |all|;
      }
      return |byStatus[StatusIndex(status.value)]|;
    }

    /** The server drops an expired hash and leaves the indexes alone: what still lives stays indexed. */
    method Expire(id: string)
      requires Covered(Snapshot())
      modifies `hashes
      ensures Covered(Snapshot()) && Sessions() == old(Sessions()) - {id}
    {
      hide Ranked, HashOk;
      ghost var before := hashes;
      hashes := hashes - {id};
      assert forall x :: x in hashes ==> hashes[x] == before[x];
      forall x | x in hashes
        ensures hashes[x].status < 6
      {
        StatusInRange(Db(before, all, byStatus), x);
      }
    }

    /** The sessions whose index entries rank among the `maxList` newest. */
    ghost function Newest(): (z: ZSet)
      reads this
    {
      if |all| > maxList then all[|all| - maxList..] else all
    }

    /**
     * Lists the newest `maxList` indexed sessions that still exist, ascending by id, and takes those that
     * do not exist out of the indexes.
     */
    method List() returns (out: seq<Session>)
      requires Covered(Snapshot())
      modifies this`all, this`byStatus
      ensures Covered(Snapshot()) && (old(Exact(Snapshot())) ==> Exact(Snapshot()))
      ensures Sorted(out)
      ensures forall c :: c in out <==> c.id in MembersOf(old(Newest())) && c.id in hashes && c == Sessions()[c.id]
      ensures Pruned(old(Snapshot()), Snapshot(), MembersOf(old(Newest())) - hashes.Keys)
    {
      hide Exact, HashOk, Sorted, Ranked, Shaped, Pruned, Covered, Live, Sessions, Backwards, Ids, MembersOf;
      ghost var before := Snapshot();
      CoveredGives(before);
      PrunedNothing(before);
      if maxList == 0 {
        assert Newest() == [];
        NoMembers(hashes);
        out := [];
        return;
      }
      var index := all;
      var first := if |index| > maxList then |index| - maxList else 0;
      var ids := Backwards(index, first);
      IdsAreWindow(index, first);
      assert Newest() == index[first..];
      var stale: seq<string>;
      out, stale := ReadAll(ids);
      var n, gone := Drop(before, {}, stale, 0, 0);
      StaleOfWindow(ids, stale, MembersOf(index[first..]), hashes);
      assert {} + Ids(stale) == Ids(stale);
      PrunedCovered(before, Snapshot(), gone);
    }

    /** Reads the sessions with these ids: those that exist, sorted, and the ids of those that do not. */
    method ReadAll(ids: seq<string>) returns (out: seq<Session>, stale: seq<string>)
      requires forall i, j :: 0 <= i < j < |ids| ==> ids[i] != ids[j]
      requires forall id :: id in hashes ==> HashOk(id, hashes[id])
      ensures Sorted(out) && forall c :: c in out <==> c.id in ids && c.id in hashes && c == Sessions()[c.id]
      ensures forall id :: id in stale <==> id in ids && id !in hashes
      ensures forall i, j :: 0 <= i < j < |stale| ==> stale[i] != stale[j]
    {
      hide Sorted, HashOk;
      var xs: seq<Session> := [];
      stale := [];
      var i := 0;
      while i < |ids|
        invariant 0 <= i <= |ids| && DistinctIds(xs)
        invariant forall c :: c in xs <==> c.id in ids[..i] && c.id in hashes && c == Sessions()[c.id]
        invariant forall id :: id in stale <==> id in ids[..i] && id !in hashes
        invariant forall i, j :: 0 <= i < j < |stale| ==> stale[i] != stale[j]
      {
        assert ids[i] !in ids[..i];
        if ids[i] !in hashes {
          stale := stale + [ids[i]];
        } else {
          HashNamed(ids[i], hashes[ids[i]]);
          xs := xs + [hashes[ids[i]].blob.(version := hashes[ids[i]].version)];
        }
        i := i + 1;
      }
      assert ids[..i] == ids;
      SortByIdSorted(xs);
      out := SortById(xs);
    }

    /** The ids whose hash is gone, in order. */
    method Missing(ids: seq<string>) returns (stale: seq<string>)
      requires forall i, j :: 0 <= i < j < |ids| ==> ids[i] != ids[j]
      ensures forall id :: id in stale <==> id in ids && id !in hashes
      ensures forall i, j :: 0 <= i < j < |stale| ==> stale[i] != stale[j]
    {
      stale := [];
      var i := 0;
      while i < |ids|
        invariant 0 <= i <= |ids|
        invariant forall id :: id in stale <==> id in ids[..i] && id !in hashes
        invariant forall i, j :: 0 <= i < j < |stale| ==> stale[i] != stale[j]
      {
        if ids[i] !in hashes {
          assert ids[i] !in ids[..i];
          stale := stale + [ids[i]];
        }
        i := i + 1;
      }
      assert ids[..i] == ids;
    }

    method DropOne(ghost before: Db, ghost gone: set<string>, id: string, ghost offset: nat)
      requires Shaped(before) && Pruned(before, Snapshot(), gone) && id !in hashes && offset <= |all|
      requires forall i :: 0 <= i < offset ==> all[i].member != id
      modifies this`all, this`byStatus
      ensures Pruned(before, Snapshot(), gone + {id})
      ensures offset <= |all| <= old(|all|) && all[..offset] == old(all[..offset])
    {
      hide Ranked, Removed, Cleared, HashOk;
      assert |byStatus| == 6;
      hide Shaped;
      RemovedPrefix(all, id, offset);
      RemovedEntries(all, id);
      PruneOne(before, Snapshot(), gone, id);
      hide Pruned;
      assert hashes - {id} == hashes;
      RemoveFromEveryIndex(id);
    }

    /** Takes a page's stale ids out of every index; the ranks before the page stay as they are. */
    method Drop(ghost before: Db, ghost gone: set<string>, stale: seq<string>, removed: nat, ghost offset: nat)
        returns (n: nat, ghost out: set<string>)
      requires Shaped(before) && Pruned(before, Snapshot(), gone) && removed == |gone| && offset <= |all|
      requires forall i, j :: 0 <= i < j < |stale| ==> stale[i] != stale[j]
      requires forall id :: id in stale ==> id !in hashes && id !in gone
      requires forall id, i :: id in stale && 0 <= i < offset ==> all[i].member != id
      modifies this`all, this`byStatus
      ensures Pruned(before, Snapshot(), out) && n == |out| && out == gone + Ids(stale)
      ensures offset <= |all| <= old(|all|) && all[..offset] == old(all[..offset])
    {
      hide Shaped, Pruned;
      ghost var first := all[..offset];
      n, out := removed, gone;
      var j := 0;
      while j < |stale|
        invariant 0 <= j <= |stale| && hashes == old(hashes)
        invariant Pruned(before, Snapshot(), out) && n == |out|
        invariant out == gone + Ids(stale[..j])
        invariant offset <= |all| <= old(|all|) && all[..offset] == first
      {
        assert stale[j] in stale && stale[j] !in stale[..j];
        assert forall i :: 0 <= i < offset ==> all[i] == first[i];
        DropOne(before, out, stale[j], offset);
        out := out + {stale[j]};
        n := n + 1;
        j := j + 1;
      }
      assert stale[..j] == stale;
    }

    /**
     * Walks the index of all sessions page by page and takes out every member whose hash is gone. Within
     * the round limit, exactly the stale members are removed, and their number is returned.
     */
    method PruneExpired() returns (removed: nat)
      requires Covered(Snapshot())
      modifies this`all, this`byStatus
      ensures Covered(Snapshot()) && (old(Exact(Snapshot())) ==> Exact(Snapshot()))
      ensures exists gone: set<string> ::
                gone <= Stale(old(Snapshot())) && removed == |gone| && Pruned(old(Snapshot()), Snapshot(), gone)
      ensures |Stale(old(Snapshot()))| + |old(all)| / PrunePage + 1 <= PruneRounds ==>
                Pruned(old(Snapshot()), Snapshot(), Stale(old(Snapshot()))) && removed == |Stale(old(Snapshot()))|
    {
      hide Exact, HashOk, Ranked, Shaped, Stale;
      removed := 0;
      var offset := 0;
      var guard := 0;
      ghost var before := Snapshot();
      ghost var gone: set<string> := {};
      var settled := false;
      PrunedNothing(before);
      while guard < PruneRounds
        invariant 0 <= guard <= PruneRounds && hashes == before.hashes
        invariant Pruned(before, Snapshot(), gone) && gone <= Stale(before) && removed == |gone|
        invariant 0 <= offset <= |all| && AliveBelow(all, offset, hashes)
        invariant settled || |Stale(before) - gone| + (|all| - offset) / PrunePage + guard
                    <= |Stale(before)| + |before.all| / PrunePage
        invariant !settled
        decreases PruneRounds - guard
      {
        guard := guard + 1;
        removed, offset, settled, gone := PruneRound(before, gone, removed, offset);
        if settled {
          break;
        }
      }
      AllSettled(before, Snapshot(), gone);
      PrunedCovered(before, Snapshot(), gone);
    }

    /** One page: drops its stale members and stays, or moves past it; `last` when the walk is over. */
    method PruneRound(ghost before: Db, ghost gone: set<string>, removed: nat, offset: nat)
        returns (n: nat, next: nat, last: bool, ghost out: set<string>)
      requires Shaped(before) && hashes == before.hashes && Pruned(before, Snapshot(), gone)
      requires gone <= Stale(before) && removed == |gone| && offset <= |all| && AliveBelow(all, offset, hashes)
      modifies this`all, this`byStatus
      ensures Pruned(before, Snapshot(), out) && out <= Stale(before) && n == |out|
      ensures next <= |all| && AliveBelow(all, next, hashes)
      ensures last ==> AliveBelow(all, |all|, hashes)
      ensures !last ==> |Stale(before) - out| + (|all| - next) / PrunePage
                        < |Stale(before) - gone| + (old(|all|) - offset) / PrunePage
    {
      hide HashOk, Ranked, Shaped, Stale, Pruned, Forwards, MembersOf, AliveBelow, Ids;
      PrunedRanked(before, Snapshot(), gone);
      n, next, out := removed, offset, gone;
      var index := all;
      var size := if |index| - offset < PrunePage then |index| - offset else PrunePage;
      if size == 0 {
        last := true;
        return;
      }
      var ids := Forwards(index, offset, size);
      PageIds(index, offset, size);
      var stale := Missing(ids);
      if stale != [] {
        PageIsStale(before, Snapshot(), gone, offset, stale);
        n, out := Drop(before, gone, stale, removed, offset);
        last := false;
        AliveKept(index, all, offset, hashes);
        FewerStale(Stale(before), gone, stale);
        return;
      }
      next := offset + size;
      last := size < PrunePage;
      AliveOnPage(all, offset, size, hashes, ids);
    }
  }

  lemma LiveVersion(hashes: map<string, Hash>, id: string)
    ensures id in hashes <==> id in Live(hashes)
    ensures id in hashes ==> VersionOf(Live(hashes), id) == Live(hashes)[id].version
  {
  }

  lemma NoMembers(hashes: map<string, Hash>)
    ensures MembersOf([]) == {} && MembersOf([]) - hashes.Keys == {} && Sorted([])
  {
  }

  lemma HashNamed(id: string, h: Hash)
    requires HashOk(id, h)
    ensures h.blob.id == id
  {
  }

  lemma AliveKept(z: ZSet, y: ZSet, offset: nat, hashes: map<string, Hash>)
    requires offset <= |z| && offset <= |y| && y[..offset] == z[..offset] && AliveBelow(z, offset, hashes)
    ensures AliveBelow(y, offset, hashes)
  {
    forall i | 0 <= i < offset
      ensures y[i].member in hashes
    {
      assert y[i] == y[..offset][i] == z[..offset][i] == z[i];
    }
  }

  lemma AliveOnPage(z: ZSet, offset: nat, size: nat, hashes: map<string, Hash>, ids: seq<string>)
    requires offset + size <= |z| && AliveBelow(z, offset, hashes)
    requires forall i :: offset <= i < offset + size ==> z[i].member in ids
    requires forall id :: id in ids ==> id in hashes
    ensures AliveBelow(z, offset + size, hashes)
  {
  }

  lemma FewerStale(all: set<string>, gone: set<string>, stale: seq<string>)
    requires stale != [] && gone <= all && forall id :: id in stale ==> id in all && id !in gone
    ensures gone + Ids(stale) <= all && |all - (gone + Ids(stale))| < |all - gone|
  {
    var out := gone + Ids(stale);
    assert stale[0] in stale && stale[0] in out;
    assert all - out < all - gone;
    SmallerSet(all - out, all - gone);
  }

  lemma SmallerSet(a: set<string>, b: set<string>)
    requires a < b
    ensures |a| < |b|
  {
    var rest := b - a;
    assert b == a + rest && rest != {};
  }

  /** Stale ids found on a page are indexed, not yet dropped, and rank above the page's start. */
  lemma PageIsStale(before: Db, db: Db, gone: set<string>, offset: nat, stale: seq<string>)
    requires Pruned(before, db, gone) && offset <= |db.all| && AliveBelow(db.all, offset, db.hashes)
    requires forall id :: id in stale ==>
               id !in db.hashes && exists i :: offset <= i < |db.all| && db.all[i].member == id
    ensures forall id :: id in stale ==> id in MembersOf(db.all) && id in Stale(before) && id !in gone
    ensures forall id, i :: id in stale && 0 <= i < offset ==> db.all[i].member != id
  {
    hide Shaped;
    forall id | id in stale
      ensures id in MembersOf(db.all) && id in Stale(before) && id !in gone
    {
      var i :| offset <= i < |db.all| && db.all[i].member == id;
      assert db.all[i] in db.all && db.all[i] in before.all;
      var k :| 0 <= k < |before.all| && before.all[k] == db.all[i];
      assert before.all[k].member == id;
    }
  }

  ghost function Ids(s: seq<string>): set<string> {
    set id | id in s
  }

  lemma StaleOfWindow(ids: seq<string>, stale: seq<string>, window: set<string>, hashes: map<string, Hash>)
    requires forall id :: id in ids <==> id in window
    requires forall id :: id in stale <==> id in ids && id !in hashes
    ensures Ids(stale) == window - hashes.Keys
  {
  }

  /** Everything ranked below `offset` exists. */
  ghost predicate AliveBelow(z: ZSet, offset: nat, hashes: map<string, Hash>) {
    forall i :: 0 <= i < offset && i < |z| ==> z[i].member in hashes
  }

  /** ZREVRANGE: the members from the highest rank down to `first`. */
  function Backwards(z: ZSet, first: nat): seq<string>
    requires first <= |z|
  {
    seq(|z| - first, i requires 0 <= i < |z| - first => z[|z| - 1 - i].member)
  }

  /** ZRANGE: the members of `size` ranks from `offset` on. */
  function Forwards(z: ZSet, offset: nat, size: nat): seq<string>
    requires offset + size <= |z|
  {
    seq(size, i requires 0 <= i < size => z[offset + i].member)
  }

  lemma PageIds(z: ZSet, offset: nat, size: nat)
    requires Ranked(z) && offset + size <= |z|
    ensures var ids := Forwards(z, offset, size);
            && (forall i, j :: 0 <= i < j < |ids| ==> ids[i] != ids[j])
            && (forall i :: offset <= i < offset + size ==> z[i].member in ids)
            && (forall id :: id in ids ==> exists i :: offset <= i < |z| && z[i].member == id)
  {
    var ids := Forwards(z, offset, size);
    forall i | offset <= i < offset + size
      ensures z[i].member in ids
    {
      assert ids[i - offset] == z[i].member;
    }
  }

  lemma IdsAreWindow(z: ZSet, first: nat)
    requires Ranked(z) && first <= |z|
    ensures var ids := Backwards(z, first);
            && (forall i, j :: 0 <= i < j < |ids| ==> ids[i] != ids[j])
            && (forall id :: id in ids <==> id in MembersOf(z[first..]))
  {
    var ids := Backwards(z, first);
    var w := z[first..];
    forall id | id in MembersOf(w)
      ensures id in ids
    {
      var i :| 0 <= i < |w| && w[i].member == id;
      assert ids[|w| - 1 - i] == id;
    }
    forall i | 0 <= i < |ids|
      ensures ids[i] in MembersOf(w)
    {
      assert w[|w| - 1 - i].member == ids[i];
    }
  }

  /** Once everything indexed exists, all that was stale is gone. */
  lemma AllSettled(before: Db, after: Db, gone: set<string>)
    requires Pruned(before, after, gone) && gone <= Stale(before)
    ensures AliveBelow(after.all, |after.all|, before.hashes) ==> gone == Stale(before)
  {
    hide Shaped;
    if AliveBelow(after.all, |after.all|, before.hashes) {
      forall id | id in Stale(before)
        ensures id in gone
      {
        var i :| 0 <= i < |before.all| && before.all[i].member == id;
        assert before.all[i] in before.all;
      }
    }
  }

  lemma PrunedNothing(db: Db)
    requires Shaped(db)
    ensures Pruned(db, db, {})
  {
  }

  lemma DigitsAreNoName(n: nat)
    ensures Decimal(n) !in StatusNames && Decimal(n) != "suspended" && Decimal(n) != "pending"
  {
    assert '0' <= Decimal(n)[0] <= '9';
    assert forall k :: 0 <= k < 6 ==> StatusNames[k][0] > '9';
  }
}
