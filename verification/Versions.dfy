// Clients that load a session, work on it and write it back on condition: what optimistic concurrency
// guarantees over every interleaving. Each event is one atomic call on a store.

module Versions {
  import opened Json
  import opened Sessions

  type Key = (nat, string)

  datatype Event =
    | Fetch(client: nat, id: string)
    | WriteBack(client: nat, c: Session)   // conditional on the version the client fetched
    | Overwrite(c: Session)                // unconditional
    | Drop(id: string)

  /** The store, and what each client holds from its last fetch of a session. */
  datatype World = World(sessions: Contents, held: map<Key, Option<Session>>)

  function HeldVersion(s: Option<Session>): int {
    if s.Some? then s.value.version else 0
  }

  function Next(x: World, e: Event): World {
    match e
    case Fetch(client, id) => x.(held := x.held[(client, id) := LoadFrom(x.sessions, id)])
    case WriteBack(client, c) =>
      if (client, c.id) in x.held then
        World(SaveIfIn(x.sessions, c, HeldVersion(x.held[(client, c.id)])), x.held - {(client, c.id)})
      else x
    case Overwrite(c) => x.(sessions := SaveIn(x.sessions, c))
    case Drop(id) => x.(sessions := x.sessions - {id})
  }

  /** A conditional write of session `id` that goes through. */
  predicate AcceptedBack(x: World, e: Event, id: string) {
    && e.WriteBack? && e.c.id == id && (e.client, id) in x.held
    && SaveIfOutcome(x.sessions, e.c, HeldVersion(x.held[(e.client, id)])).result == Saved
  }

  predicate Writes(x: World, e: Event, id: string) {
    AcceptedBack(x, e, id) || (e.Overwrite? && e.c.id == id)
  }

  function Run(x: World, es: seq<Event>): World {
    if es == [] then x else Next(Run(x, es[..|es| - 1]), es[|es| - 1])
  }

  /** Accepted writes of session `id` in a run. */
  function WriteCount(x: World, es: seq<Event>, id: string): nat {
    if es == [] then 0
    else WriteCount(x, es[..|es| - 1], id)
         + if Writes(Run(x, es[..|es| - 1]), es[|es| - 1], id) then 1 else 0
  }

  /** No event ends the lifetime of the session. */
  predicate Lasting(es: seq<Event>, id: string) {
    forall k :: 0 <= k < |es| ==> es[k] != Drop(id)
  }

  /** What clients hold of the session is not ahead of the store, and what is up to date is equal to it. */
  ghost predicate Consistent(x: World, id: string) {
    && (id in x.sessions ==> x.sessions[id].version >= 1)
    && forall client :: (client, id) in x.held && x.held[(client, id)].Some? ==>
         var s := x.held[(client, id)].value;
         && s.version >= 1 && id in x.sessions && s.version <= x.sessions[id].version
         && (s.version == x.sessions[id].version ==> s == x.sessions[id])
  }

  lemma NextConsistent(x: World, e: Event, id: string)
    requires Consistent(x, id) && e != Drop(id)
    ensures Consistent(Next(x, e), id)
    ensures VersionOf(Next(x, e).sessions, id) == VersionOf(x.sessions, id) + if Writes(x, e, id) then 1 else 0
  {
  }

  lemma Prefix(es: seq<Event>, k: nat)
    requires k < |es|
    ensures es[..k + 1][..k] == es[..k] && es[..k + 1][k] == es[k]
  {
  }

  /** Within one lifetime of a session the stored version counts its accepted writes. */
  lemma {:induction false} VersionCountsWrites(x: World, es: seq<Event>, id: string)
    requires Consistent(x, id) && Lasting(es, id)
    ensures Consistent(Run(x, es), id)
    ensures VersionOf(Run(x, es).sessions, id) == VersionOf(x.sessions, id) + WriteCount(x, es, id)
  {
    hide Consistent, Next, Writes, VersionOf;
    if es != [] {
      VersionCountsWrites(x, es[..|es| - 1], id);
      NextConsistent(Run(x, es[..|es| - 1]), es[|es| - 1], id);
    }
  }

  // ------------------------------------------------------------------ what one client can rely on

  /** Versions count from one, in the store and in what clients hold. */
  ghost predicate Versioned(x: World, id: string) {
    && (id in x.sessions ==> x.sessions[id].version >= 1)
    && forall client :: (client, id) in x.held && x.held[(client, id)].Some? ==> x.held[(client, id)].value.version >= 1
  }

  /** What this client holds of the session is not ahead of the store, and if it is up to date it is equal to it. */
  predicate UpToDate(x: World, client: nat, id: string) {
    (client, id) in x.held && x.held[(client, id)].Some? ==>
      var s := x.held[(client, id)].value;
      && id in x.sessions && s.version <= x.sessions[id].version
      && (s.version == x.sessions[id].version ==> s == x.sessions[id])
  }

  lemma NextUpToDate(x: World, e: Event, client: nat, id: string)
    requires Versioned(x, id)
    ensures Versioned(Next(x, e), id)
    ensures e == Fetch(client, id) || (UpToDate(x, client, id) && e != Drop(id)) ==> UpToDate(Next(x, e), client, id)
  {
  }

  lemma {:induction false} RunVersioned(x: World, es: seq<Event>, id: string)
    requires Versioned(x, id)
    ensures Versioned(Run(x, es), id)
  {
    hide Versioned, Next;
    if es != [] {
      RunVersioned(x, es[..|es| - 1], id);
      NextUpToDate(Run(x, es[..|es| - 1]), es[|es| - 1], 0, id);
    }
  }

  /** From a fetch of the client on, until the session is dropped. */
  lemma {:induction false} FetchedStays(x: World, es: seq<Event>, client: nat, id: string, f: nat, k: nat)
    requires Versioned(x, id) && f < k <= |es| && es[f] == Fetch(client, id)
    requires forall j :: f < j < k ==> es[j] != Drop(id)
    ensures UpToDate(Run(x, es[..k]), client, id)
    decreases k
  {
    hide Versioned, Next, UpToDate, Run;
    Prefix(es, k - 1);
    RunVersioned(x, es[..k - 1], id);
    NextUpToDate(Run(x, es[..k - 1]), es[k - 1], client, id);
    RunOn(x, es[..k]);
    if f < k - 1 {
      FetchedStays(x, es, client, id, f, k - 1);
    }
  }

  lemma RunOn(x: World, es: seq<Event>)
    requires es != []
    ensures Run(x, es) == Next(Run(x, es[..|es| - 1]), es[|es| - 1])
  {
  }

  lemma AcceptedIsHeld(x: World, e: Event, id: string)
    requires AcceptedBack(x, e, id) && Versioned(x, id) && UpToDate(x, e.client, id)
    ensures LoadFrom(x.sessions, id) == x.held[(e.client, id)]
  {
  }

  /**
   * An accepted conditional write replaces exactly what its client had fetched, whatever the other clients do,
   * if the session was not dropped since that client's own fetch.
   */
  lemma AcceptedReplacesFetched(x: World, es: seq<Event>, id: string, f: nat, k: nat)
    requires Versioned(x, id) && f < k < |es| && AcceptedBack(Run(x, es[..k]), es[k], id)
    requires es[f] == Fetch(es[k].client, id) && forall j :: f < j < k ==> es[j] != Drop(id)
    ensures LoadFrom(Run(x, es[..k]).sessions, id) == Run(x, es[..k]).held[(es[k].client, id)]
  {
    hide Run, Versioned, UpToDate;
    RunVersioned(x, es[..k], id);
    FetchedStays(x, es, es[k].client, id, f, k);
    AcceptedIsHeld(Run(x, es[..k]), es[k], id);
  }

  /** A client that found no session cannot replace one. */
  lemma NothingFetchedIsSafe(x: World, e: Event, id: string)
    requires Versioned(x, id) && AcceptedBack(x, e, id) && x.held[(e.client, id)].None?
    ensures LoadFrom(x.sessions, id) == None
  {
  }

  /** The same session written over and over. */
  function Repeated(b: Session, n: nat): seq<Event> {
    seq(n, _ => Overwrite(b))
  }

  lemma {:induction false} Rewritten(x: World, b: Session, n: nat)
    ensures var y := Run(x, Repeated(b, n));
            && y.held == x.held && VersionOf(y.sessions, b.id) == VersionOf(x.sessions, b.id) + n
            && (n > 0 ==> LoadFrom(y.sessions, b.id) == Some(b.(version := VersionOf(x.sessions, b.id) + n)))
            && (n == 0 ==> y == x)
  {
    if n > 0 {
      assert Repeated(b, n)[..n - 1] == Repeated(b, n - 1);
      Rewritten(x, b, n - 1);
    }
  }

  /** After these events a conditional write of the client goes through only over what the client holds. */
  ghost predicate Replaces(x: World, fs: seq<Event>, client: nat, c: Session) {
    var y := Run(x, fs);
    AcceptedBack(y, WriteBack(client, c), c.id) ==> LoadFrom(y.sessions, c.id) == y.held[(client, c.id)]
  }

  lemma {:induction false} RunUpToDate(x: World, fs: seq<Event>, client: nat, id: string)
    requires Versioned(x, id) && UpToDate(x, client, id) && Lasting(fs, id)
    ensures Versioned(Run(x, fs), id) && UpToDate(Run(x, fs), client, id)
  {
    hide Versioned, Next, UpToDate;
    if fs != [] {
      RunUpToDate(x, fs[..|fs| - 1], client, id);
      NextUpToDate(Run(x, fs[..|fs| - 1]), fs[|fs| - 1], client, id);
    }
  }

  /**
   * Exactly when a client's writes are safe for the rest of a lifetime: in every future without a removal they
   * replace what it fetched, if and only if what it holds is not ahead of the store and not a namesake of the stored
   * session. If it is, as right after a removal, enough unconditional writes bring the version back to its own.
   */
  lemma SafeIffUpToDate(x: World, client: nat, id: string)
    requires Versioned(x, id)
    ensures UpToDate(x, client, id) <==>
            forall fs: seq<Event>, c: Session :: Lasting(fs, id) && c.id == id ==> Replaces(x, fs, client, c)
  {
    hide Versioned, UpToDate, Run;
    if UpToDate(x, client, id) {
      forall fs: seq<Event>, c: Session | Lasting(fs, id) && c.id == id
        ensures Replaces(x, fs, client, c)
      {
        RunUpToDate(x, fs, client, id);
        if AcceptedBack(Run(x, fs), WriteBack(client, c), id) {
          AcceptedIsHeld(Run(x, fs), WriteBack(client, c), id);
        }
      }
    } else {
      var fs, c := SomeoneElsesReplaced(x, client, id);
      assert !Replaces(x, fs, client, c);
    }
  }

  lemma SomeoneElsesReplaced(x: World, client: nat, id: string) returns (fs: seq<Event>, c: Session)
    requires Versioned(x, id) && !UpToDate(x, client, id)
    ensures Lasting(fs, id) && c.id == id && !Replaces(x, fs, client, c)
  {
    var s := x.held[(client, id)].value;
    var stored := VersionOf(x.sessions, id);
    c := Session(id, Running, 0, 0, Arr([s.body]));
    OtherBody(s.body);
    var n: nat := if stored < s.version then s.version - stored else 0;
    fs := Repeated(c, n);
    Rewritten(x, c, n);
  }

  lemma OtherBody(j: Json)
    ensures Arr([j]) != j
  {
    assert [j][0] == j;
  }

  /** Right after a removal, what a client holds of the session is no longer safe. */
  lemma DroppedIsUnsafe(x: World, client: nat, id: string)
    requires (client, id) in x.held && x.held[(client, id)].Some?
    ensures !UpToDate(Next(x, Drop(id)), client, id)
  {
  }

  /** At most one conditional write succeeds per expected version: a later one expected a higher version. */
  lemma OneWriterPerVersion(x: World, es: seq<Event>, id: string, i: nat, j: nat)
    requires Consistent(x, id) && Lasting(es, id) && i < j < |es|
    requires AcceptedBack(Run(x, es[..i]), es[i], id) && AcceptedBack(Run(x, es[..j]), es[j], id)
    ensures HeldVersion(Run(x, es[..i]).held[(es[i].client, id)])
            < HeldVersion(Run(x, es[..j]).held[(es[j].client, id)])
  {
    hide Run, Next, Consistent, WriteCount;
    VersionCountsWrites(x, es[..i], id);
    VersionCountsWrites(x, es[..j], id);
    CountGrows(x, es, id, i, j);
  }

  lemma {:induction false} CountGrows(x: World, es: seq<Event>, id: string, i: nat, j: nat)
    requires i < j <= |es| && Writes(Run(x, es[..i]), es[i], id)
    ensures WriteCount(x, es[..j], id) > WriteCount(x, es[..i], id)
    decreases j
  {
    hide Run, Writes;
    Prefix(es, j - 1);
    if j > i + 1 {
      CountGrows(x, es, id, i, j - 1);
    }
  }

  /** Across lifetimes the guarantee is lost: the version starts again, and an old fetch matches a new session. */
  lemma RecreatedSessionIsMistaken(a: Session, b: Session, c: Session)
    requires a.id == b.id == c.id && a.body != b.body
    ensures var es := [Overwrite(a), Fetch(0, a.id), Drop(a.id), Overwrite(b), WriteBack(0, c)];
            var x := World(map[], map[]);
            && AcceptedBack(Run(x, es[..4]), es[4], a.id)
            && LoadFrom(Run(x, es[..4]).sessions, a.id) != Run(x, es[..4]).held[(0, a.id)]
  {
    var es := [Overwrite(a), Fetch(0, a.id), Drop(a.id), Overwrite(b), WriteBack(0, c)];
    var x := World(map[], map[]);
    Prefix(es, 0); Prefix(es, 1); Prefix(es, 2); Prefix(es, 3);
    assert Run(x, es[..0]) == x;
    assert Run(x, es[..1]) == Next(x, es[0]);
    assert Run(x, es[..2]) == Next(Run(x, es[..1]), es[1]);
    assert Run(x, es[..3]) == Next(Run(x, es[..2]), es[2]);
    assert Run(x, es[..4]) == Next(Run(x, es[..3]), es[3]);
  }
}
