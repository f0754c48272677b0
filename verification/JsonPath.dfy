// Reading and writing a JSON document through a path.

module JsonPath {
  import opened Json

  datatype PathStep = Field(name: string) | Index(at: nat) | Wildcard

  // ------------------------------------------------------------------ reading

  /** One step of a lookup; anything but an array is also its own single element. */
  function Child(j: Json, s: PathStep): Option<Json> {
    match s
    case Field(name) => if j.Obj? && name in j.fields then Some(j.fields[name]) else None
    case Index(at) =>
      if !j.Arr? then (if at == 0 then Some(j) else None)
      else if at < |j.items| then Some(j.items[at]) else None
    case Wildcard => None
  }

  function Walk(j: Json, steps: seq<PathStep>): Option<Json> {
    if steps == [] then Some(j)
    else
      var c := Child(j, steps[0]);
      if c.None? then None else Walk(c.value, steps[1..])
  }

  /** The lookup as the loop it is. */
  method GetPath(root: Json, steps: seq<PathStep>) returns (found: Option<Json>)
    ensures found == Walk(root, steps)
  {
    var cursor := root;
    var i := 0;
    while i < |steps|
      invariant 0 <= i <= |steps| && Walk(cursor, steps[i..]) == Walk(root, steps)
    {
      assert steps[i..][0] == steps[i] && steps[i..][1..] == steps[i + 1..];
      var c := Child(cursor, steps[i]);
      if c.None? {
        return None;
      }
      cursor := c.value;
      i := i + 1;
    }
    return Some(cursor);
  }

  // ------------------------------------------------------------------ writing

  /** The name a write uses: a wildcard is written as a field called `*`. */
  function NameOf(s: PathStep): string
    requires !s.Index?
  {
    if s.Field? then s.name else "*"
  }

  function Pad(items: seq<Json>, n: nat): seq<Json> {
    if |items| >= n then items else items + seq(n - |items|, _ => Null)
  }

  /** The container a write needs at this step: what is there if it fits, a new one in place of null. */
  function Opened(j: Json, s: PathStep): Option<Json> {
    if s.Index? then
      if j.Arr? then Some(Arr(Pad(j.items, s.at + 1)))
      else if j.Null? then Some(Arr(Pad([], s.at + 1))) else None
    else if j.Obj? then Some(j)
    else if j.Null? then Some(Obj(map[])) else None
  }

  /** The element a step of a write leads to, null if it is new. */
  function Slot(j: Json, s: PathStep): Json
    requires Opened(j, s).Some?
  {
    var c := Opened(j, s).value;
    if s.Index? then c.items[s.at] else if NameOf(s) in c.fields then c.fields[NameOf(s)] else Null
  }

  /** The container with that element replaced. */
  function Filled(j: Json, s: PathStep, v: Json): Json
    requires Opened(j, s).Some?
  {
    var c := Opened(j, s).value;
    if s.Index? then Arr(c.items[s.at := v]) else Obj(c.fields[NameOf(s) := v])
  }

  /** The document after a write; None when some container on the way has the wrong kind. */
  function Set(j: Json, steps: seq<PathStep>, v: Json): Option<Json>
    decreases |steps|
  {
    if steps == [] then Some(v)
    else if Opened(j, steps[0]).None? then None
    else
      var r := Set(Slot(j, steps[0]), steps[1..], v);
      if r.None? then None else Some(Filled(j, steps[0], r.value))
  }

  lemma FilledIndex(j: Json, s: PathStep, x: Json, y: Json)
    requires Opened(j, s).Some? && s.Index?
    ensures Opened(Filled(j, s, x), s).Some? && Slot(Filled(j, s, x), s) == x
    ensures Filled(Filled(j, s, x), s, y) == Filled(j, s, y)
  {
    var items := Opened(j, s).value.items;
    assert items[s.at := x][s.at := y] == items[s.at := y];
    assert Pad(items[s.at := x], s.at + 1) == items[s.at := x];
    hide Pad;
  }

  /** Opening a container, filling it and filling it again. */
  lemma FilledSlot(j: Json, s: PathStep, x: Json, y: Json)
    requires Opened(j, s).Some?
    ensures Opened(Filled(j, s, x), s).Some? && Slot(Filled(j, s, x), s) == x
    ensures Filled(Filled(j, s, x), s, y) == Filled(j, s, y)
  {
    if s.Index? {
      FilledIndex(j, s, x, y);
    }
  }

  /** Either the element was there, and filling it with itself changes nothing, or it is new and null. */
  lemma SlotOldOrNull(j: Json, s: PathStep)
    requires Opened(j, s).Some?
    ensures Filled(j, s, Slot(j, s)) == j || Slot(j, s) == Null
  {
    if s.Index? {
      if j.Arr? && s.at < |j.items| {
        assert j.items[s.at := j.items[s.at]] == j.items;
      }
    } else if j.Obj? && NameOf(s) in j.fields {
      assert j.fields[NameOf(s) := j.fields[NameOf(s)]] == j.fields;
    }
  }

  lemma NullOpens(s: PathStep)
    ensures Opened(Null, s).Some? && Slot(Null, s) == Null
  {
  }

  // ------------------------------------------------------------------ the write in place

  /** Every container along the path is there, with its element. */
  ghost predicate Solid(j: Json, path: seq<PathStep>)
    decreases |path|
  {
    || path == []
    || (Opened(j, path[0]).Some? && Filled(j, path[0], Slot(j, path[0])) == j && Solid(Slot(j, path[0]), path[1..]))
  }

  /** The element at a path. */
  function At(j: Json, path: seq<PathStep>): Json
    requires Solid(j, path)
    decreases |path|
  {
    if path == [] then j else At(Slot(j, path[0]), path[1..])
  }

  /** The document with the element at a path replaced: what a write through a pointer into it does. */
  function Put(j: Json, path: seq<PathStep>, v: Json): Json
    requires Solid(j, path)
    decreases |path|
  {
    if path == [] then v else Filled(j, path[0], Put(Slot(j, path[0]), path[1..], v))
  }

  lemma {:induction false} PutAt(j: Json, path: seq<PathStep>, x: Json)
    requires Solid(j, path)
    ensures Put(j, path, At(j, path)) == j
    ensures Solid(Put(j, path, x), path) && At(Put(j, path, x), path) == x
    ensures forall y :: Put(Put(j, path, x), path, y) == Put(j, path, y)
    decreases |path|
  {
    hide Opened, Slot, Filled;
    if path != [] {
      var s, rest := path[0], path[1..];
      PutAt(Slot(j, s), rest, x);
      var inner := Put(Slot(j, s), rest, x);
      FilledSlot(j, s, inner, inner);
      forall y
        ensures Put(Put(j, path, x), path, y) == Put(j, path, y)
      {
        FilledSlot(j, s, inner, Put(Slot(j, s), rest, y));
      }
    }
  }

  lemma {:induction false} SolidStep(j: Json, path: seq<PathStep>, s: PathStep)
    requires Solid(j, path) && Opened(At(j, path), s).Some?
    requires Filled(At(j, path), s, Slot(At(j, path), s)) == At(j, path)
    ensures Solid(j, path + [s]) && At(j, path + [s]) == Slot(At(j, path), s)
    decreases |path|
  {
    hide Opened, Slot, Filled;
    if path == [] {
      assert ([] + [s])[1..] == [];
      assert Solid(Slot(j, s), []) && At(Slot(j, s), []) == Slot(j, s);
    } else {
      assert (path + [s])[0] == path[0] && (path + [s])[1..] == path[1..] + [s];
      SolidStep(Slot(j, path[0]), path[1..], s);
    }
  }

  lemma {:induction false} SetThrough(j: Json, path: seq<PathStep>, steps: seq<PathStep>, v: Json)
    requires Solid(j, path)
    ensures var r := Set(At(j, path), steps, v);
            Set(j, path + steps, v) == if r.None? then None else Some(Put(j, path, r.value))
    decreases |path|
  {
    hide Opened, Slot, Filled;
    if path == [] {
      assert path + steps == steps;
    } else {
      assert (path + steps)[0] == path[0] && (path + steps)[1..] == path[1..] + steps;
      SetThrough(Slot(j, path[0]), path[1..], steps, v);
    }
  }

  /** Opening the container at the cursor does not change what the write will do. */
  lemma OpenedSame(j: Json, s: PathStep, rest: seq<PathStep>, v: Json)
    requires Opened(j, s).Some?
    ensures Set(Filled(j, s, Slot(j, s)), [s] + rest, v) == Set(j, [s] + rest, v)
  {
    hide Opened, Slot, Filled;
    assert ([s] + rest)[0] == s && ([s] + rest)[1..] == rest;
    FilledSlot(j, s, Slot(j, s), Slot(j, s));
    var r := Set(Slot(j, s), rest, v);
    if r.Some? {
      FilledSlot(j, s, Slot(j, s), r.value);
    }
  }

  /** One round of the write: open the container under the cursor in place and move on to its element. */
  lemma WriteRound(root: Json, document: Json, path: seq<PathStep>, s: PathStep, rest: seq<PathStep>, v: Json)
    requires Solid(document, path) && Opened(At(document, path), s).Some?
    requires document == root || At(document, path) == Null
    requires Set(document, path + ([s] + rest), v) == Set(root, path + ([s] + rest), v)
    ensures var cursor := At(document, path);
            var next := Put(document, path, Filled(cursor, s, Slot(cursor, s)));
            && Solid(next, path + [s]) && At(next, path + [s]) == Slot(cursor, s)
            && (next == root || Slot(cursor, s) == Null)
            && Set(next, path + ([s] + rest), v) == Set(root, path + ([s] + rest), v)
  {
    hide Opened, Slot, Filled, Set;
    var cursor := At(document, path);
    var filled := Filled(cursor, s, Slot(cursor, s));
    var next := Put(document, path, filled);
    PutAt(document, path, filled);
    FilledSlot(cursor, s, Slot(cursor, s), Slot(cursor, s));
    SolidStep(next, path, s);
    SlotOldOrNull(cursor, s);
    NullOpens(s);
    OpenedSame(cursor, s, rest, v);
    SetThrough(document, path, [s] + rest, v);
    SetThrough(next, path, [s] + rest, v);
  }

  /**
   * Writes a value, opening containers in place along the path. An empty path is refused, and so is one
   * that meets a container of the wrong kind; then the document is as it was.
   */
  method SetPath(root: Json, steps: seq<PathStep>, v: Json) returns (ok: bool, document: Json)
    ensures ok <==> steps != [] && Set(root, steps, v).Some?
    ensures document == if ok then Set(root, steps, v).value else root
  {
    document := root;
    if steps == [] {
      return false, document;
    }
    assert Solid(root, []) && At(root, []) == root;
    hide Set, Solid, Put, At, Opened, Slot, Filled;
    var cursor := root;
    var i := 0;
    while i < |steps|
      invariant 0 <= i <= |steps| && Solid(document, steps[..i]) && At(document, steps[..i]) == cursor
      invariant document == root || cursor == Null
      invariant Set(document, steps, v) == Set(root, steps, v)
    {
      var step := steps[i];
      Splits(steps, i);
      SetThrough(document, steps[..i], [step] + steps[i + 1..], v);
      if Opened(cursor, step).None? {
        NullOpens(step);
        SetRefused(cursor, step, steps[i + 1..], v);
        return false, document;
      }
      WriteRound(root, document, steps[..i], step, steps[i + 1..], v);
      document := Put(document, steps[..i], Filled(cursor, step, Slot(cursor, step)));
      cursor := Slot(cursor, step);
      i := i + 1;
    }
    assert steps[..i] == steps && steps + [] == steps;
    SetThrough(document, steps, [], v);
    SetHere(cursor, v);
    return true, Put(document, steps, v);
  }

  lemma SetRefused(j: Json, s: PathStep, rest: seq<PathStep>, v: Json)
    requires Opened(j, s).None?
    ensures Set(j, [s] + rest, v).None?
  {
  }

  lemma SetHere(j: Json, v: Json)
    ensures Set(j, [], v) == Some(v)
  {
  }

  lemma Splits(steps: seq<PathStep>, i: nat)
    requires i < |steps|
    ensures steps[..i] + ([steps[i]] + steps[i + 1..]) == steps
    ensures steps[..i] + [steps[i]] == steps[..i + 1]
  {
  }

  // ------------------------------------------------------------------ reading back

  ghost predicate Plain(steps: seq<PathStep>) {
    forall i :: 0 <= i < |steps| ==> !steps[i].Wildcard?
  }

  /** A written value is read back through its path exactly when the path has no wildcard. */
  lemma {:induction false} ReadBack(j: Json, steps: seq<PathStep>, v: Json)
    requires Set(j, steps, v).Some?
    ensures Walk(Set(j, steps, v).value, steps) == Some(v) <==> Plain(steps)
    decreases |steps|
  {
    if steps != [] {
      ReadBack(Slot(j, steps[0]), steps[1..], v);
      if Plain(steps) {
        assert Plain(steps[1..]);
      } else if !steps[0].Wildcard? {
        assert !Plain(steps[1..]) by {
          var i :| 0 <= i < |steps| && steps[i].Wildcard?;
          assert steps[1..][i - 1] == steps[i];
        }
      }
    }
  }

  /** The paths part at position `i`, at steps of the same kind. */
  predicate PartAt(p: seq<PathStep>, q: seq<PathStep>, i: nat) {
    && i < |p| && i < |q| && p[..i] == q[..i] && p[i] != q[i]
    && ((p[i].Field? && q[i].Field?) || (p[i].Index? && q[i].Index?))
  }

  /** Any path that starts at null and resolves is made of `[0]` steps, and ends at null. */
  lemma {:induction false} NullWalk(q: seq<PathStep>)
    requires Walk(Null, q).Some?
    ensures Walk(Null, q) == Some(Null)
  {
    if q != [] {
      NullWalk(q[1..]);
    }
  }

  /** A write leaves every path alone that resolved before and parts from it at steps of the same kind. */
  lemma {:induction false} OthersKept(j: Json, p: seq<PathStep>, q: seq<PathStep>, i: nat, v: Json)
    requires Plain(p) && Set(j, p, v).Some? && PartAt(p, q, i) && Walk(j, q).Some?
    ensures Walk(Set(j, p, v).value, q) == Walk(j, q)
    decreases i
  {
    var d := Set(j, p, v).value;
    if i == 0 {
      SiblingKept(j, p[0], q[0], Set(Slot(j, p[0]), p[1..], v).value);
      if j.Null? {
        NullWalk(q);
        NullWalk(q[1..]);
      }
    } else {
      assert p[0] == p[..i][0] == q[..i][0] == q[0];
      assert PartAt(p[1..], q[1..], i - 1) by {
        assert p[1..][..i - 1] == p[..i][1..] && q[1..][..i - 1] == q[..i][1..];
      }
      assert Plain(p[1..]);
      SlotIsChild(j, p[0]);
      OthersKept(Slot(j, p[0]), p[1..], q[1..], i - 1, v);
    }
  }

  /** After a write through one step, a different step of the same kind leads where it led. */
  lemma SiblingKept(j: Json, s: PathStep, t: PathStep, v: Json)
    requires Opened(j, s).Some? && s != t && ((s.Field? && t.Field?) || (s.Index? && t.Index?)) && Child(j, t).Some?
    ensures Child(Filled(j, s, v), t) == Child(j, t)
  {
  }

  lemma SlotIsChild(j: Json, s: PathStep)
    requires Opened(j, s).Some? && !s.Wildcard? && Child(j, s).Some?
    ensures Slot(j, s) == Child(j, s).value
  {
  }

  // ------------------------------------------------------------------ exactly what a write disturbs

  /**
   * How a written path and a read path meet in a document: they part at steps of one kind, or the write goes on
   * inside the value that is read, or the read goes on inside the value that is replaced. A `[0]` of the read
   * path where the write names a field is no step at all: what is no array is its own `[0]`.
   */
  datatype Meeting = Apart | Inside(value: Json, rest: seq<PathStep>) | Over(value: Json, rest: seq<PathStep>)

  function Meet(j: Json, p: seq<PathStep>, q: seq<PathStep>): Meeting
    requires Walk(j, q).Some?
    decreases |q|
  {
    if q == [] then Inside(j, p)
    else if p == [] then Over(j, q)
    else if p[0] == q[0] then Meet(Child(j, q[0]).value, p[1..], q[1..])
    else if p[0].Field? && q[0].Index? && !j.Arr? then Meet(j, p, q[1..])
    else Apart
  }

  /** The write changes nothing where the paths meet. */
  predicate Undisturbed(m: Meeting, v: Json) {
    match m
    case Apart => true
    case Inside(value, rest) => Set(value, rest, v) == Some(value)
    case Over(value, rest) => Walk(v, rest) == Walk(value, rest)
  }

  lemma {:induction false} PlainKeptIff(j: Json, p: seq<PathStep>, q: seq<PathStep>, v: Json)
    requires Plain(p) && Set(j, p, v).Some? && Walk(j, q).Some?
    ensures Walk(Set(j, p, v).value, q) == Walk(j, q) <==> Undisturbed(Meet(j, p, q), v)
    decreases |q|
  {
    var d := Set(j, p, v).value;
    if q != [] && p != [] {
      var s, t := p[0], q[0];
      assert Plain(p[1..]);
      if s == t {
        SlotIsChild(j, s);
        FilledChild(j, s, Set(Slot(j, s), p[1..], v).value);
        PlainKeptIff(Slot(j, s), p[1..], q[1..], v);
      } else if s.Field? && t.Index? {
        PlainKeptIff(j, p, q[1..], v);
      } else {
        SiblingKept(j, s, t, Set(Slot(j, s), p[1..], v).value);
        if j.Null? {
          NullWalk(q[1..]);
        }
      }
    }
  }

  lemma FilledChild(j: Json, s: PathStep, v: Json)
    requires Opened(j, s).Some? && !s.Wildcard?
    ensures Child(Filled(j, s, v), s) == Some(v)
  {
  }

  /** The path a write takes: wildcards are fields called `*`. */
  function AsWritten(p: seq<PathStep>): seq<PathStep> {
    seq(|p|, i requires 0 <= i < |p| => if p[i].Wildcard? then Field("*") else p[i])
  }

  lemma {:induction false} WrittenAlike(j: Json, p: seq<PathStep>, v: Json)
    ensures Plain(AsWritten(p)) && Set(j, AsWritten(p), v) == Set(j, p, v)
    decreases |p|
  {
    hide Pad;
    if p != [] {
      assert AsWritten(p)[1..] == AsWritten(p[1..]);
      if Opened(j, p[0]).Some? {
        WrittenAlike(Slot(j, p[0]), p[1..], v);
      }
    }
  }

  /** A write keeps the value of a resolving path exactly when the paths part, or it changes nothing where they meet. */
  lemma KeptIff(j: Json, p: seq<PathStep>, q: seq<PathStep>, v: Json)
    requires Set(j, p, v).Some? && Walk(j, q).Some?
    ensures Walk(Set(j, p, v).value, q) == Walk(j, q) <==> Undisturbed(Meet(j, AsWritten(p), q), v)
  {
    WrittenAlike(j, p, v);
    PlainKeptIff(j, AsWritten(p), q, v);
  }

  /** An input where they meet: null is its own `[0]`, until a field is written into it. */
  lemma OtherKindsMayClash()
    ensures Meet(Null, [Field("a")], [Index(0)]) == Inside(Null, [Field("a")])
    ensures Walk(Set(Null, [Field("a")], Num(1)).value, [Index(0)]) != Walk(Null, [Index(0)])
  {
    assert [Field("a")][1..] == [] && [Index(0)][1..] == [];
    assert Set(Null, [], Num(1)) == Some(Num(1));
    assert AsWritten([Field("a")]) == [Field("a")];
    KeptIff(Null, [Field("a")], [Index(0)], Num(1));
  }

  // ------------------------------------------------------------------ what a write meets

  /** On the way to step `i` a lookup finds a value that is neither null nor of the kind this step needs. */
  predicate Blocked(j: Json, p: seq<PathStep>, i: nat) {
    && i < |p|
    && var x := Walk(j, AsWritten(p)[..i]);
       x.Some? && x.value != Null && if p[i].Index? then !x.value.Arr? else !x.value.Obj?
  }

  lemma BlockedInside(j: Json, p: seq<PathStep>, i: nat)
    requires p != [] && Opened(j, p[0]).Some?
    ensures Blocked(j, p, i) ==> i > 0 && Blocked(Slot(j, p[0]), p[1..], i - 1)
    ensures Child(j, AsWritten(p)[0]).Some? && i > 0 && Blocked(Slot(j, p[0]), p[1..], i - 1) ==> Blocked(j, p, i)
  {
    var q := AsWritten(p);
    if 0 < i < |p| {
      assert q[..i][0] == q[0] && q[..i][1..] == AsWritten(p[1..])[..i - 1];
    }
  }

  lemma {:induction false} NullIsNeverBlocked(p: seq<PathStep>, v: Json)
    ensures Set(Null, p, v).Some?
  {
    if p != [] {
      NullOpens(p[0]);
      NullIsNeverBlocked(p[1..], v);
    }
  }

  /** A write is refused exactly when one of the values on its way, as they are before it, is of the wrong kind. */
  lemma {:induction false} SetRefusedIff(j: Json, p: seq<PathStep>, v: Json)
    ensures Set(j, p, v).None? <==> exists i: nat :: Blocked(j, p, i)
    decreases |p|
  {
    if p != [] && Opened(j, p[0]).Some? {
      var slot, rest := Slot(j, p[0]), p[1..];
      forall i: nat | Blocked(j, p, i)
        ensures exists k: nat :: Blocked(slot, rest, k)
      {
        BlockedInside(j, p, i);
        assert Blocked(slot, rest, i - 1);
      }
      SetRefusedIff(slot, rest, v);
      if Child(j, AsWritten(p)[0]).None? {
        NullIsNeverBlocked(rest, v);
      } else if k: nat :| Blocked(slot, rest, k) {
        BlockedInside(j, p, k + 1);
      }
    } else if p != [] {
      assert AsWritten(p)[..0] == [];
      assert Blocked(j, p, 0);
    }
  }

  /** A write into an array reaches its element and no other; an array that is too short grows by nulls. */
  lemma ArrayGrows(j: Json, at: nat, rest: seq<PathStep>, v: Json)
    requires j.Arr? && Set(j, [Index(at)] + rest, v).Some?
    ensures var t := Set(j, [Index(at)] + rest, v).value;
            && t.Arr? && |t.items| == (if at < |j.items| then |j.items| else at + 1)
            && Set(if at < |j.items| then j.items[at] else Null, rest, v) == Some(t.items[at])
            && (forall i :: 0 <= i < |j.items| && i != at ==> t.items[i] == j.items[i])
            && (forall i :: |j.items| <= i < at ==> t.items[i] == Null)
  {
    assert ([Index(at)] + rest)[1..] == rest;
  }

  /** A write over null makes the container its first step needs, with that element alone. */
  lemma NullGrows(s: PathStep, rest: seq<PathStep>, v: Json)
    ensures Set(Null, [s] + rest, v).Some? && Set(Null, rest, v).Some?
    ensures var t := Set(Null, [s] + rest, v).value;
            if s.Index? then
              && t.Arr? && |t.items| == s.at + 1 && Set(Null, rest, v) == Some(t.items[s.at])
              && forall i :: 0 <= i < s.at ==> t.items[i] == Null
            else
              t == Obj(map[(if s.Field? then s.name else "*") := Set(Null, rest, v).value])
  {
    NullIsNeverBlocked(rest, v);
    NullIsNeverBlocked([s] + rest, v);
    assert ([s] + rest)[1..] == rest;
  }
}
