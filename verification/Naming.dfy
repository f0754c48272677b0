// Generated ids never clash: the id of a child holds its parent's id, its slot and its position, and each of
// them can be read back. A program without ids of its own is accepted exactly when its parts are well shaped.

module Naming {
  import opened Json
  import opened Blueprint
  import opened Structured
  import opened Refinement
  import opened Parser
  import opened Text

  // ------------------------------------------------------------------ reading an id back

  /** The text up to the first `stop`. */
  function Until(stop: char, text: string): string {
    if text == "" || text[0] == stop then "" else [text[0]] + Until(stop, text[1..])
  }

  lemma {:induction false} UntilStops(stop: char, first: string, rest: string)
    requires stop !in first && (rest == "" || rest[0] == stop)
    ensures Until(stop, first + rest) == first
  {
    if first == "" {
      assert first + rest == rest;
    } else {
      UntilStops(stop, first[1..], rest);
      assert (first + rest)[1..] == first[1..] + rest;
    }
  }

  lemma {:induction false} DecimalInjective(m: nat, n: nat)
    requires Decimal(m) == Decimal(n)
    ensures m == n
  {
    if m >= 10 && n >= 10 {
      var a, b := Decimal(m / 10), Decimal(n / 10);
      assert (a + [Digit(m % 10)])[..|a|] == a && (b + [Digit(n % 10)])[..|b|] == b;
      assert Decimal(m)[|a|] == Digit(m % 10) && Decimal(n)[|b|] == Digit(n % 10);
      DecimalInjective(m / 10, n / 10);
    }
  }

  /** The names of body slots; none holds a dot or an underscore. */
  const Slots: set<string> := {"then", "else", "body", "try", "catch", "finally"}

  function Segment(slot: string, k: nat): string {
    slot + "_" + Decimal(k)
  }

  lemma DecimalIsPlain(k: nat)
    ensures '.' !in Decimal(k) && '_' !in Decimal(k)
  {
  }

  lemma SlotIsPlain(slot: string)
    requires slot in Slots
    ensures '.' !in slot && '_' !in slot
  {
  }

  lemma UnderscoreSplits(a: string, x: string, b: string, y: string)
    requires '_' !in a && '_' !in b && a + "_" + x == b + "_" + y
    ensures a == b && x == y
  {
    assert a + "_" + x == a + ("_" + x) && b + "_" + y == b + ("_" + y);
    UntilStops('_', a, "_" + x);
    UntilStops('_', b, "_" + y);
    assert (a + "_" + x)[|a| + 1..] == x && (b + "_" + y)[|b| + 1..] == y;
  }

  lemma SegmentInjective(a: string, i: nat, b: string, j: nat)
    requires a in Slots && b in Slots && Segment(a, i) == Segment(b, j)
    ensures a == b && i == j
  {
    SlotIsPlain(a);
    SlotIsPlain(b);
    hide Decimal;
    UnderscoreSplits(a, Decimal(i), b, Decimal(j));
    DecimalInjective(i, j);
  }

  lemma SegmentIsPlain(slot: string, k: nat)
    requires slot in Slots
    ensures '.' !in Segment(slot, k)
  {
    DecimalIsPlain(k);
    SlotIsPlain(slot);
    assert forall c :: c in Segment(slot, k) ==> c in slot || c == '_' || c in Decimal(k);
  }

  /** The id is `base`, or one generated beneath it. */
  predicate Under(id: Id, base: Id) {
    |base| <= |id| && id[..|base|] == base && (|id| > |base| ==> id[|base|] == '.')
  }

  /** The part of an id between the dot behind its parent and the next one. */
  lemma ChildSegment(id: Id, parent: Id, slot: string, k: nat)
    requires slot in Slots && Under(id, AutoId(parent, slot, k))
    ensures |id| > |parent| && id[..|parent|] == parent && id[|parent|] == '.'
    ensures Until('.', id[|parent| + 1..]) == Segment(slot, k)
  {
    var base := AutoId(parent, slot, k);
    assert base == parent + ("." + Segment(slot, k));
    assert id == base + id[|base|..];
    assert id[|parent| + 1..] == Segment(slot, k) + id[|base|..];
    SegmentIsPlain(slot, k);
    UntilStops('.', Segment(slot, k), id[|base|..]);
  }

  /** Children of one parent have no id in common with each other's descendants. */
  lemma ChildrenApart(id: Id, parent: Id, a: string, i: nat, b: string, j: nat)
    requires a in Slots && b in Slots && Under(id, AutoId(parent, a, i)) && Under(id, AutoId(parent, b, j))
    ensures a == b && i == j
  {
    ChildSegment(id, parent, a, i);
    ChildSegment(id, parent, b, j);
    SegmentInjective(a, i, b, j);
  }

  lemma TopsApart(id: Id, i: nat, j: nat)
    requires Under(id, TopId(i)) && Under(id, TopId(j))
    ensures i == j
  {
    TopSegment(id, i);
    TopSegment(id, j);
    assert TopId(i)[5..] == Decimal(i) && TopId(j)[5..] == Decimal(j);
    DecimalInjective(i, j);
  }

  lemma TopSegment(id: Id, i: nat)
    requires Under(id, TopId(i))
    ensures Until('.', id) == TopId(i)
  {
    DecimalIsPlain(i);
    assert id == TopId(i) + id[|TopId(i)|..];
    UntilStops('.', TopId(i), id[|TopId(i)|..]);
  }

  // ------------------------------------------------------------------ programs without ids

  /** Neither the statement nor anything in it has an id of its own. */
  ghost predicate Nameless(s: Stmt)
    decreases s, 1
  {
    s.id == "" &&
    match s
    case Task(_, _, _) => true
    case If(_, _, thenPart, elsePart) => AllNameless(thenPart) && AllNameless(elsePart)
    case Repeat(_, _, _, _, _, _, body) => AllNameless(body)
    case Guarded(_, _, _, body, handler, cleanup) => AllNameless(body) && AllNameless(handler) && AllNameless(cleanup)
  }

  ghost predicate AllNameless(ss: seq<Stmt>)
    decreases ss, 0
  {
    forall i :: 0 <= i < |ss| ==> Nameless(ss[i])
  }

  /** Every id is that of one of the first `n` children of this body, or generated beneath it. */
  ghost predicate InBody(ns: seq<Node>, parent: Id, slot: string, n: nat) {
    forall x :: 0 <= x < |ns| ==> Within(ns[x].id, parent, slot, n)
  }

  ghost predicate Within(id: Id, parent: Id, slot: string, n: nat) {
    exists i: nat :: i < n && Under(id, AutoId(parent, slot, i))
  }

  /** Every id is generated beneath `base`. */
  ghost predicate Beneath(ns: seq<Node>, base: Id) {
    forall x :: 0 <= x < |ns| ==> Under(ns[x].id, base) && ns[x].id != base
  }

  ghost predicate Apart(a: seq<Node>, b: seq<Node>) {
    forall i, j :: 0 <= i < |a| && 0 <= j < |b| ==> a[i].id != b[j].id
  }

  lemma UniqueTogether(a: seq<Node>, b: seq<Node>)
    requires UniqueIds(a) && UniqueIds(b) && Apart(a, b)
    ensures UniqueIds(a + b)
  {
  }

  lemma SlotsApart(a: seq<Node>, b: seq<Node>, parent: Id, s: string, n: nat, t: string, m: nat)
    requires s in Slots && t in Slots && s != t && InBody(a, parent, s, n) && InBody(b, parent, t, m)
    ensures Apart(a, b)
  {
    forall i, j | 0 <= i < |a| && 0 <= j < |b|
      ensures a[i].id != b[j].id
    {
      assert Within(a[i].id, parent, s, n) && Within(b[j].id, parent, t, m);
      var k: nat :| k < n && Under(a[i].id, AutoId(parent, s, k));
      var l: nat :| l < m && Under(b[j].id, AutoId(parent, t, l));
      if a[i].id == b[j].id {
        ChildrenApart(a[i].id, parent, s, k, t, l);
      }
    }
  }

  lemma BodyBeneath(ns: seq<Node>, parent: Id, slot: string, n: nat)
    requires slot in Slots && InBody(ns, parent, slot, n)
    ensures Beneath(ns, parent)
  {
    forall x | 0 <= x < |ns|
      ensures Under(ns[x].id, parent) && ns[x].id != parent
    {
      assert Within(ns[x].id, parent, slot, n);
      var i: nat :| i < n && Under(ns[x].id, AutoId(parent, slot, i));
      ChildSegment(ns[x].id, parent, slot, i);
    }
  }

  lemma BeneathJoins(a: seq<Node>, b: seq<Node>, base: Id)
    requires Beneath(a, base) && Beneath(b, base)
    ensures Beneath(a + b, base)
  {
  }

  lemma {:induction false} DescendantsApart(s: Stmt, auto: Id)
    requires Nameless(s)
    ensures UniqueIds(Descendants(Named(s, auto))) && Beneath(Descendants(Named(s, auto)), auto)
    decreases s, 1, 0
  {
    hide Hoisted, Under, UniqueIds, Beneath, InBody, Apart, AllNameless;
    match s
    case Task(_, _, _) =>
      NothingClashes(auto);
    case If(_, _, thenPart, elsePart) =>
      BodyApart(thenPart, auto, "then", |thenPart|);
      BodyApart(elsePart, auto, "else", |elsePart|);
      TwoBodies(Hoisted(NamedBlock(thenPart, auto, "then"), |thenPart|), |thenPart|,
                Hoisted(NamedBlock(elsePart, auto, "else"), |elsePart|), |elsePart|, auto, "then", "else");
    case Repeat(_, _, _, _, _, _, body) =>
      BodyApart(body, auto, "body", |body|);
      BodyBeneath(Hoisted(NamedBlock(body, auto, "body"), |body|), auto, "body", |body|);
    case Guarded(_, _, _, body, handler, cleanup) =>
      var a := Hoisted(NamedBlock(body, auto, "try"), |body|);
      var b := Hoisted(NamedBlock(handler, auto, "catch"), |handler|);
      var c := Hoisted(NamedBlock(cleanup, auto, "finally"), |cleanup|);
      BodyApart(body, auto, "try", |body|);
      BodyApart(handler, auto, "catch", |handler|);
      BodyApart(cleanup, auto, "finally", |cleanup|);
      TwoBodies(a, |body|, b, |handler|, auto, "try", "catch");
      TwoBodies(a, |body|, c, |cleanup|, auto, "try", "finally");
      TwoBodies(b, |handler|, c, |cleanup|, auto, "catch", "finally");
      ThirdBody(a, b, c, auto);
  }

  lemma NothingClashes(base: Id)
    ensures UniqueIds([]) && Beneath([], base)
  {
  }

  lemma TwoBodies(a: seq<Node>, n: nat, b: seq<Node>, m: nat, parent: Id, s: string, t: string)
    requires s in Slots && t in Slots && s != t && UniqueIds(a) && UniqueIds(b)
    requires InBody(a, parent, s, n) && InBody(b, parent, t, m)
    ensures UniqueIds(a + b) && Beneath(a + b, parent) && Apart(a, b) && Beneath(b, parent)
  {
    hide InBody, UniqueIds, Beneath, Apart;
    SlotsApart(a, b, parent, s, n, t, m);
    UniqueTogether(a, b);
    BodyBeneath(a, parent, s, n);
    BodyBeneath(b, parent, t, m);
    BeneathJoins(a, b, parent);
  }

  lemma ThirdBody(a: seq<Node>, b: seq<Node>, c: seq<Node>, parent: Id)
    requires UniqueIds(a + b) && UniqueIds(c) && Apart(a, c) && Apart(b, c)
    requires Beneath(a + b, parent) && Beneath(c, parent)
    ensures UniqueIds(a + b + c) && Beneath(a + b + c, parent)
  {
    assert Apart(a + b, c);
    hide Apart;
    UniqueTogether(a + b, c);
    BeneathJoins(a + b, c, parent);
  }

  lemma {:induction false} BodyApart(ss: seq<Stmt>, parent: Id, slot: string, n: nat)
    requires n <= |ss| && slot in Slots && AllNameless(ss)
    ensures UniqueIds(Hoisted(NamedBlock(ss, parent, slot), n))
    ensures InBody(Hoisted(NamedBlock(ss, parent, slot), n), parent, slot, n)
    decreases ss, 0, n
  {
    hide Descendants, Under, AutoId, Named, NodeOf, Nameless;
    if n > 0 {
      var named := NamedBlock(ss, parent, slot);
      var auto := AutoId(parent, slot, n - 1);
      BodyApart(ss, parent, slot, n - 1);
      DescendantsApart(ss[n - 1], auto);
      NamedIsAuto(ss[n - 1], auto);
      assert named[n - 1] == Named(ss[n - 1], auto);
      NextChild(Hoisted(named, n - 1), Descendants(named[n - 1]), NodeOf(named[n - 1], None), parent, slot, n - 1);
      hide UniqueIds, InBody, Beneath;
    }
  }

  lemma NamedIsAuto(s: Stmt, auto: Id)
    requires Nameless(s)
    ensures Named(s, auto).id == auto && NodeOf(Named(s, auto), None).id == auto
  {
  }

  lemma NextChild(before: seq<Node>, inner: seq<Node>, child: Node, parent: Id, slot: string, k: nat)
    requires slot in Slots && UniqueIds(before) && InBody(before, parent, slot, k) && UniqueIds(inner)
    requires child.id == AutoId(parent, slot, k) && Beneath(inner, child.id)
    ensures UniqueIds(before + inner + [child]) && InBody(before + inner + [child], parent, slot, k + 1)
  {
    var own := inner + [child];
    assert UniqueIds([child]) && Apart(inner, [child]);
    UniqueTogether(inner, [child]);
    forall i, j | 0 <= i < |before| && 0 <= j < |own|
      ensures before[i].id != own[j].id
    {
      assert Within(before[i].id, parent, slot, k);
      var l: nat :| l < k && Under(before[i].id, AutoId(parent, slot, l));
      assert Under(own[j].id, AutoId(parent, slot, k));
      if before[i].id == own[j].id {
        ChildrenApart(before[i].id, parent, slot, l, slot, k);
      }
    }
    hide Under, AutoId;
    UniqueTogether(before, own);
    assert before + inner + [child] == before + own;
    NextInBody(before, own, parent, slot, k);
  }

  lemma NextInBody(before: seq<Node>, own: seq<Node>, parent: Id, slot: string, k: nat)
    requires InBody(before, parent, slot, k)
    requires forall j :: 0 <= j < |own| ==> Under(own[j].id, AutoId(parent, slot, k))
    ensures InBody(before + own, parent, slot, k + 1)
  {
    hide Under, AutoId;
    var all := before + own;
    forall x | 0 <= x < |all|
      ensures Within(all[x].id, parent, slot, k + 1)
    {
      if x < |before| {
        assert Within(before[x].id, parent, slot, k) && all[x] == before[x];
      } else {
        assert Under(own[x - |before|].id, AutoId(parent, slot, k)) && all[x] == own[x - |before|];
      }
    }
  }

  /** Every id is one of the first `n` top-level ids, or generated beneath it. */
  ghost predicate InProgram(ns: seq<Node>, n: nat) {
    forall x :: 0 <= x < |ns| ==> exists i: nat :: i < n && Under(ns[x].id, TopId(i)) && ns[x].id != TopId(i)
  }

  lemma {:induction false} HoistedApart(p: seq<Stmt>, n: nat)
    requires n <= |p| && AllNameless(p)
    ensures UniqueIds(TopHoisted(NamedProgram(p), n)) && InProgram(TopHoisted(NamedProgram(p), n), n)
    decreases n
  {
    hide Descendants, Under, TopId, Named;
    if n > 0 {
      var q := NamedProgram(p);
      HoistedApart(p, n - 1);
      DescendantsApart(p[n - 1], TopId(n - 1));
      assert q[n - 1] == Named(p[n - 1], TopId(n - 1));
      NextTop(TopHoisted(q, n - 1), Descendants(q[n - 1]), n - 1);
      hide UniqueIds, InProgram, Beneath;
    }
  }

  lemma NextTop(before: seq<Node>, inner: seq<Node>, k: nat)
    requires UniqueIds(before) && InProgram(before, k) && UniqueIds(inner) && Beneath(inner, TopId(k))
    ensures UniqueIds(before + inner) && InProgram(before + inner, k + 1)
  {
    forall i, j | 0 <= i < |before| && 0 <= j < |inner|
      ensures before[i].id != inner[j].id
    {
      var l: nat :| l < k && Under(before[i].id, TopId(l)) && before[i].id != TopId(l);
      if before[i].id == inner[j].id {
        TopsApart(before[i].id, l, k);
      }
    }
    hide Under, TopId;
    UniqueTogether(before, inner);
    var all := before + inner;
    forall x | 0 <= x < |all|
      ensures exists i: nat :: i < k + 1 && Under(all[x].id, TopId(i)) && all[x].id != TopId(i)
    {
      if x < |before| {
        var i: nat :| i < k && Under(before[x].id, TopId(i)) && before[x].id != TopId(i);
        assert i < k + 1 && Under(all[x].id, TopId(i)) && all[x].id != TopId(i);
      } else {
        assert Under(all[x].id, TopId(k)) && all[x].id != TopId(k);
      }
    }
  }

  lemma UnderItself(i: nat)
    ensures Under(TopId(i), TopId(i))
  {
  }

  lemma TopNodeIds(p: seq<Stmt>)
    requires AllNameless(p)
    ensures forall i :: 0 <= i < |p| ==> TopNodes(NamedProgram(p))[i].id == TopId(i)
  {
  }

  /** In a program without ids of its own, all generated ids are different. */
  lemma GeneratedIdsApart(p: seq<Stmt>)
    requires AllNameless(p)
    ensures UniqueIds(Flat(NamedProgram(p)))
  {
    var q := NamedProgram(p);
    HoistedApart(p, |p|);
    TopNodeIds(p);
    hide TopNodes, TopHoisted, Under, TopId, AllNameless, NamedProgram;
    var tops, rest := TopNodes(q), TopHoisted(q, |q|);
    forall i, j | 0 <= i < j < |tops|
      ensures tops[i].id != tops[j].id
    {
      UnderItself(i);
      UnderItself(j);
      if tops[i].id == tops[j].id {
        TopsApart(tops[i].id, i, j);
      }
    }
    forall i, j | 0 <= i < |tops| && 0 <= j < |rest|
      ensures tops[i].id != rest[j].id
    {
      var k: nat :| k < |p| && Under(rest[j].id, TopId(k)) && rest[j].id != TopId(k);
      UnderItself(i);
      if tops[i].id == rest[j].id {
        TopsApart(tops[i].id, i, k);
      }
    }
    UniqueTogether(tops, rest);
  }

  // ------------------------------------------------------------------ acceptance

  /**
   * Every condition has something to do if it holds, every loop a body, a limit of at least one and one of three
   * modes for items that fail, and every try a body and a catch or a cleanup.
   */
  ghost predicate Formed(s: Stmt)
    decreases s, 1
  {
    match s
    case Task(_, _, _) => true
    case If(_, _, thenPart, elsePart) => |thenPart| > 0 && AllFormed(thenPart) && AllFormed(elsePart)
    case Repeat(_, _, limit, onItemError, _, _, body) =>
      |body| > 0 && limit > 0 && onItemError in {"fail", "continue", "retry"} && AllFormed(body)
    case Guarded(_, _, _, body, handler, cleanup) =>
      |body| > 0 && |handler| + |cleanup| > 0 && AllFormed(body) && AllFormed(handler) && AllFormed(cleanup)
  }

  ghost predicate AllFormed(ss: seq<Stmt>)
    decreases ss, 0
  {
    forall i :: 0 <= i < |ss| ==> Formed(ss[i])
  }

  lemma {:induction false} NamingKeepsForm(s: Stmt, auto: Id)
    requires auto != ""
    ensures Sound(Named(s, auto)) <==> Formed(s)
    decreases s, 1
  {
    hide AutoId;
    var id := if s.id == "" then auto else s.id;
    match s
    case Task(_, _, _) =>
    case If(_, _, thenPart, elsePart) =>
      BlockKeepsForm(thenPart, id, "then");
      BlockKeepsForm(elsePart, id, "else");
    case Repeat(_, _, _, _, _, _, body) =>
      BlockKeepsForm(body, id, "body");
    case Guarded(_, _, _, body, handler, cleanup) =>
      BlockKeepsForm(body, id, "try");
      BlockKeepsForm(handler, id, "catch");
      BlockKeepsForm(cleanup, id, "finally");
      hide NamedBlock, SoundBlock, AllFormed;
  }

  lemma {:induction false} BlockKeepsForm(ss: seq<Stmt>, parent: Id, slot: string)
    ensures SoundBlock(NamedBlock(ss, parent, slot)) <==> AllFormed(ss)
    decreases ss, 0
  {
    hide AutoId, Named, Sound, Formed;
    var named := NamedBlock(ss, parent, slot);
    forall i | 0 <= i < |ss|
      ensures Sound(named[i]) <==> Formed(ss[i])
    {
      NamingKeepsForm(ss[i], AutoId(parent, slot, i));
    }
  }

  lemma ProgramKeepsForm(p: seq<Stmt>)
    ensures SoundBlock(NamedProgram(p)) <==> AllFormed(p)
  {
    hide TopId, Named, Sound, Formed;
    var q := NamedProgram(p);
    forall i | 0 <= i < |p|
      ensures Sound(q[i]) <==> Formed(p[i])
    {
      NamingKeepsForm(p[i], TopId(i));
    }
  }

  /** A program without ids of its own is accepted exactly when it is neither empty nor too long, and well formed. */
  lemma NamelessAccepted(p: seq<Stmt>, maxNodes: nat)
    requires AllNameless(p)
    ensures Accepted(p, maxNodes) <==> 0 < |p| <= maxNodes && AllFormed(p)
  {
    GeneratedIdsApart(p);
    ProgramKeepsForm(p);
    hide SoundBlock, AllFormed, UniqueIds, Flat, NamedProgram;
  }
}
