// Structured programs whose nested loops name their variables apart obey the naming discipline, so a
// session of such a program can be suspended and resumed anywhere.

module Scoping {
  import opened Json
  import opened Blueprint
  import opened Machine
  import opened MainLoop
  import opened Structured
  import opened Refinement
  import opened Parser
  import opened Checkpoint
  import opened Bindings
  import opened Resume
  import opened Locals
  import opened Nesting

  /** What may be read and what is taken at a node, and what the guard of a loop may read. */
  datatype Span = Span(id: Id, scope: set<string>, taken: set<string>, guard: set<string>)

  /** Which loops have no item source. */
  type Guards = Id -> bool

  function InnerReads(s: Stmt, g: Guards, scope: set<string>): set<string> {
    if s.Repeat? then scope + PassNames(g(s.id), s.itemVar, s.indexVar) else scope
  }

  function InnerTaken(s: Stmt, taken: set<string>): set<string> {
    if s.Repeat? then taken + LoopNames(s.itemVar, s.indexVar) else taken
  }

  function SpanOf(s: Stmt, g: Guards, scope: set<string>, taken: set<string>): Span {
    Span(s.id, scope, taken, InnerReads(s, g, scope))
  }

  /** Nested loops name their variables apart from each other, from the reserved names and from caught errors. */
  ghost predicate NamedApart(s: Stmt, taken: set<string>)
    decreases s, 1
  {
    match s
    case Task(_, _, _) => true
    case If(_, _, thenPart, elsePart) => BlockApart(thenPart, taken) && BlockApart(elsePart, taken)
    case Repeat(_, _, _, _, itemVar, indexVar, body) =>
      && LoopNames(itemVar, indexVar) !! (taken + Reserved) && (itemVar == indexVar ==> itemVar == "")
      && BlockApart(body, taken + LoopNames(itemVar, indexVar))
    case Guarded(_, _, errorVar, body, handler, cleanup) =>
      errorVar !in taken && BlockApart(body, taken) && BlockApart(handler, taken) && BlockApart(cleanup, taken)
  }

  ghost predicate BlockApart(ss: seq<Stmt>, taken: set<string>)
    decreases ss, 0
  {
    forall i :: 0 <= i < |ss| ==> NamedApart(ss[i], taken)
  }

  // ------------------------------------------------------------------ the spans, in the order of the nodes

  function InnerSpans(s: Stmt, g: Guards, scope: set<string>, taken: set<string>): seq<Span>
    decreases s, 1, 0
  {
    var r, t := InnerReads(s, g, scope), InnerTaken(s, taken);
    match s
    case Task(_, _, _) => []
    case If(_, _, thenPart, elsePart) =>
      BlockSpans(thenPart, |thenPart|, g, r, t) + BlockSpans(elsePart, |elsePart|, g, r, t)
    case Repeat(_, _, _, _, _, _, body) => BlockSpans(body, |body|, g, r, t)
    case Guarded(_, _, _, body, handler, cleanup) =>
      BlockSpans(body, |body|, g, r, t) + BlockSpans(handler, |handler|, g, r, t)
      + BlockSpans(cleanup, |cleanup|, g, r, t)
  }

  function BlockSpans(ss: seq<Stmt>, n: nat, g: Guards, scope: set<string>, taken: set<string>): seq<Span>
    requires n <= |ss|
    decreases ss, 0, n
  {
    if n == 0 then []
    else BlockSpans(ss, n - 1, g, scope, taken) + InnerSpans(ss[n - 1], g, scope, taken)
         + [SpanOf(ss[n - 1], g, scope, taken)]
  }

  function TopInnerSpans(p: seq<Stmt>, n: nat, g: Guards): seq<Span>
    requires n <= |p|
  {
    if n == 0 then [] else TopInnerSpans(p, n - 1, g) + InnerSpans(p[n - 1], g, {}, {})
  }

  function ProgramSpans(p: seq<Stmt>, g: Guards): seq<Span> {
    seq(|p|, i requires 0 <= i < |p| => SpanOf(p[i], g, {}, {})) + TopInnerSpans(p, |p|, g)
  }

  function Find(spans: seq<Span>, id: Id): Span {
    if spans == [] then Span(id, {}, {}, {})
    else if spans[0].id == id then spans[0]
    else Find(spans[1..], id)
  }

  /** The discipline a program stands for: each node reads what the loops around it bind. */
  function ScopesOf(p: seq<Stmt>, g: Guards, locals: set<string>): Scopes {
    Scopes(id => Find(ProgramSpans(p, g), id).scope, id => Find(ProgramSpans(p, g), id).guard,
           id => Find(ProgramSpans(p, g), id).taken, g, locals)
  }

  predicate Says(a: Scopes, x: Span) {
    a.needs(x.id) == x.scope && a.outer(x.id) == x.taken && a.guardNeeds(x.id) == x.guard
  }

  ghost predicate SaysAll(a: Scopes, spans: seq<Span>) {
    forall k :: 0 <= k < |spans| ==> Says(a, spans[k])
  }

  lemma SaysFirst(a: Scopes, spans: seq<Span>)
    requires SaysAll(a, spans) && spans != []
    ensures Says(a, spans[0])
  {
  }

  lemma SaysParts(a: Scopes, x: seq<Span>, y: seq<Span>)
    requires SaysAll(a, x + y)
    ensures SaysAll(a, x) && SaysAll(a, y)
  {
    assert forall k :: 0 <= k < |x| ==> (x + y)[k] == x[k];
    assert forall k :: 0 <= k < |y| ==> (x + y)[|x| + k] == y[k];
  }

  lemma {:induction false} FindUnique(spans: seq<Span>, k: nat)
    requires k < |spans| && forall i, j :: 0 <= i < j < |spans| ==> spans[i].id != spans[j].id
    ensures Find(spans, spans[k].id) == spans[k]
  {
    if k > 0 {
      FindUnique(spans[1..], k - 1);
    }
  }

  // ------------------------------------------------------------------ spans follow nodes

  ghost predicate SameIds(ns: seq<Node>, spans: seq<Span>) {
    |ns| == |spans| && forall k :: 0 <= k < |ns| ==> ns[k].id == spans[k].id
  }

  lemma SameIdsNone()
    ensures SameIds([], [])
  {
  }

  lemma SameIdsJoin(a: seq<Node>, x: seq<Span>, b: seq<Node>, y: seq<Span>)
    requires SameIds(a, x) && SameIds(b, y)
    ensures SameIds(a + b, x + y)
  {
  }

  lemma {:induction false} InnerIds(s: Stmt, g: Guards, scope: set<string>, taken: set<string>)
    ensures SameIds(Descendants(s), InnerSpans(s, g, scope, taken))
    decreases s, 1, 0
  {
    SameIdsNone();
    hide SameIds;
    var r, t := InnerReads(s, g, scope), InnerTaken(s, taken);
    match s
    case Task(_, _, _) =>
    case If(_, _, a, b) =>
      BlockIds(a, |a|, g, r, t);
      BlockIds(b, |b|, g, r, t);
      SameIdsJoin(Hoisted(a, |a|), BlockSpans(a, |a|, g, r, t), Hoisted(b, |b|), BlockSpans(b, |b|, g, r, t));
    case Repeat(_, _, _, _, _, _, body) => BlockIds(body, |body|, g, r, t);
    case Guarded(_, _, _, a, b, c) =>
      BlockIds(a, |a|, g, r, t);
      BlockIds(b, |b|, g, r, t);
      BlockIds(c, |c|, g, r, t);
      SameIdsJoin(Hoisted(a, |a|), BlockSpans(a, |a|, g, r, t), Hoisted(b, |b|), BlockSpans(b, |b|, g, r, t));
      SameIdsJoin(Hoisted(a, |a|) + Hoisted(b, |b|), BlockSpans(a, |a|, g, r, t) + BlockSpans(b, |b|, g, r, t),
                  Hoisted(c, |c|), BlockSpans(c, |c|, g, r, t));
  }

  lemma {:induction false} BlockIds(ss: seq<Stmt>, n: nat, g: Guards, scope: set<string>, taken: set<string>)
    requires n <= |ss|
    ensures SameIds(Hoisted(ss, n), BlockSpans(ss, n, g, scope, taken))
    decreases ss, 0, n
  {
    if n > 0 {
      var s := ss[n - 1];
      BlockIds(ss, n - 1, g, scope, taken);
      InnerIds(s, g, scope, taken);
      SameIdsJoin(Hoisted(ss, n - 1), BlockSpans(ss, n - 1, g, scope, taken), Descendants(s),
                  InnerSpans(s, g, scope, taken));
      SameIdsJoin(Hoisted(ss, n - 1) + Descendants(s),
                  BlockSpans(ss, n - 1, g, scope, taken) + InnerSpans(s, g, scope, taken),
                  [NodeOf(s, None)], [SpanOf(s, g, scope, taken)]);
    }
  }

  lemma {:induction false} TopIds(p: seq<Stmt>, n: nat, g: Guards)
    requires n <= |p|
    ensures SameIds(TopHoisted(p, n), TopInnerSpans(p, n, g))
  {
    if n > 0 {
      TopIds(p, n - 1, g);
      InnerIds(p[n - 1], g, {}, {});
      SameIdsJoin(TopHoisted(p, n - 1), TopInnerSpans(p, n - 1, g), Descendants(p[n - 1]),
                  InnerSpans(p[n - 1], g, {}, {}));
    }
  }

  /** The scopes of a program say of each node what its span says. */
  lemma ScopesSay(p: seq<Stmt>, g: Guards, locals: set<string>)
    requires UniqueIds(Flat(p))
    ensures SaysAll(ScopesOf(p, g, locals), ProgramSpans(p, g))
  {
    hide Descendants, Hoisted, InnerSpans, BlockSpans, TopHoisted, TopInnerSpans;
    TopIds(p, |p|, g);
    var spans := ProgramSpans(p, g);
    assert SameIds(Flat(p), spans);
    forall k | 0 <= k < |spans|
      ensures Says(ScopesOf(p, g, locals), spans[k])
    {
      forall i, j | 0 <= i < j < |spans|
        ensures spans[i].id != spans[j].id
      {
        assert Flat(p)[i].id != Flat(p)[j].id;
      }
      FindUnique(spans, k);
    }
  }

  // ------------------------------------------------------------------ every node is disciplined

  /** The statements of a block have the block's span. */
  lemma {:induction false} ChildSpans(a: Scopes, ss: seq<Stmt>, n: nat, g: Guards, scope: set<string>,
                                      taken: set<string>)
    requires n <= |ss| && SaysAll(a, BlockSpans(ss, n, g, scope, taken))
    ensures forall i :: 0 <= i < n ==>
              && Says(a, SpanOf(ss[i], g, scope, taken)) && SaysAll(a, InnerSpans(ss[i], g, scope, taken))
  {
    hide SaysAll, Says, SpanOf;
    if n > 0 {
      var x, y, z := BlockSpans(ss, n - 1, g, scope, taken), InnerSpans(ss[n - 1], g, scope, taken),
                     [SpanOf(ss[n - 1], g, scope, taken)];
      SaysParts(a, x + y, z);
      SaysParts(a, x, y);
      SaysFirst(a, z);
      ChildSpans(a, ss, n - 1, g, scope, taken);
    }
  }

  lemma BlockInherits(a: Scopes, ss: seq<Stmt>, g: Guards, scope: set<string>, taken: set<string>)
    requires SaysAll(a, BlockSpans(ss, |ss|, g, scope, taken))
    ensures forall b :: b in Ids(ss) ==> a.needs(b) == scope && a.outer(b) == taken
  {
    ChildSpans(a, ss, |ss|, g, scope, taken);
    hide SaysAll, BlockSpans, InnerSpans;
    forall b | b in Ids(ss)
      ensures a.needs(b) == scope && a.outer(b) == taken
    {
      var i :| 0 <= i < |ss| && Ids(ss)[i] == b;
      assert Says(a, SpanOf(ss[i], g, scope, taken));
    }
  }

  /** One node, given what the scopes say of it and of the statements in it. */
  lemma NodeDisciplined(a: Scopes, g: Guards, s: Stmt, next: Option<Id>, scope: set<string>, taken: set<string>)
    requires a.guarded == g && Says(a, SpanOf(s, g, scope, taken)) && SaysAll(a, InnerSpans(s, g, scope, taken))
    requires NamedApart(s, taken)
    requires next.Some? ==> Free(a, next.value) && taken <= a.outer(next.value)
    ensures DisciplinedNode(a, NodeOf(s, next))
  {
    hide SaysAll, BlockSpans, BlockApart;
    var r, t := InnerReads(s, g, scope), InnerTaken(s, taken);
    match s
    case Task(_, _, _) =>
    case If(_, _, x, y) =>
      SaysParts(a, BlockSpans(x, |x|, g, r, t), BlockSpans(y, |y|, g, r, t));
      BlockInherits(a, x, g, r, t);
      BlockInherits(a, y, g, r, t);
    case Repeat(_, _, _, _, _, _, body) => BlockInherits(a, body, g, r, t);
    case Guarded(_, _, _, x, y, z) =>
      SaysParts(a, BlockSpans(x, |x|, g, r, t) + BlockSpans(y, |y|, g, r, t), BlockSpans(z, |z|, g, r, t));
      SaysParts(a, BlockSpans(x, |x|, g, r, t), BlockSpans(y, |y|, g, r, t));
      BlockInherits(a, x, g, r, t);
      BlockInherits(a, y, g, r, t);
      BlockInherits(a, z, g, r, t);
  }

  ghost predicate AllDisciplined(a: Scopes, ns: seq<Node>) {
    forall n :: n in ns ==> DisciplinedNode(a, n)
  }

  lemma {:induction false} InnerDisciplined(a: Scopes, g: Guards, s: Stmt, scope: set<string>, taken: set<string>)
    requires a.guarded == g && SaysAll(a, InnerSpans(s, g, scope, taken)) && NamedApart(s, taken)
    ensures AllDisciplined(a, Descendants(s))
    decreases s, 1, 0
  {
    hide SaysAll, BlockSpans, BlockApart, DisciplinedNode, Hoisted;
    var r, t := InnerReads(s, g, scope), InnerTaken(s, taken);
    match s
    case Task(_, _, _) =>
    case If(_, _, x, y) =>
      SaysParts(a, BlockSpans(x, |x|, g, r, t), BlockSpans(y, |y|, g, r, t));
      BlockDisciplined(a, g, x, |x|, r, t);
      BlockDisciplined(a, g, y, |y|, r, t);
    case Repeat(_, _, _, _, _, _, body) => BlockDisciplined(a, g, body, |body|, r, t);
    case Guarded(_, _, _, x, y, z) =>
      SaysParts(a, BlockSpans(x, |x|, g, r, t) + BlockSpans(y, |y|, g, r, t), BlockSpans(z, |z|, g, r, t));
      SaysParts(a, BlockSpans(x, |x|, g, r, t), BlockSpans(y, |y|, g, r, t));
      BlockDisciplined(a, g, x, |x|, r, t);
      BlockDisciplined(a, g, y, |y|, r, t);
      BlockDisciplined(a, g, z, |z|, r, t);
  }

  lemma {:induction false} BlockDisciplined(a: Scopes, g: Guards, ss: seq<Stmt>, n: nat, scope: set<string>,
                                            taken: set<string>)
    requires n <= |ss| && a.guarded == g && SaysAll(a, BlockSpans(ss, n, g, scope, taken)) && BlockApart(ss, taken)
    ensures AllDisciplined(a, Hoisted(ss, n))
    decreases ss, 0, n
  {
    hide SaysAll, DisciplinedNode, InnerSpans, Descendants, NodeOf;
    if n > 0 {
      var s := ss[n - 1];
      ChildSpans(a, ss, n, g, scope, taken);
      SaysParts(a, BlockSpans(ss, n - 1, g, scope, taken) + InnerSpans(s, g, scope, taken),
                [SpanOf(s, g, scope, taken)]);
      SaysParts(a, BlockSpans(ss, n - 1, g, scope, taken), InnerSpans(s, g, scope, taken));
      BlockDisciplined(a, g, ss, n - 1, scope, taken);
      InnerDisciplined(a, g, s, scope, taken);
      NodeDisciplined(a, g, s, None, scope, taken);
    }
  }

  lemma {:induction false} TopInnerDisciplined(a: Scopes, g: Guards, p: seq<Stmt>, n: nat)
    requires n <= |p| && a.guarded == g && SaysAll(a, TopInnerSpans(p, n, g)) && BlockApart(p, {})
    ensures AllDisciplined(a, TopHoisted(p, n))
    ensures forall i :: 0 <= i < n ==> SaysAll(a, InnerSpans(p[i], g, {}, {}))
  {
    hide SaysAll, DisciplinedNode, InnerSpans, Descendants;
    if n > 0 {
      SaysParts(a, TopInnerSpans(p, n - 1, g), InnerSpans(p[n - 1], g, {}, {}));
      TopInnerDisciplined(a, g, p, n - 1);
      InnerDisciplined(a, g, p[n - 1], {}, {});
    }
  }

  lemma TopsDisciplined(a: Scopes, g: Guards, q: seq<Stmt>)
    requires a.guarded == g && BlockApart(q, {})
    requires SaysAll(a, seq(|q|, k requires 0 <= k < |q| => SpanOf(q[k], g, {}, {})))
    requires forall i :: 0 <= i < |q| ==> SaysAll(a, InnerSpans(q[i], g, {}, {}))
    ensures AllDisciplined(a, TopNodes(q))
  {
    hide DisciplinedNode, InnerSpans, SpanOf, NamedApart, Says;
    var tops := seq(|q|, i requires 0 <= i < |q| => SpanOf(q[i], g, {}, {}));
    forall i | 0 <= i < |q|
      ensures DisciplinedNode(a, TopNodes(q)[i])
    {
      hide Free;
      assert Says(a, tops[i]) && tops[i] == SpanOf(q[i], g, {}, {});
      TopIsFree(a, g, q, i);
      NodeDisciplined(a, g, q[i], TopNext(q, i), {}, {});
    }
  }

  lemma FlatDisciplined(a: Scopes, q: seq<Stmt>)
    requires q != [] && UniqueIds(Flat(q)) && AllDisciplined(a, TopNodes(q)) && AllDisciplined(a, TopHoisted(q, |q|))
    ensures Disciplined(Compile(q), a)
  {
    hide DisciplinedNode, TopHoisted, TopNodes;
    IndexHolds(Flat(q));
    forall id | id in Compile(q).index
      ensures DisciplinedNode(a, Compile(q).index[id])
    {
      var k :| 0 <= k < |Flat(q)| && Flat(q)[k].id == id;
      assert Flat(q)[k] in TopNodes(q) + TopHoisted(q, |q|);
    }
  }

  /** Programs with distinct ids, whose nested loops name their variables apart, obey the discipline they stand for. */
  lemma ProgramDisciplined(q: seq<Stmt>, g: Guards, locals: set<string>)
    requires q != [] && UniqueIds(Flat(q)) && BlockApart(q, {})
    ensures Disciplined(Compile(q), ScopesOf(q, g, locals))
  {
    var a := ScopesOf(q, g, locals);
    ScopesSay(q, g, locals);
    var tops := seq(|q|, i requires 0 <= i < |q| => SpanOf(q[i], g, {}, {}));
    assert ProgramSpans(q, g) == tops + TopInnerSpans(q, |q|, g);
    assert a.guarded == g;
    hide *;
    SaysParts(a, tops, TopInnerSpans(q, |q|, g));
    TopInnerDisciplined(a, g, q, |q|);
    TopsDisciplined(a, g, q);
    FlatDisciplined(a, q);
  }

  lemma TopIsFree(a: Scopes, g: Guards, q: seq<Stmt>, i: nat)
    requires i < |q| && SaysAll(a, seq(|q|, k requires 0 <= k < |q| => SpanOf(q[k], g, {}, {})))
    ensures TopNext(q, i).Some? ==> Free(a, TopNext(q, i).value)
  {
    var tops := seq(|q|, k requires 0 <= k < |q| => SpanOf(q[k], g, {}, {}));
    if i + 1 < |q| {
      assert Says(a, tops[i + 1]);
    }
  }

  // ------------------------------------------------------------------ suspending anywhere in a program

  /** A session about to start on a program: nothing open, control on the first statement. */
  predicate Starting(q: seq<Stmt>, s: State) {
    q != [] && s.frames == [] && s.cursor == q[0].id && !s.finished
  }

  lemma StartIsGood(q: seq<Stmt>, g: Guards, locals: set<string>, s: State)
    requires UniqueIds(Flat(q)) && Starting(q, s)
    ensures Good(ScopesOf(q, g, locals), s)
  {
    ScopesSay(q, g, locals);
    hide ScopesOf, TopInnerSpans;
    var spans := ProgramSpans(q, g);
    assert Says(ScopesOf(q, g, locals), spans[0]) && spans[0] == SpanOf(q[0], g, {}, {});
  }

  /** Every state of a run keeps the invariant. */
  lemma {:induction false} RunIsSteady(w: Workflow, a: Scopes, o: Oracle, s: State, n: nat)
    requires WellIndexed(w) && Disciplined(w, a) && WellBehaved(o, a) && Steady(a, s) && RoundsLand(w, a, o, s, n)
    ensures Steady(a, StepN(w, o, s, n))
    decreases n
  {
    hide Good, Disciplined, WellBehaved, Step, RoundLands, RoundsLand;
    if n > 0 && !s.finished {
      RoundsLandOn(w, a, o, s, n - 1);
      StepGood(w, a, o, s);
      RunIsSteady(w, a, o, Step(w, o, s), n - 1);
    }
  }

  /** The next round of the run asks to suspend, at positions a checkpoint can hold. */
  ghost predicate AsksToSuspend(w: Workflow, o: Oracle, s: State)
    requires WellIndexed(w)
  {
    Suspends(w, o, s) && forall k :: 0 <= k < |s.frames| ==> FitsInt(s.frames[k])
  }

  /** Names the session has no local for at the start, and the program never binds. */
  ghost predicate Unbound(w: Workflow, start: State, names: set<string>) {
    forall x :: x in names ==> NeverBound(w, x) && Quiet(x, start)
  }

  /**
   * Along any run that starts steady, be it at the entry or where an earlier suspension woke up, a session may be
   * suspended and resumed without a trace if the frames bring back the locals tasks may read; and they do if
   * the run neither started with those locals nor ever binds them.
   */
  lemma RunResumes(w: Workflow, u: Writer, a: Scopes, o: Oracle, start: State, n: nat, answer: Answer)
    requires WellIndexed(w) && HandlersExist(w) && Setting(w, a, o) && WellBehaved(o, a) && Steady(a, start)
    requires AsksToSuspend(w, o, StepN(w, o, start, n)) && RoundsLand(w, a, o, start, n + 1)
    ensures var h := Step(w, o, StepN(w, o, start, n));
            && h.ending.suspend.Some? && Steady(a, Reopened(w, u, h, answer))
            && (Restored(a, h, answer) && RunLands(w, a, o, Reopened(w, u, h, answer)) ==>
                  Invisible(w, u, a, o, h, answer))
            && (Unbound(w, start, a.locals) ==> Restored(a, h, answer))
  {
    hide *;
    SettingDisciplined(w, a, o);
    LastLands(w, a, o, start, n);
    RunIsSteady(w, a, o, start, n);
    var s := StepN(w, o, start, n);
    SteadySuspends(w, a, o, s);
    ResumeIsInvisible(w, u, a, o, s, answer);
    WakesSteady(w, u, a, Step(w, o, s), answer);
    if Unbound(w, start, a.locals) {
      UnboundRestored(w, a, o, start, n, answer);
    }
  }

  lemma LastLands(w: Workflow, a: Scopes, o: Oracle, s: State, n: nat)
    requires WellIndexed(w) && RoundsLand(w, a, o, s, n + 1)
    ensures RoundsLand(w, a, o, s, n)
    ensures !StepN(w, o, s, n).finished ==> RoundLands(w, a, o, StepN(w, o, s, n))
  {
    hide RoundLands, StepN;
  }

  lemma WakesSteady(w: Workflow, u: Writer, a: Scopes, h: State, answer: Answer)
    requires Dormant(a, h)
    ensures h.ending.suspend.Some? && Steady(a, Reopened(w, u, h, answer))
  {
    hide Kept, CursorOk, Fits, FitsInt, Steady, Reopened;
    DeliverGood(w, u, a, h, answer);
  }

  /**
   * In a structured program whose nested loops name their variables apart, a session may be suspended after any
   * number of rounds, at any depth: stored, rebuilt and resumed, it goes on exactly as if it had never stopped,
   * whatever its tasks do with the loop variables around them and with the locals `names`, provided the frames
   * bring those back. They do when the program never binds them: then an answer is their only source.
   */
  lemma ProgramResumes(q: seq<Stmt>, g: Guards, names: set<string>, o: Oracle, u: Writer, start: State, n: nat,
                       answer: Answer)
    requires q != [] && SoundBlock(q) && UniqueIds(Flat(q)) && BlockApart(q, {})
    requires ReadsScope(o, ScopesOf(q, g, names)) && WellBehaved(o, ScopesOf(q, g, names)) && Starting(q, start)
    requires WellIndexed(Compile(q)) && AsksToSuspend(Compile(q), o, StepN(Compile(q), o, start, n))
    requires RoundsLand(Compile(q), ScopesOf(q, g, names), o, start, n + 1)
    ensures var h := Step(Compile(q), o, StepN(Compile(q), o, start, n));
            && HandlersExist(Compile(q)) && h.ending.suspend.Some?
            && (Restored(ScopesOf(q, g, names), h, answer) &&
                RunLands(Compile(q), ScopesOf(q, g, names), o, Reopened(Compile(q), u, h, answer)) ==>
                  Invisible(Compile(q), u, ScopesOf(q, g, names), o, h, answer))
            && (Unbound(Compile(q), start, names) ==> Restored(ScopesOf(q, g, names), h, answer))
  {
    var w, a := Compile(q), ScopesOf(q, g, names);
    CompiledIsEmbedded(q);
    ProgramDisciplined(q, g, names);
    StartIsGood(q, g, names, start);
    NoHandlers(w);
    GoodIsSteady(w, a, o, start);
    assert a.locals == names;
    hide *;
    RunResumes(w, u, a, o, start, n, answer);
  }

  /** A name that stays out of the locals and out of the frames is the same before and after. */
  lemma UnboundRestored(w: Workflow, a: Scopes, o: Oracle, start: State, n: nat, answer: Answer)
    requires WellIndexed(w) && Unbound(w, start, a.locals) && !StepN(w, o, start, n).finished
    requires Dormant(a, Step(w, o, StepN(w, o, start, n)))
    ensures Step(w, o, StepN(w, o, start, n)).ending.suspend.Some?
    ensures Restored(a, Step(w, o, StepN(w, o, start, n)), answer)
  {
    hide Step, StepN, Fits, Kept, Delivered, FitsInt, NeverBound, Quiet, CursorOk;
    var s := StepN(w, o, start, n);
    var h := Step(w, o, s);
    forall x | x in a.locals
      ensures x !in h.env.locals && x !in Rebind(h.frames)
    {
      RunQuiet(w, x, o, start, n);
      StepQuiet(w, x, o, s);
      QuietSays(w, x, h);
      QuietRebind(x, h.frames);
    }
  }

  lemma QuietSays(w: Workflow, x: string, h: State)
    requires NeverBound(w, x) && Quiet(x, h)
    ensures x != "iteration" && x !in h.env.locals && QuietFrames(x, h.frames)
  {
    hide QuietFrames;
  }

  lemma {:induction false} QuietRebind(x: string, frames: seq<Frame>)
    requires QuietFrames(x, frames) && x != "iteration"
    ensures x !in Rebind(frames)
  {
    if frames != [] {
      QuietRebind(x, frames[..|frames| - 1]);
    }
  }

  lemma GoodIsSteady(w: Workflow, a: Scopes, o: Oracle, s: State)
    requires Good(a, s) && Disciplined(w, a) && ReadsScope(o, a)
    ensures Steady(a, s) && Setting(w, a, o)
  {
  }

  lemma SteadySuspends(w: Workflow, a: Scopes, o: Oracle, s: State)
    requires WellIndexed(w) && Steady(a, s) && AsksToSuspend(w, o, s)
    ensures !s.finished && Good(a, s) && Suspends(w, o, s)
    ensures forall k :: 0 <= k < |s.frames| ==> FitsInt(s.frames[k])
  {
    hide Good, WellIndexed;
  }

  lemma NoHandlers(w: Workflow)
    requires GotoFree(w)
    ensures HandlersExist(w)
  {
  }

  // ------------------------------------------------------------------ jumps and waits in programs

  /** Jumps into open bodies and to the top level find what their targets need. */
  lemma HomeLands(q: seq<Stmt>, g: Guards, names: set<string>, frames: seq<Frame>, target: Id)
    requires UniqueIds(Flat(q)) && KeepsPlace(Tops(q), frames, target)
    ensures Lands(ScopesOf(q, g, names), frames, target)
  {
    if target in Tops(q) {
      var a := ScopesOf(q, g, names);
      ScopesSay(q, g, names);
      var i :| 0 <= i < |q| && Ids(q)[i] == target;
      hide ScopesOf, TopInnerSpans;
      assert Says(a, ProgramSpans(q, g)[i]) && ProgramSpans(q, g)[i] == SpanOf(q[i], g, {}, {});
    }
  }

  /**
   * A wait inside an inline body has no node to go on with, so unless it names one or polls a condition its session
   * completes on waking: the rest of the body, the open loops and tries, and all that follows never run.
   */
  lemma NestedWaitEnds(q: seq<Stmt>, u: Writer, o: Oracle, s: State, answer: Answer)
    requires q != [] && SoundBlock(q) && UniqueIds(Flat(q)) && WellIndexed(Compile(q))
    requires Resting(Compile(q), Tops(q), s) && s.frames != [] && Suspends(Compile(q), o, s) && !answer.timedOut
    requires var r := o.leaf(s.cursor, ViewOf(s.env, Iteration(s.frames))).result.value.request;
             r.reason != "input" && r.resumeNode == "" && !(r.reason == "timer" && r.awaitCondition)
    requires forall k :: 0 <= k < |s.frames| ==> FitsInt(s.frames[k])
    ensures var h := Step(Compile(q), o, s);
            h.ending.suspend.Some? &&
            var y := Resumed(Compile(q), u, StoredOf(h), answer, h.env.budget, h.env.world);
            y.finished && y.ending == Live.(status := Completed) && y.frames == s.frames
  {
    var w := Compile(q);
    ProgramInlined(q);
    hide Compile, Flat, UniqueIds, SoundBlock, Resumed, StoredOf, Inlined, FrameOf, FitsInt;
    WakesIff(w, u, o, s, answer);
    WaitsNowhere(w, Tops(q), o, s);
  }

  lemma WaitsNowhere(w: Workflow, tops: set<Id>, o: Oracle, s: State)
    requires Inlined(w, tops) && Resting(w, tops, s) && s.frames != [] && Suspends(w, o, s)
    requires var r := o.leaf(s.cursor, ViewOf(s.env, Iteration(s.frames))).result.value.request;
             r.reason != "input" && r.resumeNode == "" && !(r.reason == "timer" && r.awaitCondition)
    ensures var h := Step(w, o, s);
            h.ending.suspend.Some? && ResumeCursor(w.index[s.cursor], h.ending.suspend.value) !in w.index
  {
    hide InlineNode, Nest, FrameOf;
    TopOwned(w, tops, s.frames);
    NoWayOut(w, tops, Top(s), s.cursor);
    LeafStep(w, o, s);
    assert ViewOf(Entered(s).env, Iteration(s.frames)) == ViewOf(s.env, Iteration(s.frames));
  }
}
