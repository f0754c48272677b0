// The other half of reachability: in the graph of a program no reference is idle. Whatever a node that is not
// disabled refers to is activated behind it in some run without dynamic jumps.

module Edges {
  import opened Json
  import opened Blueprint
  import opened Machine
  import opened MainLoop
  import opened Structured
  import opened Refinement
  import opened Parser
  import opened Validator
  import opened Reach
  import opened Nesting
  import opened Acyclic
  import Handlers

  // ------------------------------------------------------------------ a run that does as little as possible

  /** Tasks go on, loops have no items and conditions are false, except for the first that is asked. */
  function Guide(take: bool): Oracle {
    Oracle((id, v: View) => Reply(Ok(Continue), v.vars, 1),
           (id, v: View) => Reply(Ok(v.world == 0 && take), v.vars, 1),
           (id, v: View) => Reply(Ok(Some(if v.world == 0 then [Null] else [])), v.vars, 1),
           (id, v: View) => Reply(Ok(false), v.vars, 1))
  }

  function Size(s: Stmt): nat
    decreases s, 1, 0
  {
    1 + match s
        case Task(_, _, _) => 0
        case If(_, _, thenPart, elsePart) => SizeFrom(thenPart, 0) + SizeFrom(elsePart, 0)
        case Repeat(_, _, _, _, _, _, body) => SizeFrom(body, 0)
        case Guarded(_, _, _, body, handler, cleanup) =>
          SizeFrom(body, 0) + SizeFrom(handler, 0) + SizeFrom(cleanup, 0)
  }

  function SizeFrom(ss: seq<Stmt>, i: nat): nat
    requires i <= |ss|
    decreases ss, 0, |ss| - i
  {
    if i == |ss| then 0 else Size(ss[i]) + SizeFrom(ss, i + 1)
  }

  /** Nothing is pending, the first question has been asked, and there is budget for so many nodes. */
  predicate Ready(env: Env, n: nat) {
    env.pending.None? && env.world == 1 && env.visits + n <= env.budget
  }

  /** At most so many nodes later. */
  predicate Later(a: Env, n: nat, b: Env) {
    b.pending.None? && b.world == 1 && b.budget == a.budget && b.visits <= a.visits + n && a.visited <= b.visited
  }

  lemma LaterTrans(a: Env, n: nat, b: Env, m: nat, c: Env)
    requires Later(a, n, b) && Later(b, m, c)
    ensures Later(a, n + m, c)
  {
  }

  lemma SuffixGrows(a: seq<Id>, b: seq<Id>, c: seq<Id>)
    requires a <= b <= c
    ensures forall id :: id in c[|b|..] ==> id in c[|a|..]
    ensures forall id :: id in b[|a|..] ==> id in c[|a|..]
  {
    forall id | id in c[|b|..]
      ensures id in c[|a|..]
    {
      var k :| |b| <= k < |c| && c[k] == id;
      assert c[|a|..][k - |a|] == id;
    }
    forall id | id in b[|a|..]
      ensures id in c[|a|..]
    {
      var k :| |a| <= k < |b| && b[k] == id;
      assert c[|a|..][k - |a|] == id;
    }
  }

  lemma {:induction false} StmtPasses(take: bool, s: Stmt, env: Env, skips: bool, it: int)
    requires Ready(env, Size(s))
    ensures var (out, after) := Exec(Guide(take), s, env, skips, it);
            out.Normal? && Later(env, Size(s), after) && env.visited + [s.id] <= after.visited
    decreases s, 1, 0
  {
    hide ExecFrom, SizeFrom;
    var o := Guide(take);
    var env0 := CountVisit(env, s.id);
    if s.enabled {
      match s
      case Task(_, _, _) =>
      case If(_, _, _, elsePart) =>
        BlockPasses(take, elsePart, 0, After(env0, o.branch(s.id, ViewOf(env0, it))), skips, -1);
      case Repeat(_, _, _, _, _, _, _) =>
      case Guarded(_, _, _, _, _, _) =>
        GuardedPasses(take, s, env0, skips);
    }
  }

  lemma {:induction false} GuardedPasses(take: bool, s: Stmt, env: Env, skips: bool)
    requires s.Guarded? && env.pending.None? && (env.world == 1) && env.visits + Size(s) - 1 <= env.budget
    ensures var (out, after) := ExecGuarded(Guide(take), s, env, skips);
            && out.Normal? && Later(env, Size(s) - 1, after)
            && (forall j :: 0 <= j < |s.body| ==> s.body[j].id in after.visited[|env.visited|..])
            && (forall j :: 0 <= j < |s.cleanup| ==> s.cleanup[j].id in after.visited[|env.visited|..])
    decreases s, 0, 0
  {
    hide ExecFrom, SizeFrom;
    var o := Guide(take);
    BlockPasses(take, s.body, 0, env, false, -1);
    var env1 := ExecFrom(o, s.body, 0, env, false, -1).1;
    BlockPasses(take, s.cleanup, 0, env1, skips, -1);
    SuffixGrows(env.visited, env1.visited, ExecFrom(o, s.cleanup, 0, env1, skips, -1).1.visited);
  }

  lemma {:induction false} BlockPasses(take: bool, ss: seq<Stmt>, i: nat, env: Env, skips: bool, it: int)
    requires i <= |ss| && Ready(env, SizeFrom(ss, i))
    ensures var (out, after) := ExecFrom(Guide(take), ss, i, env, skips, it);
            && out.Normal? && Later(env, SizeFrom(ss, i), after)
            && forall j :: i <= j < |ss| ==> ss[j].id in after.visited[|env.visited|..]
    decreases ss, 0, |ss| - i
  {
    hide Exec;
    if i < |ss| {
      StmtPasses(take, ss[i], env, skips, it);
      var env1 := Exec(Guide(take), ss[i], env, skips, it).1;
      BlockPasses(take, ss, i + 1, env1, skips, it);
      LaterTrans(env, Size(ss[i]), env1, SizeFrom(ss, i + 1),
                 ExecFrom(Guide(take), ss, i + 1, env1, skips, it).1);
      var after := ExecFrom(Guide(take), ss, i + 1, env1, skips, it).1;
      assert after.visited[|env.visited|..][0] == env1.visited[|env.visited|] == ss[i].id;
      SuffixGrows(env.visited, env1.visited, after.visited);
    }
  }

  // ------------------------------------------------------------------ what a node leads to is visited behind it

  /** Where such a run starts: a condition or loop is the first to be asked. */
  function Opening(s: Stmt): Env {
    Env(map[], map[], if s.If? || s.Repeat? then 0 else 1, 0, Size(s) + 1, [], None, "")
  }

  /** The statement alone, run from there, ends normally and visits itself first. */
  ghost predicate VisitsBehind(s: Stmt, r: (Outcome, Env), ids: seq<Id>) {
    && r.0.Normal? && r.1.pending.None? && r.1.visits <= Size(s) && r.1.budget == Size(s) + 1
    && [s.id] <= r.1.visited && forall id :: id in ids ==> id in r.1.visited[1..]
  }

  lemma ConditionVisits(take: bool, s: Stmt)
    requires s.If? && s.enabled
    ensures VisitsBehind(s, Exec(Guide(take), s, Opening(s), false, -1), Ids(if take then s.thenPart else s.elsePart))
  {
    var o := Guide(take);
    var env0 := CountVisit(Opening(s), s.id);
    var env1 := After(env0, o.branch(s.id, ViewOf(env0, -1)));
    var part := if take then s.thenPart else s.elsePart;
    assert SizeFrom(part, 0) <= Size(s) - 1;
    BlockPasses(take, part, 0, env1, false, -1);
    hide ExecFrom, Size, SizeFrom;
  }

  lemma LoopVisits(s: Stmt)
    requires s.Repeat? && s.enabled && s.limit >= 1
    ensures VisitsBehind(s, Exec(Guide(false), s, Opening(s), false, -1), Ids(s.body))
  {
    var o := Guide(false);
    var env0 := CountVisit(Opening(s), s.id);
    var r := o.items(s.id, ViewOf(env0, -1));
    var env1 := BindPass(After(env0, r), s, Some([Null]), 0);
    assert r.result == Ok(Some([Null]));
    BlockPasses(false, s.body, 0, env1, s.onItemError != "fail", 0);
    hide ExecFrom, SizeFrom, BindPass;
    var after := ExecFrom(o, s.body, 0, env1, s.onItemError != "fail", 0).1;
    assert ExecPasses(o, s, Some([Null]), 0, env1, false) == (Normal, UnbindPass(after, s));
  }

  lemma TryVisits(s: Stmt)
    requires s.Guarded? && s.enabled
    ensures VisitsBehind(s, Exec(Guide(false), s, Opening(s), false, -1), Ids(s.body) + Ids(s.cleanup))
  {
    var env0 := CountVisit(Opening(s), s.id);
    GuardedPasses(false, s, env0, false);
    hide ExecGuarded, Size;
  }

  // ------------------------------------------------------------------ on the flat graph

  lemma {:induction false} DriveGrows(w: Workflow, o: Oracle, s: State)
    requires WellIndexed(w) && HandlersExist(w)
    ensures s.env.visited <= Drive(w, o, s).env.visited
    decreases !s.finished, Fuel(s), StackWeight(s.frames), Unsettled(w, s)
  {
    hide Step, WellIndexed, HandlersExist;
    if !s.finished {
      StepDescends(w, o, s);
      VisitedGrows(w, o, s);
      DriveGrows(w, o, Step(w, o, s));
    }
  }

  lemma HandlersThere(w: Workflow)
    requires GotoFree(w)
    ensures WellIndexed(w) && HandlersExist(w)
  {
  }

  /** What a structured part visits that ends normally, the machine visits. */
  lemma NormalVisits(w: Workflow, o: Oracle, m: State, t: State, done: State, r: (Outcome, Env))
    requires GotoFree(w) && Simulates(w, o, m, t, done, r) && r.0.Normal? && done.env.visited == t.env.visited
    ensures WellIndexed(w) && HandlersExist(w) && r.1.visited <= Drive(w, o, m).env.visited
    ensures t.env == r.1 && Drive(w, o, m).env == Drive(w, o, done).env
  {
    HandlersThere(w);
    DriveGrows(w, o, done);
    hide Drive;
  }

  lemma {:induction false} InnerStmt(w: Workflow, s: Stmt, next: Option<Id>, k: nat) returns (c: Stmt)
    requires Embedded(w, s, next) && k < |Descendants(s)|
    ensures Embedded(w, c, None) && NodeOf(c, None) == Descendants(s)[k]
    decreases s, 1, 0
  {
    hide Hoisted, NodeOf;
    match s
    case If(_, _, a, b) =>
      if k < |Hoisted(a, |a|)| {
        c := BlockStmt(w, a, |a|, k);
      } else {
        c := BlockStmt(w, b, |b|, k - |Hoisted(a, |a|)|);
      }
    case Repeat(_, _, _, _, _, _, body) =>
      c := BlockStmt(w, body, |body|, k);
    case Guarded(_, _, _, a, b, d) =>
      var na, nb := |Hoisted(a, |a|)|, |Hoisted(b, |b|)|;
      if k < na {
        c := BlockStmt(w, a, |a|, k);
      } else if k < na + nb {
        c := BlockStmt(w, b, |b|, k - na);
      } else {
        c := BlockStmt(w, d, |d|, k - na - nb);
      }
  }

  lemma {:induction false} BlockStmt(w: Workflow, ss: seq<Stmt>, n: nat, k: nat) returns (c: Stmt)
    requires EmbeddedBlock(w, ss) && n <= |ss| && k < |Hoisted(ss, n)|
    ensures Embedded(w, c, None) && NodeOf(c, None) == Hoisted(ss, n)[k]
    decreases ss, 0, n
  {
    hide Descendants, NodeOf, Embedded;
    var a, b := Hoisted(ss, n - 1), Descendants(ss[n - 1]);
    if k < |a| {
      c := BlockStmt(w, ss, n - 1, k);
    } else if k < |a| + |b| {
      c := InnerStmt(w, ss[n - 1], None, k - |a|);
    } else {
      c := ss[n - 1];
    }
  }

  lemma {:induction false} TopInnerStmt(w: Workflow, q: seq<Stmt>, n: nat, k: nat) returns (c: Stmt)
    requires EmbeddedProgram(w, q) && n <= |q| && k < |TopHoisted(q, n)|
    ensures Embedded(w, c, None) && NodeOf(c, None) == TopHoisted(q, n)[k]
    decreases n
  {
    hide Descendants, NodeOf, Embedded;
    if k < |TopHoisted(q, n - 1)| {
      c := TopInnerStmt(w, q, n - 1, k);
    } else {
      c := InnerStmt(w, q[n - 1], TopNext(q, n - 1), k - |TopHoisted(q, n - 1)|);
    }
  }

  /** Every node of the graph is some statement of the program. */
  lemma NodeIsStmt(q: seq<Stmt>, id: Id) returns (s: Stmt, next: Option<Id>)
    requires q != [] && SoundBlock(q) && UniqueIds(Flat(q)) && id in Compile(q).index
    ensures Embedded(Compile(q), s, next) && s.id == id && Compile(q).index[id] == NodeOf(s, next)
  {
    CompiledIsEmbedded(q);
    IndexHolds(Flat(q));
    var k :| 0 <= k < |Flat(q)| && Flat(q)[k].id == id;
    FlatSplits(q, k);
    if k < |q| {
      s, next := q[k], TopNext(q, k);
      TopAt(q, k);
    } else {
      s := TopInnerStmt(Compile(q), q, |q|, k - |q|);
      next := None;
      NodeKeepsId(s);
    }
    EmbeddedIsFiled(Compile(q), s, next);
    hide Flat, IndexOfNodes, Embedded, NodeOf, TopHoisted, SoundBlock, UniqueIds;
  }

  lemma FlatSplits(q: seq<Stmt>, k: nat)
    requires k < |Flat(q)|
    ensures k >= |q| ==> k - |q| < |TopHoisted(q, |q|)| && Flat(q)[k] == TopHoisted(q, |q|)[k - |q|]
  {
    hide TopHoisted, NodeOf;
  }

  lemma EmbeddedIsFiled(w: Workflow, s: Stmt, next: Option<Id>)
    requires Embedded(w, s, next)
    ensures s.id in w.index && w.index[s.id] == NodeOf(s, next) && WellShaped(s)
  {
  }

  // ------------------------------------------------------------------ every reference is followed

  /** Control stands at the node, nothing is open, and nothing has been visited. */
  predicate AtNode(id: Id, s: State) {
    s.frames == [] && s.cursor == id && !s.finished && s.ending == Live && s.env.pending.None? && s.env.visited == []
  }

  /** This try is open in its body, nothing else is, and an error is pending. */
  predicate FailingIn(w: Workflow, id: Id, s: State) {
    && id in w.index && w.index[id].kind.Try? && !s.finished && s.ending == Live
    && s.frames == [TryFrameFor(w.index[id])] && s.env.pending.Some? && s.env.visited == []
  }

  /**
   * A run without dynamic jumps that starts at the node and visits the target behind it, or that starts in the
   * failing body of the node, a try, and visits the target.
   */
  ghost predicate Follows(w: Workflow, o: Oracle, s: State, id: Id, target: Id)
    requires WellIndexed(w) && HandlersExist(w)
  {
    var visited := Drive(w, o, s).env.visited;
    && Static(w, o)
    && ((AtNode(id, s) && [id] <= visited && target in visited[1..]) || (FailingIn(w, id, s) && target in visited))
  }

  function StartAt(s: Stmt, world: int): State {
    State([], s.id, "", Opening(s).(world := world), false, Live)
  }

  lemma GuideIsStatic(w: Workflow, take: bool)
    ensures Static(w, Guide(take))
  {
  }

  lemma PartFollowed(w: Workflow, take: bool, s: Stmt, next: Option<Id>, ids: seq<Id>, target: Id)
    requires GotoFree(w) && Embedded(w, s, next) && target in ids
    requires VisitsBehind(s, Exec(Guide(take), s, Opening(s), false, -1), ids)
    ensures WellIndexed(w) && HandlersExist(w)
    ensures Follows(w, Guide(take), StartAt(s, Opening(s).world), s.id, target)
  {
    var o := Guide(take);
    var m := StartAt(s, Opening(s).world);
    var r := Exec(o, s, Opening(s), false, -1);
    assert m.env == Opening(s);
    hide Guide, Exec, Advance, Embedded, Drive, Simulates, Opening;
    var t := SimStmt(w, o, s, next, m);
    SimulatesVisits(w, o, m, t, Advance(w, o, t, s.id), r);
    SuffixGrows([s.id], r.1.visited, Drive(w, o, m).env.visited);
    GuideIsStatic(w, take);
    OpeningIsFresh(s);
  }

  lemma OpeningIsFresh(s: Stmt)
    ensures Opening(s).pending.None? && Opening(s).visited == []
  {
  }

  lemma SimulatesVisits(w: Workflow, o: Oracle, m: State, t: State, done: State, r: (Outcome, Env))
    requires GotoFree(w) && Simulates(w, o, m, t, done, r) && r.0.Normal? && SameCount(t.env, done.env)
    ensures WellIndexed(w) && HandlersExist(w) && r.1.visited <= Drive(w, o, m).env.visited
    ensures t.env == r.1 && Refinement.Running(t) && Drive(w, o, m).env == Drive(w, o, done).env
  {
    NormalVisits(w, o, m, t, done, r);
    hide Drive;
  }

  /** The edge of a top-level node is taken once its statement has ended. */
  lemma NextFollowed(w: Workflow, s: Stmt, next: Option<Id>)
    requires GotoFree(w) && Embedded(w, s, next) && next.Some? && next.value in w.index
    ensures WellIndexed(w) && HandlersExist(w)
    ensures Follows(w, Guide(false), StartAt(s, 1), s.id, next.value)
  {
    var o := Guide(false);
    var m := StartAt(s, 1);
    StmtPasses(false, s, m.env, false, -1);
    var r := Exec(o, s, m.env, false, -1);
    EmbeddedIsFiled(w, s, next);
    assert m.env.visited + [s.id] == [s.id];
    hide Guide, Exec, Advance, Embedded, Drive, Simulates, Opening, Size;
    var t := SimStmt(w, o, s, next, m);
    TopAdvances(w, o, t, s.id, next.value);
    SimulatesVisits(w, o, m, t, Advance(w, o, t, s.id), r);
    NextIsVisited(w, o, t.(cursor := next.value));
    AppendedBehind(s.id, r.1.visited, next.value, Drive(w, o, m).env.visited);
    GuideIsStatic(w, false);
    OpeningIsFresh(s);
  }

  lemma TopAdvances(w: Workflow, o: Oracle, t: State, id: Id, next: Id)
    requires t.frames == [] && id in w.index && w.index[id].next == Some(next)
    ensures Advance(w, o, t, id) == t.(cursor := next)
  {
  }

  lemma NextIsVisited(w: Workflow, o: Oracle, t: State)
    requires WellIndexed(w) && HandlersExist(w) && t.cursor in w.index && !t.finished && t.env.pending.None?
    requires t.env.visits < t.env.budget
    ensures t.env.visited + [t.cursor] <= Drive(w, o, t).env.visited
  {
    StepDescends(w, o, t);
    ActivationSpendsFuel(w, o, t);
    DriveGrows(w, o, Step(w, o, t));
    hide Step, StackWeight, HandlersExist;
  }

  lemma AppendedBehind(first: Id, a: seq<Id>, last: Id, b: seq<Id>)
    requires [first] <= a && a + [last] <= b
    ensures [first] <= b && last in b[1..]
  {
    assert b[1..][|a| - 1] == (a + [last])[|a|];
    assert b[0] == (a + [last])[0] == a[0];
  }

  /** In the failing body of the try: an error is pending, whatever it is. */
  function FailingAt(s: Stmt, next: Option<Id>, e: Error): State
    requires s.Guarded?
  {
    State([TryFrameFor(NodeOf(s, next))], "", "",
          Env(map[], map[], 1, 0, Size(s), [], Some(e), ""), false, Live)
  }

  lemma HandlerEntered(w: Workflow, o: Oracle, s: Stmt, next: Option<Id>, e: Error)
    requires GotoFree(w) && s.Guarded? && s.handler != []
    ensures var m := FailingAt(s, next, e);
            var t := Step(w, o, m);
            && !t.finished && t.ending == Live && t.cursor == s.handler[0].id
            && t.frames == [TryFrame(s.id, Ids(s.handler), 0, ResumeTarget(NodeOf(s, next)), InCatch, Ids(s.handler),
                                     Ids(s.cleanup), s.errorVar, map[], None)]
            && t.env.visited == [] && t.env.visits == 0 && t.env.budget == Size(s) && t.env.world == 1
            && t.env.pending.None?
  {
    var m := FailingAt(s, next, e);
    var f := m.frames[0];
    assert m.frames == [f] && !HasHandler(w, "");
    assert Recovers(w, f, e);
    assert RecoverDepth(w, m.frames, e) == 1;
    assert m.frames[..1] == [f];
    hide Size, BindError;
    BindKeepsCount(m.env.(pending := None), s.errorVar, e);
  }

  lemma BindKeepsCount(env: Env, name: string, e: Error)
    ensures var t := BindError(env, name, e);
            && t.visited == env.visited && t.visits == env.visits && t.budget == env.budget && t.world == env.world
            && t.pending == env.pending
  {
    hide ErrorJson;
  }

  lemma HandlerFollowed(w: Workflow, s: Stmt, next: Option<Id>, e: Error, target: Id)
    requires GotoFree(w) && Embedded(w, s, next) && s.Guarded? && target in Ids(s.handler)
    ensures WellIndexed(w) && HandlersExist(w)
    ensures Follows(w, Guide(false), FailingAt(s, next, e), s.id, target)
  {
    var m := FailingAt(s, next, e);
    HandlersThere(w);
    HandlerEntered(w, Guide(false), s, next, e);
    HandlerIsPlain(w, s, next);
    EmbeddedIsFiled(w, s, next);
    DriveOn(w, Guide(false), m);
    GuideIsStatic(w, false);
    HandlerVisits(w, s, Step(w, Guide(false), m), target);
    hide Size, Guide, Embedded, EmbeddedBlock, Drive, Step;
  }

  lemma HandlerVisits(w: Workflow, s: Stmt, t0: State, target: Id)
    requires GotoFree(w) && s.Guarded? && EmbeddedBlock(w, s.handler) && target in Ids(s.handler)
    requires !t0.finished && t0.ending == Live && t0.cursor == s.handler[0].id
    requires |t0.frames| == 1 && PlainFrame(t0.frames[0]) && t0.frames[0].TryFrame?
    requires t0.frames[0].ids == Ids(s.handler)
    requires t0.env.visited == [] && t0.env.visits == 0 && t0.env.budget == Size(s) && t0.env.world == 1
    requires t0.env.pending.None?
    ensures WellIndexed(w) && HandlersExist(w) && target in Drive(w, Guide(false), t0).env.visited
  {
    var o := Guide(false);
    assert SizeFrom(s.handler, 0) <= Size(s);
    hide Size, SizeFrom, Guide, FinishBody, Drive, Simulates, ExecFrom, EmbeddedBlock, Skips;
    var r := ExecFrom(o, s.handler, 0, t0.env, Skips(t0.frames), -1);
    BlockPasses(false, s.handler, 0, t0.env, Skips(t0.frames), -1);
    var t := SimFrom(w, o, s.handler, 0, t0);
    SimulatesVisits(w, o, t0, t, FinishBody(w, o, t, true), r);
    var k :| 0 <= k < |s.handler| && Ids(s.handler)[k] == target;
    assert target in r.1.visited[0..];
    SuffixGrows([], r.1.visited, Drive(w, o, t0).env.visited);
    hide *;
  }

  lemma DriveOn(w: Workflow, o: Oracle, m: State)
    requires WellIndexed(w) && HandlersExist(w) && !m.finished
    ensures Drive(w, o, m) == Drive(w, o, Step(w, o, m))
  {
    StepDescends(w, o, m);
    hide Step;
  }

  lemma HandlerIsPlain(w: Workflow, s: Stmt, next: Option<Id>)
    requires GotoFree(w) && Embedded(w, s, next) && s.Guarded?
    ensures EmbeddedBlock(w, s.handler) && EmbeddedBlock(w, s.cleanup)
    ensures "" !in Ids(s.handler) && "" !in Ids(s.cleanup)
  {
    BlockIsPlain(w, s.handler);
    BlockIsPlain(w, s.cleanup);
  }

  /**
   * No reference of a program is idle: whatever a node refers to is visited behind it in some run without dynamic
   * jumps, unless the node is disabled and the reference is not its edge.
   */
  lemma TargetIsReached(q: seq<Stmt>, id: Id, target: Id) returns (o: Oracle, s: State)
    requires q != [] && SoundBlock(q) && UniqueIds(Flat(q))
    requires id in Compile(q).index && target in Targets(Compile(q).index[id])
    requires Compile(q).index[id].enabled || Compile(q).index[id].next == Some(target)
    ensures WellIndexed(Compile(q)) && HandlersExist(Compile(q))
    ensures Follows(Compile(q), o, s, id, target)
  {
    var w := Compile(q);
    CompiledIsEmbedded(q);
    ProgramIsClosed(q);
    var x, next := NodeIsStmt(q, id);
    hide Compile, Embedded, Follows, VisitsBehind, Exec, GotoFree, TargetsExist;
    StmtTargets(x, next, target);
    if next == Some(target) {
      TargetsFiled(w, id, target);
      NextFollowed(w, x, next);
      o, s := Guide(false), StartAt(x, 1);
    } else {
      o, s := BodyReached(w, x, next, target);
    }
  }

  lemma TargetsFiled(w: Workflow, id: Id, target: Id)
    requires TargetsExist(w) && id in w.index && target in Targets(w.index[id])
    ensures target in w.index
  {
  }

  lemma BodyReached(w: Workflow, x: Stmt, next: Option<Id>, target: Id) returns (o: Oracle, s: State)
    requires GotoFree(w) && Embedded(w, x, next) && x.enabled && InParts(x, target)
    ensures WellIndexed(w) && HandlersExist(w) && Follows(w, o, s, x.id, target)
  {
    EmbeddedIsFiled(w, x, next);
    hide Embedded, Follows, VisitsBehind, Exec, GotoFree, Opening;
    match x
    case If(_, _, thenPart, elsePart) =>
      var take := target in Ids(thenPart);
      ConditionVisits(take, x);
      PartFollowed(w, take, x, next, Ids(if take then thenPart else elsePart), target);
      o, s := Guide(take), StartAt(x, Opening(x).world);
    case Repeat(_, _, _, _, _, _, body) =>
      LoopVisits(x);
      PartFollowed(w, false, x, next, Ids(body), target);
      o, s := Guide(false), StartAt(x, Opening(x).world);
    case Guarded(_, _, _, body, handler, cleanup) =>
      if target in Ids(body) + Ids(cleanup) {
        TryVisits(x);
        PartFollowed(w, false, x, next, Ids(body) + Ids(cleanup), target);
        o, s := Guide(false), StartAt(x, Opening(x).world);
      } else {
        var e := RoutingError(x.id);
        HandlerFollowed(w, x, next, e, target);
        o, s := Guide(false), FailingAt(x, next, e);
      }
  }

  /** The id is that of a statement right inside this one. */
  predicate InParts(x: Stmt, target: Id) {
    match x
    case Task(_, _, _) => false
    case If(_, _, thenPart, elsePart) => target in Ids(thenPart) || target in Ids(elsePart)
    case Repeat(_, _, _, _, _, _, body) => target in Ids(body)
    case Guarded(_, _, _, body, handler, cleanup) =>
      target in Ids(body) || target in Ids(handler) || target in Ids(cleanup)
  }

  lemma StmtTargets(x: Stmt, next: Option<Id>, target: Id)
    requires target in Targets(NodeOf(x, next))
    ensures next == Some(target) || InParts(x, target)
  {
  }

  /** A disabled node leads nowhere but over its edge. */
  lemma DisabledIsIdle(w: Workflow, o: Oracle, s: State, id: Id)
    requires WellIndexed(w) && HandlersExist(w) && AtNode(id, s) && id in w.index && !w.index[id].enabled
    requires s.env.visits < s.env.budget
    ensures var passed := s.(current := id, env := s.env.(visits := s.env.visits + 1, visited := [id]));
            Drive(w, o, s) == if w.index[id].next.Some? then Drive(w, o, passed.(cursor := w.index[id].next.value))
                              else passed.(cursor := "", finished := true, ending := Live.(status := Completed))
  {
    DriveOn(w, o, s);
    assert Step(w, o, s).finished ==> Drive(w, o, Step(w, o, s)) == Step(w, o, s);
    assert [] + [id] == [id];
    hide Drive, HandlersExist;
  }

  // ------------------------------------------------------------------ gotos

  /** Answers for one node only. */
  function Answering(signal: Result<Signal, Error>, take: Result<bool, Error>, items: Result<Option<seq<Json>>, Error>,
                     at: Id): Oracle {
    Oracle((id, v: View) => Reply(if id == at then signal else Ok(Continue), v.vars, v.world),
           (id, v: View) => Reply(if id == at then take else Ok(false), v.vars, v.world),
           (id, v: View) => Reply(if id == at then items else Ok(None), v.vars, v.world),
           (id, v: View) => Reply(Ok(false), v.vars, v.world))
  }

  function Alone(id: Id): State {
    State([], id, "", Env(map[], map[], 0, 0, 1, [], None, ""), false, Live)
  }

  /** A reference that some answer of the node itself follows in the round that runs it. */
  predicate Direct(n: Node, target: Id) {
    || (n.kind.Leaf? && target in n.kind.targets)
    || (n.onError == Some(target) && !n.kind.Try?)
    || (n.kind.Condition? && n.kind.thenBody == [] && n.kind.onTrue == target)
    || (n.kind.Condition? && n.kind.elseBody == [] && n.kind.onFalse == target)
  }

  /** In any graph, such a reference is followed in one round of a run without dynamic jumps. */
  lemma GotoIsTaken(w: Workflow, id: Id, target: Id) returns (o: Oracle, s: State)
    requires WellIndexed(w) && id in w.index && w.index[id].enabled && target != "" && Direct(w.index[id], target)
    ensures Static(w, o) && AtNode(id, s) && Step(w, o, s).cursor == target && Step(w, o, s).env.visited == [id]
  {
    var n := w.index[id];
    var e := RoutingError(id);
    s := Alone(id);
    if n.onError == Some(target) && !n.kind.Try? {
      o := Answering(Err(e), Err(e), Err(e), id);
    } else if n.kind.Leaf? {
      o := Answering(Ok(JumpTo(target)), Err(e), Err(e), id);
      assert target in Validator.Named(n.kind.targets);
    } else {
      o := Answering(Ok(Continue), Ok(n.kind.thenBody == [] && n.kind.onTrue == target), Err(e), id);
    }
    hide Targets;
    assert Targets(n) == Targets(w.index[id]);
  }

  /** A route of a try to an existing node is taken by an error of its code that is raised in its body. */
  lemma RouteIsTaken(w: Workflow, o: Oracle, id: Id, code: string) returns (s: State)
    requires WellIndexed(w) && id in w.index && w.index[id].kind.Try?
    requires code in w.index[id].kind.catchWhen && w.index[id].kind.catchWhen[code] in w.index
    ensures FailingIn(w, id, s) && Step(w, o, s).cursor == w.index[id].kind.catchWhen[code]
    ensures !Step(w, o, s).finished && Step(w, o, s).env.visited == []
  {
    var e := Error(code, "", id, Null);
    var f := TryFrameFor(w.index[id]);
    s := State([f], "", "", Env(map[], map[], 0, 0, 1, [], Some(e), ""), false, Live);
    var raised := s.(env := s.env.(pending := None));
    assert f.phase == InBody && f.catchWhen == w.index[id].kind.catchWhen;
    assert Handlers.TakenAt(w, raised.frames, e.code, 0);
    Handlers.PendingComesFirst(w, o, s);
    Handlers.RouteTaken(w, o, raised, e, 0);
    Handlers.HandledIsRaised(w, o, raised, e, "");
    assert FailingIn(w, id, s);
    hide Step, Raise, HandleError, Handlers.TakenAt, FailingIn;
  }
}
