// Running the frame machine on the flat graph of a structured program does what the
// recursive interpreter does: same nodes visited in the same order, same context, same ending.

module Refinement {
  import opened Json
  import opened Blueprint
  import opened Machine
  import opened MainLoop
  import opened Structured

  // ------------------------------------------------------------------ the flat image of a statement

  function Ids(ss: seq<Stmt>): (ids: seq<Id>)
    ensures |ids| == |ss|
    ensures forall i :: 0 <= i < |ss| ==> ids[i] == ss[i].id
  {
    seq(|ss|, i requires 0 <= i < |ss| => ss[i].id)
  }

  function NodeOf(s: Stmt, next: Option<Id>): Node {
    Node(s.id, next, None, s.enabled,
         match s
         case Task(_, _, terminal) => Leaf(terminal, [])
         case If(_, _, thenPart, elsePart) => Condition("", "", Ids(thenPart), Ids(elsePart))
         case Repeat(_, _, limit, onItemError, itemVar, indexVar, body) =>
           Loop(Ids(body), limit, onItemError, itemVar, indexVar)
         case Guarded(_, _, errorVar, body, handler, cleanup) =>
           Try(Ids(body), Ids(handler), Ids(cleanup), errorVar, map[]))
  }

  /** What the parser demands of a node's own fields. */
  predicate WellShaped(s: Stmt) {
    match s
    case Task(_, _, _) => true
    case If(_, _, thenPart, _) => thenPart != []
    case Repeat(_, _, limit, onItemError, _, _, body) =>
      body != [] && limit >= 1 && (onItemError == "fail" || onItemError == "continue" || onItemError == "retry")
    case Guarded(_, _, _, body, handler, cleanup) => body != [] && (handler != [] || cleanup != [])
  }

  ghost predicate Distinct(ids: seq<Id>) {
    forall i, j :: 0 <= i < j < |ids| ==> ids[i] != ids[j]
  }

  /** The graph holds `s` under its id with edge `next`, and everything nested in it with no edge at all. */
  ghost predicate Embedded(w: Workflow, s: Stmt, next: Option<Id>)
    decreases s, 1
  {
    && s.id != "" && s.id in w.index && w.index[s.id] == NodeOf(s, next) && WellShaped(s)
    && (match s
        case Task(_, _, _) => true
        case If(_, _, thenPart, elsePart) => EmbeddedBlock(w, thenPart) && EmbeddedBlock(w, elsePart)
        case Repeat(_, _, _, _, _, _, body) => EmbeddedBlock(w, body)
        case Guarded(_, _, _, body, handler, cleanup) =>
          EmbeddedBlock(w, body) && EmbeddedBlock(w, handler) && EmbeddedBlock(w, cleanup))
  }

  ghost predicate EmbeddedBlock(w: Workflow, ss: seq<Stmt>)
    decreases ss, 0
  {
    Distinct(Ids(ss)) && forall i :: 0 <= i < |ss| ==> Embedded(w, ss[i], None)
  }

  /** No node has an `on_error` handler, and no edge is the empty string. */
  ghost predicate GotoFree(w: Workflow) {
    && WellIndexed(w)
    && (forall id :: id in w.index ==> w.index[id].onError == None && w.index[id].next != Some(""))
  }

  // ------------------------------------------------------------------ plain stacks

  predicate PlainFrame(f: Frame) {
    && f.ids != [] && "" !in f.ids
    && !f.BranchFrame?
    && (f.TryFrame? ==> f.catchWhen == map[] && "" !in f.catchIds && "" !in f.finallyIds)
  }

  ghost predicate Plain(frames: seq<Frame>) {
    forall k :: 0 <= k < |frames| ==> PlainFrame(frames[k])
  }

  /** The nearest frame that recovers from errors is a loop that skips failing items. */
  function Skips(frames: seq<Frame>): bool {
    if frames == [] then false
    else
      var f := frames[|frames| - 1];
      if f.LoopFrame? && f.onItemError != "fail" then true
      else if f.TryFrame? && f.phase == InBody then false
      else Skips(frames[..|frames| - 1])
  }

  lemma {:induction false} SkipsIsRecovery(w: Workflow, frames: seq<Frame>, e: Error)
    requires Plain(frames)
    ensures Skips(frames) <==>
            RecoverDepth(w, frames, e) > 0 && frames[RecoverDepth(w, frames, e) - 1].LoopFrame?
  {
    if frames != [] && !Recovers(w, frames[|frames| - 1], e) {
      SkipsIsRecovery(w, frames[..|frames| - 1], e);
    }
  }

  predicate Running(s: State) {
    !s.finished && s.ending == Live
  }

  /** What a caller sees of a run. */
  function Report(w: Workflow, o: Oracle, s: State): (Env, Ending)
    requires GotoFree(w)
  {
    var t := Drive(w, o, s);
    (t.env, t.ending)
  }

  // ------------------------------------------------------------------ control always lands somewhere

  predicate Settled(t: State) {
    t.cursor != "" || t.finished
  }

  lemma {:induction false} AdvanceSettles(w: Workflow, o: Oracle, s: State, current: Id)
    requires GotoFree(w) && Plain(s.frames)
    ensures Settled(Advance(w, o, s, current))
    decreases StackWeight(s.frames), 3
  {
    if s.frames != [] {
      var f := Top(s);
      var k := IndexOf(f.ids, current);
      if Escapes(w, f, current) {
      } else if 0 <= k && k + 1 < |f.ids| {
        assert f.ids[k + 1] in f.ids;
      } else {
        FinishSettles(w, o, s, k >= 0);
      }
    }
  }

  lemma {:induction false} FinishSettles(w: Workflow, o: Oracle, s: State, atEnd: bool)
    requires GotoFree(w) && Plain(s.frames) && s.frames != []
    ensures Settled(FinishBody(w, o, s, atEnd))
    ensures Top(s).TryFrame? ==> FinishBody(w, o, s, atEnd) == AdvanceTryPhase(w, o, s)
    decreases StackWeight(s.frames), 2
  {
    var f := Top(s);
    WeightPrefix(s.frames, |s.frames| - 1);
    var below := s.frames[..|s.frames| - 1];
    assert Plain(below);
    match f
    case LoopFrame(_, _, _, _, _, _, _, _, _, _, _, _) =>
      TopLoopNext(w, o, s, "");
      PassSettles(w, o, s);
    case TryFrame(_, _, _, _, _, _, _, _, _, _) =>
      PhaseSettles(w, o, s);
    case BodyFrame(_, _, _, _, _) =>
      AdvanceSettles(w, o, Popped(s), f.node);
    case BranchFrame(_, _, _, _, _) =>
  }

  lemma {:induction false} PhaseSettles(w: Workflow, o: Oracle, s: State)
    requires GotoFree(w) && Plain(s.frames) && s.frames != [] && Top(s).TryFrame?
    ensures Settled(AdvanceTryPhase(w, o, s))
    decreases StackWeight(s.frames), 1
  {
    var f := Top(s);
    if f.phase != InFinally && f.finallyIds != [] {
      assert f.finallyIds[0] in f.finallyIds;
    } else if f.propagate.Some? {
      CloseSettles(w, o, s.(env := s.env.(pending := f.propagate,
                                        locals := s.env.locals["error" := ErrorJson(f.propagate.value)])));
    } else {
      CloseSettles(w, o, s);
    }
  }

  lemma {:induction false} CloseSettles(w: Workflow, o: Oracle, s: State)
    requires GotoFree(w) && Plain(s.frames) && s.frames != []
    ensures Settled(CloseFrame(w, o, s))
    decreases StackWeight(s.frames), 0
  {
    WeightPrefix(s.frames, |s.frames| - 1);
    assert Plain(Popped(s).frames);
    AdvanceSettles(w, o, Popped(s).(env := EraseLocals(s.env, Top(s)), current := Top(s).node), Top(s).node);
  }

  lemma TopLoopNext(w: Workflow, o: Oracle, s: State, name: Id)
    requires s.frames != [] && IsLoopFor(Top(s), name)
    ensures NextIteration(w, o, s, name) == Some(NextPass(w, o, s))
  {
    assert s.frames[..|s.frames|] == s.frames;
  }

  lemma {:induction false} PassSettles(w: Workflow, o: Oracle, s: State)
    requires GotoFree(w) && Plain(s.frames) && s.frames != [] && Top(s).LoopFrame?
    ensures Settled(NextPass(w, o, s))
    decreases StackWeight(s.frames), 1
  {
    var f := Top(s);
    assert f.ids[0] in f.ids;
    LeaveSettles(w, o, s, f);
    var r := o.guard(f.node, ViewOf(s.env, f.index));
    LeaveSettles(w, o, s.(env := After(s.env, r)), f);
  }

  lemma {:induction false} LeaveSettles(w: Workflow, o: Oracle, s: State, f: Frame)
    requires GotoFree(w) && Plain(s.frames) && s.frames != [] && f == Top(s)
    ensures Settled(LeaveLoop(w, o, s, f))
    decreases StackWeight(s.frames), 0
  {
    WeightPrefix(s.frames, |s.frames| - 1);
    assert Plain(Popped(s).frames);
    AdvanceSettles(w, o, Popped(s).(env := EraseLocals(s.env, f), current := f.node), f.node);
  }

  // ------------------------------------------------------------------ what it means to simulate a statement

  /** The machine's reaction, from `t`, to an outcome that leaves the enclosing bodies. */
  function Leave(w: Workflow, o: Oracle, t: State, out: Outcome): State {
    match out
    case Broke(name, at) => Break(w, o, t, name, at)
    case Continued(name, at) => ContinueLoop(w, o, t, name, at)
    case Raised(e, at) => Raise(w, o, t, e, at)
    case _ => t
  }

  /** The machine started in `m` reports what it would from `t`, where the outcome is about to take effect. */
  ghost predicate Simulates(w: Workflow, o: Oracle, m: State, t: State, done: State, r: (Outcome, Env))
    requires GotoFree(w)
  {
    match r.0
    case Jumped => true
    case Stopped(ending) => Report(w, o, m) == (r.1, ending)
    case Normal => Running(t) && t.env == r.1 && Report(w, o, m) == Report(w, o, done)
    case _ =>
      && Running(t) && t.env == r.1 && Report(w, o, m) == Report(w, o, Leave(w, o, t, r.0))
      && (r.0.Raised? ==> !Skips(t.frames))
  }

  predicate SameButPosition(f: Frame, g: Frame) {
    f == AtPosition(g, f.position)
  }

  lemma ReportStep(w: Workflow, o: Oracle, m: State)
    requires GotoFree(w) && !m.finished
    ensures Report(w, o, m) == Report(w, o, Step(w, o, m))
  {
  }

  lemma ReportFinished(w: Workflow, o: Oracle, s: State)
    requires GotoFree(w) && s.finished
    ensures Report(w, o, s) == (s.env, s.ending)
  {
  }

  /** With a skipping loop in reach, an error is the same as `continue` of the innermost loop. */
  lemma RaiseIsContinue(w: Workflow, o: Oracle, t: State, e: Error, at: Id)
    requires GotoFree(w) && Plain(t.frames) && Skips(t.frames)
    ensures Raise(w, o, t, e, at) == ContinueLoop(w, o, t, "", at)
  {
    SkipsIsRecovery(w, t.frames, e);
    assert IsLoopFor(t.frames[RecoverDepth(w, t.frames, e) - 1], "");
  }

  lemma RaiseLeaves(w: Workflow, o: Oracle, t: State, e: Error, at: Id)
    requires GotoFree(w) && Plain(t.frames)
    ensures Raise(w, o, t, e, at) == Leave(w, o, t, RaiseIn(e, at, Skips(t.frames)))
  {
    if Skips(t.frames) {
      RaiseIsContinue(w, o, t, e, at);
    }
  }

  /** Equal states, or two finished runs that look the same to the caller. */
  predicate Alike(a: State, b: State) {
    a == b || (a.finished && b.finished && a.env == b.env && a.ending == b.ending)
  }

  lemma AlikeReports(w: Workflow, o: Oracle, a: State, b: State)
    requires GotoFree(w) && Alike(a, b)
    ensures Report(w, o, a) == Report(w, o, b)
  {
  }

  lemma NoHandler(w: Workflow, id: Id)
    requires GotoFree(w)
    ensures !HasHandler(w, id)
  {
  }

  lemma DropForBreak(w: Workflow, o: Oracle, t: State, name: Id, at: Id)
    requires t.frames != [] && !IsLoopFor(Top(t), name)
    ensures Alike(Break(w, o, t, name, at), Break(w, o, Popped(t), name, at))
  {
    hide CloseFrame;
    var rest := t.frames[..|t.frames| - 1];
    var d := LoopDepth(rest, name);
    assert LoopDepth(t.frames, name) == d;
    assert t.frames[..d] == rest[..d];
  }

  lemma DropForContinue(w: Workflow, o: Oracle, t: State, name: Id, at: Id)
    requires t.frames != [] && !IsLoopFor(Top(t), name)
    ensures Alike(ContinueLoop(w, o, t, name, at), ContinueLoop(w, o, Popped(t), name, at))
  {
    hide NextPass;
    var rest := t.frames[..|t.frames| - 1];
    var d := LoopDepth(rest, name);
    assert LoopDepth(t.frames, name) == d;
    assert t.frames[..d] == rest[..d];
  }

  lemma SkipsBelow(t: State)
    requires t.frames != [] && !Skips(t.frames) && !(Top(t).TryFrame? && Top(t).phase == InBody)
    ensures !Skips(Popped(t).frames)
  {
  }

  lemma SameRecovery(w: Workflow, t: State, e: Error)
    requires Plain(t.frames) && t.frames != [] && !Skips(t.frames) && !(Top(t).TryFrame? && Top(t).phase == InBody)
    ensures var d := RecoverDepth(w, t.frames, e);
            && d == RecoverDepth(w, Popped(t).frames, e) && d <= |t.frames| - 1
            && t.frames[..d] == Popped(t).frames[..d]
            && (d > 0 ==> !t.frames[d - 1].LoopFrame?)
  {
    SkipsIsRecovery(w, t.frames, e);
  }

  lemma DropForRaise(w: Workflow, o: Oracle, t: State, e: Error, at: Id)
    requires !HasHandler(w, t.current) && Plain(t.frames) && t.frames != [] && !Skips(t.frames)
    requires !(Top(t).TryFrame? && Top(t).phase == InBody)
    ensures Alike(Raise(w, o, t, e, at), Raise(w, o, Popped(t), e, at))
    ensures !Skips(Popped(t).frames)
  {
    hide RecoverInTry, RecoverDepth, Recovers, Skips, NextIteration, Plain, HasHandler, ResolveJump;
    SkipsBelow(t);
    SameRecovery(w, t, e);
  }

  /** A frame the outcome does not concern is dropped without effect. */
  lemma DropFrame(w: Workflow, o: Oracle, t: State, out: Outcome)
    requires GotoFree(w) && Plain(t.frames) && t.frames != []
    requires out.Broke? || out.Continued? || out.Raised?
    requires out.Broke? ==> !IsLoopFor(Top(t), out.loop)
    requires out.Continued? ==> !IsLoopFor(Top(t), out.loop)
    requires out.Raised? ==> !Skips(t.frames) && !(Top(t).TryFrame? && Top(t).phase == InBody)
    ensures Report(w, o, Leave(w, o, t, out)) == Report(w, o, Leave(w, o, Popped(t), out))
    ensures out.Raised? ==> !Skips(Popped(t).frames)
  {
    hide Report, Break, ContinueLoop, Raise, Skips, Plain, GotoFree, Alike;
    match out {
      case Broke(name, at) => DropForBreak(w, o, t, name, at);
      case Continued(name, at) => DropForContinue(w, o, t, name, at);
      case Raised(e, at) => NoHandler(w, t.current); DropForRaise(w, o, t, e, at);
    }
    AlikeReports(w, o, Leave(w, o, t, out), Leave(w, o, Popped(t), out));
  }

  lemma EnterBlock(w: Workflow, s: State, f: Frame)
    requires PlainFrame(f) && f.position == 0
    requires f.LoopFrame? ==> s.env == BindIteration(s.env, f)
    ensures EnterBody(s, f) == s.(frames := s.frames + [f], cursor := f.ids[0])
  {
    assert f.ids[0] in f.ids;
    assert JumpDepth(s.frames + [f], f.ids[0]) == |s.frames| + 1;
    assert (s.frames + [f])[..|s.frames|] == s.frames;
  }

  lemma SkipsPush(frames: seq<Frame>, f: Frame)
    ensures Skips(frames + [f]) ==
            ((f.LoopFrame? && f.onItemError != "fail") || (!(f.TryFrame? && f.phase == InBody) && Skips(frames)))
  {
    assert (frames + [f])[..|frames + [f]| - 1] == frames;
  }

  lemma BlockIsPlain(w: Workflow, ss: seq<Stmt>)
    requires EmbeddedBlock(w, ss)
    ensures "" !in Ids(ss)
  {
  }

  // ------------------------------------------------------------------ the simulation

  /** The state in which the node of `s` runs. */
  function Activated(m: State, id: Id): State {
    m.(current := id, env := CountVisit(m.env, id))
  }

  function Overspent(m: State, id: Id): State {
    Fail(m.(current := id, env := m.env.(visits := m.env.visits + 1)), LimitError(id))
  }

  lemma StepAt(w: Workflow, o: Oracle, s: Stmt, next: Option<Id>, m: State)
    requires GotoFree(w) && Embedded(w, s, next) && !m.finished && m.cursor == s.id
    ensures Step(w, o, m) ==
            if m.env.pending.Some? then Raise(w, o, m.(env := m.env.(pending := None)), m.env.pending.value, "")
            else if m.env.visits + 1 > m.env.budget then Overspent(m, s.id)
            else if !s.enabled then Advance(w, o, Activated(m, s.id), s.id)
            else if s.Task? then StepLeaf(w, o, Activated(m, s.id), NodeOf(s, next))
            else if s.If? then StepCondition(w, o, Activated(m, s.id), NodeOf(s, next))
            else if s.Repeat? then StepLoop(w, o, Activated(m, s.id), NodeOf(s, next))
            else EnterBody(Activated(m, s.id), TryFrameFor(NodeOf(s, next)))
  {
    hide Raise, Advance, StepLeaf, StepCondition, StepLoop, EnterBody, EmbeddedBlock, Fail;
  }

  lemma {:induction false} SimStmt(w: Workflow, o: Oracle, s: Stmt, next: Option<Id>, m: State)
    returns (t: State)
    requires GotoFree(w) && Embedded(w, s, next) && Plain(m.frames) && Running(m) && m.cursor == s.id
    requires next.Some? ==> m.frames == []
    ensures t.frames == m.frames
    ensures Simulates(w, o, m, t, Advance(w, o, t, s.id), Exec(o, s, m.env, Skips(m.frames), Iteration(m.frames)))
    decreases s, 3, 0
  {
    hide Report, Step, Raise, Advance, StepLeaf, StepCondition, StepLoop, EnterBody, Embedded, Skips, WellIndexed;
    hide ExecTask, ExecIf, ExecRepeat, ExecGuarded, Leave;
    ReportStep(w, o, m);
    StepAt(w, o, s, next, m);
    if m.env.pending.Some? {
      t := m.(env := m.env.(pending := None));
      RaiseLeaves(w, o, t, m.env.pending.value, "");
    } else if m.env.visits + 1 > m.env.budget {
      t := m;
      ReportFinished(w, o, Overspent(m, s.id));
    } else {
      t := Activated(m, s.id);
      if s.enabled {
        match s
        case Task(_, _, _) => t := SimTask(w, o, s, next, t);
        case If(_, _, _, _) => t := SimIf(w, o, s, next, t);
        case Repeat(_, _, _, _, _, _, _) => t := SimRepeat(w, o, s, next, t);
        case Guarded(_, _, _, _, _, _) => t := SimGuarded(w, o, s, next, t);
      }
    }
  }

  lemma SimTask(w: Workflow, o: Oracle, s: Stmt, next: Option<Id>, m: State) returns (t: State)
    requires GotoFree(w) && Embedded(w, s, next) && s.Task? && Plain(m.frames) && Running(m) && m.cursor == s.id
    ensures t.frames == m.frames
    ensures Simulates(w, o, StepLeaf(w, o, m, NodeOf(s, next)), t, Advance(w, o, t, s.id),
                      ExecTask(o, s.id, m.env, Skips(m.frames), Iteration(m.frames)))
  {
    hide Report, Advance, Raise, Break, ContinueLoop, Skips, Iteration, Embedded, WellIndexed, ForgetAnswer;
    var r := o.leaf(s.id, ViewOf(m.env, Iteration(m.frames)));
    t := m.(env := After(m.env, r));
    match r.result
    case Err(e) => RaiseLeaves(w, o, t, e, s.id);
    case Ok(signal) =>
      t := t.(env := ForgetAnswer(t.env, s.id));
      match signal {
        case Suspend(request) =>
          ReportFinished(w, o, Halt(t.(cursor := ResumeCursor(NodeOf(s, next), request)), SuspendEnding(request)));
        case Terminate(_, _, _) => ReportFinished(w, o, Halt(t, TerminateEnding(signal, s.id)));
        case _ =>
      }
  }

  /** Inside a body, control steps to the sibling; after the last one the frame completes. */
  lemma AdvanceSibling(w: Workflow, o: Oracle, ss: seq<Stmt>, i: nat, t: State)
    requires EmbeddedBlock(w, ss) && i < |ss| && t.frames != [] && Top(t).ids == Ids(ss)
    ensures Advance(w, o, t, ss[i].id) ==
            if i + 1 < |ss| then WithTop(t, AtPosition(Top(t), i + 1)).(cursor := ss[i + 1].id)
            else FinishBody(w, o, t, true)
  {
    hide FinishBody;
    assert Embedded(w, ss[i], None);
  }

  lemma SamePositions(f: Frame, g: Frame, k: int)
    ensures SameButPosition(f, f) && AtPosition(f, k).ids == f.ids
    ensures SameButPosition(AtPosition(f, k), g) ==> SameButPosition(f, g)
  {
  }

  /** Stepping to the next sibling changes nothing below the top frame. */
  lemma SiblingState(t: State, k: int)
    requires Plain(t.frames) && t.frames != []
    ensures var t' := WithTop(t, AtPosition(Top(t), k));
            && Plain(t'.frames) && t'.frames != [] && Popped(t').frames == Popped(t).frames
            && Top(t') == AtPosition(Top(t), k)
            && Skips(t'.frames) == Skips(t.frames) && Iteration(t'.frames) == Iteration(t.frames)
  {
    SkipsPush(Popped(t).frames, Top(t));
    SkipsPush(Popped(t).frames, AtPosition(Top(t), k));
    assert t.frames == Popped(t).frames + [Top(t)];
  }

  lemma {:induction false} SimFrom(w: Workflow, o: Oracle, ss: seq<Stmt>, i: nat, m: State) returns (t: State)
    requires GotoFree(w) && EmbeddedBlock(w, ss) && i < |ss|
    requires Plain(m.frames) && Running(m) && m.frames != [] && Top(m).ids == Ids(ss) && m.cursor == ss[i].id
    ensures t.frames != [] && Popped(t).frames == Popped(m).frames && SameButPosition(Top(m), Top(t))
    ensures Simulates(w, o, m, t, FinishBody(w, o, t, true),
                      ExecFrom(o, ss, i, m.env, Skips(m.frames), Iteration(m.frames)))
    decreases ss, 0, |ss| - i
  {
    hide Report, Leave, FinishBody, Advance, Exec, GotoFree, Embedded, Skips, Plain, Iteration;
    hide AtPosition, SameButPosition;
    SamePositions(Top(m), Top(m), Top(m).position);
    t := SimStmt(w, o, ss[i], None, m);
    if Exec(o, ss[i], m.env, Skips(m.frames), Iteration(m.frames)).0.Normal? {
      AdvanceSibling(w, o, ss, i, t);
      if i + 1 < |ss| {
        SiblingState(t, i + 1);
        var m' := WithTop(t, AtPosition(Top(t), i + 1)).(cursor := ss[i + 1].id);
        SamePositions(Top(t), Top(t), i + 1);
        t := SimFrom(w, o, ss, i + 1, m');
        SamePositions(Top(m), Top(t), i + 1);
      }
    }
  }

  lemma NothingToDo(o: Oracle, ss: seq<Stmt>, env: Env, skips: bool, it: int)
    requires ss == []
    ensures ExecFrom(o, ss, 0, env, skips, it) == (Normal, env)
  {
  }

  /** Outcomes that leave the top frame of `t` on their way out. */
  predicate LeavesTop(t: State, out: Outcome)
    requires t.frames != []
  {
    match out
    case Broke(name, _) => !IsLoopFor(Top(t), name)
    case Continued(name, _) => !IsLoopFor(Top(t), name)
    case Raised(_, _) => !(Top(t).TryFrame? && Top(t).phase == InBody)
    case _ => true
  }

  /** A simulated body is a simulated statement once its frame is known to give way. */
  lemma PopSimulation(w: Workflow, o: Oracle, m: State, t: State, done: State, done': State, r: (Outcome, Env))
    requires GotoFree(w) && Plain(t.frames) && t.frames != [] && Simulates(w, o, m, t, done, r)
    requires r.0.Normal? ==> Report(w, o, done) == Report(w, o, done')
    requires LeavesTop(t, r.0)
    ensures Simulates(w, o, m, Popped(t), done', r)
  {
    hide Report, Leave, Plain, GotoFree;
    if r.0.Broke? || r.0.Continued? || r.0.Raised? {
      DropFrame(w, o, t, r.0);
    }
  }

  /** The end of a condition's body is the end of the condition. */
  lemma BodyEnds(w: Workflow, o: Oracle, s: Stmt, next: Option<Id>, t: State)
    requires t.frames != [] && Top(t).BodyFrame? && Top(t).node == s.id
    requires Top(t).resume == ResumeTarget(NodeOf(s, next)) && next != Some("")
    requires s.id in w.index && w.index[s.id] == NodeOf(s, next)
    requires next.Some? ==> Popped(t).frames == []
    ensures FinishBody(w, o, t, true) == Advance(w, o, Popped(t), s.id)
  {
  }

  function EnteredBlock(t: State, f: Frame): State
    requires f.ids != []
  {
    t.(frames := t.frames + [f], cursor := f.ids[0])
  }

  lemma {:induction false} SimBlock(w: Workflow, o: Oracle, ss: seq<Stmt>, t: State, f: Frame) returns (t1: State)
    requires GotoFree(w) && EmbeddedBlock(w, ss) && ss != [] && Plain(t.frames) && Running(t)
    requires f.ids == Ids(ss) && PlainFrame(f)
    ensures t1.frames != [] && Popped(t1).frames == t.frames && SameButPosition(f, Top(t1))
    ensures Plain(t1.frames)
    ensures Simulates(w, o, EnteredBlock(t, f), t1, FinishBody(w, o, t1, true),
                      ExecFrom(o, ss, 0, t.env, Skips(t.frames + [f]), if f.LoopFrame? then f.index else -1))
    decreases ss, 1, 0
  {
    hide Report, Leave, FinishBody, Simulates, ExecFrom, GotoFree, EmbeddedBlock, Skips;
    var m := EnteredBlock(t, f);
    assert Top(m) == f && Popped(m).frames == t.frames;
    t1 := SimFrom(w, o, ss, 0, m);
    assert t1.frames == Popped(t1).frames + [Top(t1)];
  }

  lemma StepIf(w: Workflow, o: Oracle, s: Stmt, next: Option<Id>, m: State)
    requires GotoFree(w) && Embedded(w, s, next) && s.If?
    ensures var r := o.branch(s.id, ViewOf(m.env, Iteration(m.frames)));
            var t := m.(env := After(m.env, r));
            StepCondition(w, o, m, NodeOf(s, next)) ==
            if r.result.Err? then Raise(w, o, t, r.result.error, s.id)
            else
              var body := if r.result.value then s.thenPart else s.elsePart;
              if body == [] then Advance(w, o, t, s.id)
              else EnteredBlock(t, BodyFrame(s.id, Ids(body), 0, ResumeTarget(NodeOf(s, next)), r.result.value))
  {
    hide Raise, Advance, GotoFree, EnterBody;
    var r := o.branch(s.id, ViewOf(m.env, Iteration(m.frames)));
    if r.result.Ok? {
      var body := if r.result.value then s.thenPart else s.elsePart;
      if body != [] {
        BlockIsPlain(w, body);
        EnterBlock(w, m.(env := After(m.env, r)),
                   BodyFrame(s.id, Ids(body), 0, ResumeTarget(NodeOf(s, next)), r.result.value));
      }
    }
  }

  lemma {:induction false} SimIf(w: Workflow, o: Oracle, s: Stmt, next: Option<Id>, m: State) returns (t: State)
    requires GotoFree(w) && Embedded(w, s, next) && s.If? && Plain(m.frames) && Running(m) && m.cursor == s.id
    requires next.Some? ==> m.frames == []
    ensures t.frames == m.frames
    ensures Simulates(w, o, StepCondition(w, o, m, NodeOf(s, next)), t, Advance(w, o, t, s.id),
                      ExecIf(o, s, m.env, Skips(m.frames), Iteration(m.frames)))
    decreases s, 2, 0
  {
    hide Report, Leave, Advance, FinishBody, ExecFrom, WellIndexed, EnterBody, Skips, Raise, StepCondition;
    StepIf(w, o, s, next, m);
    var r := o.branch(s.id, ViewOf(m.env, Iteration(m.frames)));
    t := m.(env := After(m.env, r));
    if r.result.Err? {
      RaiseLeaves(w, o, t, r.result.error, s.id);
      return;
    }
    var body := if r.result.value then s.thenPart else s.elsePart;
    if body != [] {
      var f := BodyFrame(s.id, Ids(body), 0, ResumeTarget(NodeOf(s, next)), r.result.value);
      BlockIsPlain(w, body);
      SkipsPush(m.frames, f);
      var t1 := SimBlock(w, o, body, t, f);
      BodyEnds(w, o, s, next, t1);
      t := Popped(t1);
      PopSimulation(w, o, EnteredBlock(m.(env := After(m.env, r)), f), t1, FinishBody(w, o, t1, true),
                    Advance(w, o, t, s.id), ExecFrom(o, body, 0, After(m.env, r), Skips(m.frames), -1));
    } else {
      NothingToDo(o, body, t.env, Skips(m.frames), -1);
    }
  }

  // ------------------------------------------------------------------ loops

  /** The frame of pass `k`. */
  function PassFrame(s: Stmt, next: Option<Id>, items: Option<seq<Json>>, k: int): Frame
    requires s.Repeat?
  {
    LoopFrame(s.id, Ids(s.body), 0, ResumeTarget(NodeOf(s, next)), items.None?,
              if items.Some? then items.value else [], k,
              if items.Some? then |items.value| else s.limit, s.limit, s.itemVar, s.indexVar, s.onItemError)
  }

  lemma BindAgrees(env: Env, s: Stmt, next: Option<Id>, items: Option<seq<Json>>, k: int)
    requires s.Repeat?
    ensures BindIteration(env, PassFrame(s, next, items, k)) == BindPass(env, s, items, k)
    ensures BindIteration(BindPass(env, s, items, k), PassFrame(s, next, items, k)) == BindPass(env, s, items, k)
  {
    var f := PassFrame(s, next, items, k);
    var once := BindLocals(env.locals, f);
    assert BindLocals(once, f) == once;
  }

  lemma StepRepeat(w: Workflow, o: Oracle, s: Stmt, next: Option<Id>, m: State)
    requires GotoFree(w) && Embedded(w, s, next) && s.Repeat?
    ensures var r := o.items(s.id, ViewOf(m.env, Iteration(m.frames)));
            var t := m.(env := After(m.env, r));
            StepLoop(w, o, m, NodeOf(s, next)) ==
            if r.result.Err? then Raise(w, o, t, r.result.error, s.id)
            else if r.result.value == Some([]) then Advance(w, o, t, s.id)
            else EnteredBlock(t.(env := BindPass(t.env, s, r.result.value, 0)), PassFrame(s, next, r.result.value, 0))
  {
    hide Raise, Advance, GotoFree, EnterBody, BindIteration, BindPass;
    var r := o.items(s.id, ViewOf(m.env, Iteration(m.frames)));
    var t := m.(env := After(m.env, r));
    if r.result.Ok? && r.result.value != Some([]) {
      var items := r.result.value;
      BindAgrees(t.env, s, next, items, 0);
      BlockIsPlain(w, s.body);
      EnterBlock(w, t.(env := BindPass(t.env, s, items, 0)), PassFrame(s, next, items, 0));
    }
  }

  /** The machine once the loop `s`, whose frame is on top of `t1`, is left with environment `env`. */
  function LeftLoop(t1: State, s: Stmt, env: Env): State
    requires s.Repeat? && t1.frames != []
  {
    Popped(t1).(env := UnbindPass(env, s), current := s.id)
  }

  lemma LeftAlike(t1: State, t2: State, s: Stmt)
    requires s.Repeat? && t1.frames != [] && t2 == t1.(env := t2.env)
    ensures LeftLoop(t1, s, t2.env) == LeftLoop(t2, s, t2.env)
  {
  }

  /** Entering the next pass, and leaving the loop, seen from the pass that ended. */
  lemma EnterPassIs(s: Stmt, next: Option<Id>, items: Option<seq<Json>>, k: nat, t1: State)
    requires s.Repeat? && s.body != [] && t1.frames != [] && k + 1 < Passes(s, items)
    requires Top(t1) == AtPosition(PassFrame(s, next, items, k), Top(t1).position)
    ensures var f := Top(t1);
            && f.LoopFrame? && f.index + 1 < f.cap && f.index + 1 < f.total
            && EnterPass(t1, f) ==
               EnteredBlock(Popped(t1).(env := BindPass(t1.env, s, items, k + 1)), PassFrame(s, next, items, k + 1))
  {
    hide BindIteration, BindPass;
    BindAgrees(t1.env, s, next, items, k + 1);
  }

  lemma LeavePassIs(w: Workflow, o: Oracle, s: Stmt, t1: State)
    requires s.Repeat? && t1.frames != [] && Top(t1).LoopFrame? && Top(t1).node == s.id
    requires Top(t1).itemVar == s.itemVar && Top(t1).indexVar == s.indexVar
    ensures LeaveLoop(w, o, t1, Top(t1)) == Advance(w, o, LeftLoop(t1, s, t1.env), s.id)
  {
    hide Advance;
  }

  lemma AfterPass(w: Workflow, o: Oracle, s: Stmt, next: Option<Id>, items: Option<seq<Json>>, k: nat, t1: State)
    requires s.id in w.index && w.index[s.id].kind.Loop? && s.Repeat? && s.body != [] && t1.frames != []
    requires Top(t1) == AtPosition(PassFrame(s, next, items, k), Top(t1).position)
    ensures NextPass(w, o, t1) ==
            if k + 1 >= Passes(s, items) then Advance(w, o, LeftLoop(t1, s, t1.env), s.id)
            else if items.Some? then
              EnteredBlock(Popped(t1).(env := BindPass(t1.env, s, items, k + 1)), PassFrame(s, next, items, k + 1))
            else
              var r := o.guard(s.id, ViewOf(t1.env, k));
              var env := After(t1.env, r);
              if r.result.Err? then Halt(t1.(env := env), Live.(thrown := Some(r.result.error)))
              else if r.result.value then
                EnteredBlock(Popped(t1).(env := BindPass(env, s, items, k + 1)), PassFrame(s, next, items, k + 1))
              else Advance(w, o, LeftLoop(t1, s, env), s.id)
  {
    hide Advance, BindPass, LeaveLoop, EnterPass, EnteredBlock, LeftLoop, ViewOf;
    var t2 := t1.(env := After(t1.env, o.guard(s.id, ViewOf(t1.env, k))));
    LeavePassIs(w, o, s, t1);
    LeavePassIs(w, o, s, t2);
    LeftAlike(t1, t2, s);
    if k + 1 < Passes(s, items) {
      EnterPassIs(s, next, items, k, t1);
      EnterPassIs(s, next, items, k, t2);
    }
  }

  /** `break` and `continue` of the loop on top act on its frame. */
  lemma TopLoopTakes(w: Workflow, o: Oracle, s: Stmt, t1: State, name: Id, at: Id)
    requires s.Repeat? && t1.frames != [] && Top(t1).LoopFrame? && Top(t1).node == s.id && NamesLoop(name, s)
    requires Top(t1).itemVar == s.itemVar && Top(t1).indexVar == s.indexVar
    ensures ContinueLoop(w, o, t1, name, at) == NextPass(w, o, t1)
    ensures FinishBody(w, o, t1, true) == NextPass(w, o, t1)
    ensures Break(w, o, t1, name, at) == Advance(w, o, LeftLoop(t1, s, t1.env), s.id)
  {
    hide Advance, NextPass;
    TopLoopNext(w, o, t1, name);
    TopLoopNext(w, o, t1, "");
    assert LoopDepth(t1.frames, name) == |t1.frames|;
    assert t1.frames[..|t1.frames|] == t1.frames;
  }

  lemma {:induction false} SimPasses(w: Workflow, o: Oracle, s: Stmt, next: Option<Id>,
                                     items: Option<seq<Json>>, k: nat, t0: State) returns (t: State)
    requires GotoFree(w) && Embedded(w, s, next) && s.Repeat? && Plain(t0.frames) && Running(t0)
    requires k < Passes(s, items)
    ensures t.frames == t0.frames
    ensures Simulates(w, o, EnteredBlock(t0, PassFrame(s, next, items, k)), t, Advance(w, o, t, s.id),
                      ExecPasses(o, s, items, k, t0.env, Skips(t0.frames)))
    decreases s, 1, Passes(s, items) - k, 1
  {
    hide Report, Advance, NextPass, FinishBody, ExecFrom, ExecNextPass, WellIndexed, Skips;
    hide Break, ContinueLoop, Raise, BindPass, UnbindPass;
    var f := PassFrame(s, next, items, k);
    BlockIsPlain(w, s.body);
    SkipsPush(t0.frames, f);
    var t1 := SimBlock(w, o, s.body, t0, f);
    var r := ExecFrom(o, s.body, 0, t0.env, Skips(t0.frames + [f]), k);
    if KeepsLooping(r.0, s) {
      t := SimNextPass(w, o, s, next, items, k, t1);
      TopLoopTakes(w, o, s, t1, if r.0.Normal? then "" else r.0.loop, if r.0.Normal? then "" else r.0.at);
    } else if r.0.Broke? && NamesLoop(r.0.loop, s) {
      TopLoopTakes(w, o, s, t1, r.0.loop, r.0.at);
      t := LeftLoop(t1, s, t1.env);
    } else {
      t := Popped(t1);
      PopSimulation(w, o, EnteredBlock(t0, f), t1, FinishBody(w, o, t1, true), Advance(w, o, t, s.id), r);
    }
  }

  lemma {:induction false} SimNextPass(w: Workflow, o: Oracle, s: Stmt, next: Option<Id>,
                                       items: Option<seq<Json>>, k: nat, t1: State) returns (t: State)
    requires GotoFree(w) && Embedded(w, s, next) && s.Repeat? && Plain(t1.frames) && Running(t1)
    requires k < Passes(s, items) && t1.frames != []
    requires Top(t1) == AtPosition(PassFrame(s, next, items, k), Top(t1).position)
    ensures t.frames == Popped(t1).frames
    ensures Simulates(w, o, NextPass(w, o, t1), t, Advance(w, o, t, s.id),
                      ExecNextPass(o, s, items, k, t1.env, Skips(Popped(t1).frames)))
    decreases s, 1, Passes(s, items) - k, 0
  {
    hide Report, Advance, NextPass, ExecPasses, WellIndexed, Skips, BindPass, UnbindPass, EmbeddedBlock;
    AfterPass(w, o, s, next, items, k, t1);
    if k + 1 >= Passes(s, items) {
      t := LeftLoop(t1, s, t1.env);
    } else if items.Some? {
      t := SimPasses(w, o, s, next, items, k + 1, Popped(t1).(env := BindPass(t1.env, s, items, k + 1)));
    } else {
      var r := o.guard(s.id, ViewOf(t1.env, k));
      var env := After(t1.env, r);
      if r.result.Err? {
        t := Popped(t1);
        ReportFinished(w, o, Halt(t1.(env := env), Live.(thrown := Some(r.result.error))));
      } else if r.result.value {
        t := SimPasses(w, o, s, next, items, k + 1, Popped(t1).(env := BindPass(env, s, items, k + 1)));
      } else {
        t := LeftLoop(t1, s, env);
      }
    }
  }

  lemma {:induction false} SimRepeat(w: Workflow, o: Oracle, s: Stmt, next: Option<Id>, m: State) returns (t: State)
    requires GotoFree(w) && Embedded(w, s, next) && s.Repeat? && Plain(m.frames) && Running(m) && m.cursor == s.id
    ensures t.frames == m.frames
    ensures Simulates(w, o, StepLoop(w, o, m, NodeOf(s, next)), t, Advance(w, o, t, s.id),
                      ExecRepeat(o, s, m.env, Skips(m.frames), Iteration(m.frames)))
    decreases s, 2, 0
  {
    hide Report, Leave, Advance, ExecPasses, WellIndexed, Skips, Raise, StepLoop, BindPass;
    StepRepeat(w, o, s, next, m);
    var r := o.items(s.id, ViewOf(m.env, Iteration(m.frames)));
    t := m.(env := After(m.env, r));
    if r.result.Err? {
      RaiseLeaves(w, o, t, r.result.error, s.id);
    } else if r.result.value != Some([]) {
      var items := r.result.value;
      t := SimPasses(w, o, s, next, items, 0, t.(env := BindPass(t.env, s, items, 0)));
    }
  }

  // ------------------------------------------------------------------ tries

  function TryFrameOf(s: Stmt, next: Option<Id>): Frame
    requires s.Guarded?
  {
    TryFrame(s.id, Ids(s.body), 0, ResumeTarget(NodeOf(s, next)), InBody, Ids(s.handler), Ids(s.cleanup),
             s.errorVar, map[], None)
  }

  /** The try frame of `s` in a later phase. */
  function PhaseFrame(s: Stmt, next: Option<Id>, phase: Phase, block: seq<Stmt>, parked: Option<Error>): Frame
    requires s.Guarded?
  {
    TryFrame(s.id, Ids(block), 0, ResumeTarget(NodeOf(s, next)), phase, Ids(s.handler), Ids(s.cleanup),
             s.errorVar, map[], parked)
  }

  lemma PhaseFrameIsPlain(w: Workflow, s: Stmt, next: Option<Id>, phase: Phase, block: seq<Stmt>, parked: Option<Error>)
    requires Embedded(w, s, next) && s.Guarded? && block != []
    requires block == s.body || block == s.handler || block == s.cleanup
    ensures PlainFrame(PhaseFrame(s, next, phase, block, parked)) && EmbeddedBlock(w, block)
    ensures PhaseFrame(s, next, InBody, s.body, None) == TryFrameOf(s, next)
  {
    hide EmbeddedBlock;
    BlockIsPlain(w, s.body);
    BlockIsPlain(w, s.handler);
    BlockIsPlain(w, s.cleanup);
  }

  function ClosedTry(t1: State, env: Env, s: Stmt): State
    requires t1.frames != []
  {
    Popped(t1).(env := env.(locals := env.locals - {"iteration"}), current := s.id)
  }

  /** What the end of a phase leads to. */
  lemma PhaseEnds(w: Workflow, o: Oracle, s: Stmt, next: Option<Id>, phase: Phase, block: seq<Stmt>,
                  parked: Option<Error>, t1: State)
    requires s.Guarded? && t1.frames != []
    requires Top(t1) == AtPosition(PhaseFrame(s, next, phase, block, parked), Top(t1).position)
    ensures var env := if parked.None? then t1.env
                       else t1.env.(pending := parked, locals := t1.env.locals["error" := ErrorJson(parked.value)]);
            AdvanceTryPhase(w, o, t1) ==
            if phase != InFinally && s.cleanup != [] then
              EnteredBlock(Popped(t1), PhaseFrame(s, next, InFinally, s.cleanup, parked))
            else Advance(w, o, ClosedTry(t1, env, s), s.id)
  {
    hide Advance;
    assert ErasedNames(Top(t1)) == {"iteration"};
    assert (s.cleanup == []) == (Ids(s.cleanup) == []);
  }

  /** An error reaches the try whose body is running. */
  lemma TryCatches(w: Workflow, o: Oracle, s: Stmt, next: Option<Id>, t1: State, e: Error, at: Id)
    requires !HasHandler(w, t1.current) && s.Guarded? && WellShaped(s) && t1.frames != []
    requires Top(t1) == AtPosition(TryFrameOf(s, next), Top(t1).position)
    ensures Raise(w, o, t1, e, at) ==
            if s.handler != [] then
              EnteredBlock(Popped(t1).(env := BindError(t1.env, s.errorVar, e)),
                           PhaseFrame(s, next, InCatch, s.handler, None))
            else EnteredBlock(Popped(t1), PhaseFrame(s, next, InFinally, s.cleanup, Some(e)))
  {
    hide BindError, HasHandler;
    assert RecoverDepth(w, t1.frames, e) == |t1.frames|;
    assert t1.frames[..|t1.frames|] == t1.frames;
    assert (s.handler == []) == (Ids(s.handler) == []);
    assert (s.cleanup == []) == (Ids(s.cleanup) == []);
  }

  lemma {:induction false} SimFinally(w: Workflow, o: Oracle, s: Stmt, next: Option<Id>, parked: Option<Error>,
                                      t0: State)
    returns (t: State)
    requires GotoFree(w) && Embedded(w, s, next) && s.Guarded? && Plain(t0.frames) && Running(t0) && s.cleanup != []
    ensures t.frames == t0.frames
    ensures Simulates(w, o, EnteredBlock(t0, PhaseFrame(s, next, InFinally, s.cleanup, parked)), t,
                      Advance(w, o, t, s.id), ExecCleanup(o, s, t0.env, Skips(t0.frames), parked))
    decreases s, 1, 0
  {
    hide Report, Leave, Advance, FinishBody, AdvanceTryPhase, ExecFrom, WellIndexed, Skips, Embedded, EmbeddedBlock;
    var f := PhaseFrame(s, next, InFinally, s.cleanup, parked);
    PhaseFrameIsPlain(w, s, next, InFinally, s.cleanup, parked);
    SkipsPush(t0.frames, f);
    var t1 := SimBlock(w, o, s.cleanup, t0, f);
    var r := ExecFrom(o, s.cleanup, 0, t0.env, Skips(t0.frames), -1);
    if r.0.Normal? {
      FinishSettles(w, o, t1, true);
      PhaseEnds(w, o, s, next, InFinally, s.cleanup, parked, t1);
      t := ClosedTry(t1, if parked.None? then t1.env
                         else t1.env.(pending := parked,
                                      locals := t1.env.locals["error" := ErrorJson(parked.value)]), s);
    } else {
      t := Popped(t1);
      PopSimulation(w, o, EnteredBlock(t0, f), t1, FinishBody(w, o, t1, true), Advance(w, o, t, s.id), r);
    }
  }

  /** The body or the handler has ended normally. */
  lemma {:induction false} SimPhaseEnd(w: Workflow, o: Oracle, s: Stmt, next: Option<Id>, phase: Phase,
                                       block: seq<Stmt>, t1: State) returns (t: State)
    requires GotoFree(w) && Embedded(w, s, next) && s.Guarded? && Plain(t1.frames) && Running(t1) && t1.frames != []
    requires phase != InFinally
    requires Top(t1) == AtPosition(PhaseFrame(s, next, phase, block, None), Top(t1).position)
    ensures t.frames == Popped(t1).frames
    ensures Simulates(w, o, FinishBody(w, o, t1, true), t, Advance(w, o, t, s.id),
                      ExecCleanup(o, s, t1.env, Skips(Popped(t1).frames), None))
    decreases s, 1, 1
  {
    hide Report, Leave, Advance, FinishBody, AdvanceTryPhase, ExecFrom, WellIndexed, Skips, Embedded;
    FinishSettles(w, o, t1, true);
    PhaseEnds(w, o, s, next, phase, block, None, t1);
    if s.cleanup != [] {
      t := SimFinally(w, o, s, next, None, Popped(t1));
    } else {
      NothingToDo(o, s.cleanup, t1.env, Skips(Popped(t1).frames), -1);
      t := ClosedTry(t1, t1.env, s);
    }
  }

  lemma {:induction false} SimHandler(w: Workflow, o: Oracle, s: Stmt, next: Option<Id>, t0: State) returns (t: State)
    requires GotoFree(w) && Embedded(w, s, next) && s.Guarded? && Plain(t0.frames) && Running(t0) && s.handler != []
    ensures t.frames == t0.frames
    ensures Simulates(w, o, EnteredBlock(t0, PhaseFrame(s, next, InCatch, s.handler, None)), t,
                      Advance(w, o, t, s.id), ExecHandler(o, s, t0.env, Skips(t0.frames)))
    decreases s, 1, 2
  {
    hide Report, Leave, Advance, FinishBody, ExecFrom, ExecCleanup, WellIndexed, Skips, Embedded, EmbeddedBlock;
    var f := PhaseFrame(s, next, InCatch, s.handler, None);
    PhaseFrameIsPlain(w, s, next, InCatch, s.handler, None);
    SkipsPush(t0.frames, f);
    var t1 := SimBlock(w, o, s.handler, t0, f);
    var r := ExecFrom(o, s.handler, 0, t0.env, Skips(t0.frames), -1);
    if r.0.Normal? {
      t := SimPhaseEnd(w, o, s, next, InCatch, s.handler, t1);
    } else {
      t := Popped(t1);
      PopSimulation(w, o, EnteredBlock(t0, f), t1, FinishBody(w, o, t1, true), Advance(w, o, t, s.id), r);
    }
  }

  lemma StepGuarded(w: Workflow, s: Stmt, next: Option<Id>, m: State)
    requires Embedded(w, s, next) && s.Guarded?
    ensures EnterBody(m, TryFrameFor(NodeOf(s, next))) == EnteredBlock(m, TryFrameOf(s, next))
  {
    hide EnterBody, EmbeddedBlock;
    PhaseFrameIsPlain(w, s, next, InBody, s.body, None);
    EnterBlock(w, m, TryFrameOf(s, next));
  }

  lemma {:induction false} SimGuarded(w: Workflow, o: Oracle, s: Stmt, next: Option<Id>, m: State) returns (t: State)
    requires GotoFree(w) && Embedded(w, s, next) && s.Guarded? && Plain(m.frames) && Running(m)
    ensures t.frames == m.frames
    ensures Simulates(w, o, EnterBody(m, TryFrameFor(NodeOf(s, next))), t, Advance(w, o, t, s.id),
                      ExecGuarded(o, s, m.env, Skips(m.frames)))
    decreases s, 2, 0
  {
    hide Report, Advance, FinishBody, ExecFrom, ExecCleanup, ExecHandler, WellIndexed, Skips;
    hide EmbeddedBlock, EnterBody, Raise, Break, ContinueLoop, BindError;
    var f := TryFrameOf(s, next);
    StepGuarded(w, s, next, m);
    PhaseFrameIsPlain(w, s, next, InBody, s.body, None);
    SkipsPush(m.frames, f);
    var t1 := SimBlock(w, o, s.body, m, f);
    var r := ExecFrom(o, s.body, 0, m.env, false, -1);
    if r.0.Normal? {
      t := SimPhaseEnd(w, o, s, next, InBody, s.body, t1);
    } else if r.0.Raised? {
      NoHandler(w, t1.current);
      TryCatches(w, o, s, next, t1, r.0.error, r.0.at);
      if s.handler != [] {
        t := SimHandler(w, o, s, next, Popped(t1).(env := BindError(t1.env, s.errorVar, r.0.error)));
      } else {
        t := SimFinally(w, o, s, next, Some(r.0.error), Popped(t1));
      }
    } else {
      t := Popped(t1);
      PopSimulation(w, o, EnteredBlock(m, f), t1, FinishBody(w, o, t1, true), Advance(w, o, t, s.id), r);
    }
  }

  // ------------------------------------------------------------------ whole programs

  /** The edge the parser gives top-level node `i`: the next top-level node, unless it terminates the workflow. */
  function TopNext(p: seq<Stmt>, i: nat): Option<Id>
    requires i < |p|
  {
    if i + 1 < |p| && !(p[i].Task? && p[i].terminal) then Some(p[i + 1].id) else None
  }

  ghost predicate EmbeddedProgram(w: Workflow, p: seq<Stmt>) {
    forall i: nat :: i < |p| ==> Embedded(w, p[i], TopNext(p, i))
  }

  lemma {:induction false} SimTop(w: Workflow, o: Oracle, p: seq<Stmt>, i: nat, m: State)
    requires GotoFree(w) && EmbeddedProgram(w, p) && i < |p|
    requires m.frames == [] && Running(m) && m.cursor == p[i].id
    requires !ExecTop(o, p, i, m.env).0.Jumped?
    ensures var (out, env) := ExecTop(o, p, i, m.env);
            Report(w, o, m) == (env, EndingOf(out))
    decreases |p| - i
  {
    hide Report, Embedded, Exec, WellIndexed, HandleError;
    var t := SimStmt(w, o, p[i], TopNext(p, i), m);
    var (out, env) := Exec(o, p[i], m.env, false, -1);
    if !out.Stopped? {
      AtTopLevel(w, o, p, i, t, out);
    }
    if out.Normal? && TopNext(p, i).Some? {
      SimTop(w, o, p, i + 1, t.(cursor := p[i + 1].id));
    }
  }

  /** With no frame open, a normal end follows the top-level edge and every other outcome ends the run. */
  lemma AtTopLevel(w: Workflow, o: Oracle, p: seq<Stmt>, i: nat, t: State, out: Outcome)
    requires GotoFree(w) && EmbeddedProgram(w, p) && i < |p| && t.frames == [] && Running(t)
    ensures out.Normal? && TopNext(p, i).Some? ==> Advance(w, o, t, p[i].id) == t.(cursor := p[i + 1].id)
    ensures out.Normal? && TopNext(p, i).None? ==>
              Report(w, o, Advance(w, o, t, p[i].id)) == (t.env, EndingOf(out))
    ensures out.Broke? || out.Continued? || out.Raised? ==> Report(w, o, Leave(w, o, t, out)) == (t.env, EndingOf(out))
  {
    hide Report;
    assert Embedded(w, p[i], TopNext(p, i));
    ReportFinished(w, o, Complete(t));
    ReportFinished(w, o, Fail(t, RoutingError(if out.Broke? || out.Continued? then out.at else "")));
    if out.Raised? {
      NoHandler(w, t.current);
      var e := out.error;
      ReportFinished(w, o, Fail(t, if e.node == "" then e.(node := out.at) else e));
    }
  }

  /**
   * The main theorem. Unless a task jumps, running the flat graph of a structured program visits the same
   * nodes in the same order, leaves the same context, and ends the same way as the recursive interpreter.
   */
  lemma MachineRefinesStructure(w: Workflow, o: Oracle, p: seq<Stmt>, env: Env)
    requires GotoFree(w) && EmbeddedProgram(w, p) && p != []
    requires !ExecTop(o, p, 0, env).0.Jumped?
    ensures var (out, env') := ExecTop(o, p, 0, env);
            Report(w, o, State([], p[0].id, "", env, false, Live)) == (env', EndingOf(out))
  {
    SimTop(w, o, p, 0, State([], p[0].id, "", env, false, Live));
  }
}
