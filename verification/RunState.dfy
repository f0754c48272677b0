// The interpreter as it runs: one mutable run state, updated in place by mutually recursive
// methods. Each method is proved to compute the frame machine's function of the same name.

module RunState {
  import opened Json
  import opened Blueprint
  import opened Machine
  import opened MainLoop

  /** `Advance`, case by case. */
  lemma AdvanceCases(w: Workflow, o: Oracle, s: State, id: Id)
    ensures s.frames == [] ==>
              Advance(w, o, s, id) ==
              if id in w.index && w.index[id].next.Some? then s.(cursor := w.index[id].next.value) else Complete(s)
    ensures s.frames != [] && Escapes(w, Top(s), id) ==>
              Advance(w, o, s, id) == Machine.ResolveJump(s, w.index[id].next.value)
    ensures s.frames != [] && !Escapes(w, Top(s), id) ==>
              var k := IndexOf(Top(s).ids, id);
              Advance(w, o, s, id) ==
              if 0 <= k && k + 1 < |Top(s).ids| then WithTop(s, AtPosition(Top(s), k + 1)).(cursor := Top(s).ids[k + 1])
              else FinishBody(w, o, s, k >= 0)
    ensures s.frames != [] && Escapes(w, Top(s), id) ==> id in w.index && w.index[id].next.Some?
  {
    hide Machine.ResolveJump, FinishBody, AtPosition;
  }

  lemma FinishCases(w: Workflow, o: Oracle, s: State, atEnd: bool)
    requires s.frames != []
    ensures Top(s).LoopFrame? ==>
              NextIteration(w, o, s, "").Some? && FinishBody(w, o, s, atEnd) == NextIteration(w, o, s, "").value
    ensures Top(s).TryFrame? ==>
              var t := Machine.AdvanceTryPhase(w, o, s);
              && StackWeight(t.frames) < StackWeight(s.frames)
              && FinishBody(w, o, s, atEnd) == if t.cursor != "" || t.finished then t else Advance(w, o, t, Top(s).node)
    ensures Top(s).BranchFrame? ==>
              FinishBody(w, o, s, atEnd) == if atEnd then Complete(s) else s.(cursor := "", finished := true)
    ensures Top(s).BodyFrame? ==>
              FinishBody(w, o, s, atEnd) == if Top(s).resume != "" then Popped(s).(cursor := Top(s).resume)
                                            else Advance(w, o, Popped(s), Top(s).node)
    ensures StackWeight(Popped(s).frames) < StackWeight(s.frames)
  {
    hide NextIteration, Advance, Machine.AdvanceTryPhase;
    WeightPrefix(s.frames, |s.frames| - 1);
    assert IsLoopFor(Top(s), "") == Top(s).LoopFrame?;
  }

  class Run {
    const w: Workflow
    const o: Oracle

    var frames: seq<Frame>
    var cursor: Id
    var current: Id
    var vars: map<string, Json>
    var locals: map<string, Json>
    var world: int
    var visits: nat
    var budget: nat
    var visited: seq<Id>
    var pending: Option<Error>
    var resumeNode: Id
    var finished: bool
    var ending: Ending

    constructor (w: Workflow, o: Oracle, s: State)
      ensures this.w == w && this.o == o && Snapshot() == s
    {
      this.w, this.o := w, o;
      frames, cursor, current, finished, ending := s.frames, s.cursor, s.current, s.finished, s.ending;
      vars, locals, world := s.env.vars, s.env.locals, s.env.world;
      visits, budget, visited := s.env.visits, s.env.budget, s.env.visited;
      pending, resumeNode := s.env.pending, s.env.resumeNode;
    }

    function EnvNow(): Env
      reads this
    {
      Env(vars, locals, world, visits, budget, visited, pending, resumeNode)
    }

    function Snapshot(): State
      reads this
    {
      State(frames, cursor, current, EnvNow(), finished, ending)
    }

    // ---------------------------------------------------------------- stack searches

    method FindLoop(name: Id) returns (depth: nat)
      ensures depth == LoopDepth(frames, name)
    {
      depth := |frames|;
      assert frames[..depth] == frames;
      while depth > 0 && !IsLoopFor(frames[depth - 1], name)
        invariant depth <= |frames|
        invariant LoopDepth(frames[..depth], name) == LoopDepth(frames, name)
      {
        assert frames[..depth][..depth - 1] == frames[..depth - 1];
        depth := depth - 1;
      }
    }

    method FindHolder(target: Id) returns (depth: nat)
      ensures depth == JumpDepth(frames, target)
    {
      depth := |frames|;
      assert frames[..depth] == frames;
      while depth > 0 && IndexOf(frames[depth - 1].ids, target) < 0
        invariant depth <= |frames|
        invariant JumpDepth(frames[..depth], target) == JumpDepth(frames, target)
      {
        assert frames[..depth][..depth - 1] == frames[..depth - 1];
        depth := depth - 1;
      }
    }

    method ResolveJump(target: Id)
      modifies this
      ensures Snapshot() == Machine.ResolveJump(old(Snapshot()), target)
    {
      hide IndexOf, AtPosition, BindLocals, JumpDepth;
      if target == "" {
        cursor := "";
        return;
      }
      var depth := FindHolder(target);
      if depth == 0 {
        frames := [];
      } else {
        var f := AtPosition(frames[depth - 1], IndexOf(frames[depth - 1].ids, target));
        frames := frames[..depth - 1] + [f];
        if f.LoopFrame? {
          locals := BindLocals(locals, f);
        }
      }
      cursor := target;
    }

    // ---------------------------------------------------------------- routing

    method AdvanceAfterNode()
      modifies this
      ensures Snapshot() == Advance(w, o, old(Snapshot()), old(current))
      decreases StackWeight(frames), 4
    {
      hide IndexOf, AtPosition, Machine.ResolveJump, NextIteration, Machine.AdvanceTryPhase, FrameWeight;
      hide Advance, FinishBody, StackWeight;
      var id := current;
      while true
        invariant Advance(w, o, Snapshot(), id) == Advance(w, o, old(Snapshot()), old(current))
        invariant StackWeight(frames) <= old(StackWeight(frames))
        decreases StackWeight(frames)
      {
        AdvanceCases(w, o, Snapshot(), id);
        if frames == [] {
          if id in w.index && w.index[id].next.Some? {
            cursor := w.index[id].next.value;
          } else {
            Finish();
          }
          return;
        }
        var f := frames[|frames| - 1];
        var k := IndexOf(f.ids, id);
        if k >= 0 && id in w.index && w.index[id].next.Some? && IndexOf(f.ids, w.index[id].next.value) < 0 {
          ResolveJump(w.index[id].next.value);
          return;
        }
        if 0 <= k && k + 1 < |f.ids| {
          frames := frames[..|frames| - 1] + [AtPosition(f, k + 1)];
          cursor := f.ids[k + 1];
          return;
        }
        var next := CompleteFrame(k >= 0);
        if next.None? { return; }
        id := next.value;
      }
    }

    /** The top frame's body has run out: what that leads to, or the owner to go on from. */
    method CompleteFrame(atEnd: bool) returns (next: Option<Id>)
      requires frames != []
      modifies this
      ensures next.None? ==> Snapshot() == FinishBody(w, o, old(Snapshot()), atEnd)
      ensures next.Some? ==> FinishBody(w, o, old(Snapshot()), atEnd) == Advance(w, o, Snapshot(), next.value)
      ensures next.Some? ==> StackWeight(frames) < old(StackWeight(frames))
      decreases StackWeight(frames), 3
    {
      hide NextIteration, Machine.AdvanceTryPhase, FrameWeight, Advance, FinishBody, StackWeight;
      FinishCases(w, o, Snapshot(), atEnd);
      var f := frames[|frames| - 1];
      next := None;
      match f {
        case LoopFrame(_, _, _, _, _, _, _, _, _, _, _, _) =>
          var _ := NextIterationFor("");
        case TryFrame(_, _, _, _, _, _, _, _, _, _) =>
          AdvanceTryPhase();
          if cursor == "" && !finished {
            next := Some(f.node);
          }
        case BranchFrame(_, _, _, _, _) =>
          if atEnd {
            Finish();
          } else {
            cursor, finished := "", true;
          }
        case BodyFrame(_, _, _, resume, _) =>
          frames := frames[..|frames| - 1];
          if resume != "" {
            cursor := resume;
          } else {
            next := Some(f.node);
          }
      }
    }

    method Finish()
      modifies this
      ensures Snapshot() == Complete(old(Snapshot()))
    {
      cursor := "";
      if ending.status == Running {
        ending := ending.(status := Completed);
      }
      finished := true;
    }

    method CloseFrame()
      requires frames != []
      modifies this
      ensures Snapshot() == Machine.CloseFrame(w, o, old(Snapshot()))
      decreases StackWeight(frames), 0
    {
      hide Advance, StackWeight, ErasedNames;
      var f := frames[|frames| - 1];
      WeightPrefix(frames, |frames| - 1);
      frames := frames[..|frames| - 1];
      locals := locals - ErasedNames(f);
      current := f.node;
      AdvanceAfterNode();
    }

    method AdvanceTryPhase()
      requires frames != [] && frames[|frames| - 1].TryFrame?
      modifies this
      ensures Snapshot() == Machine.AdvanceTryPhase(w, o, old(Snapshot()))
      decreases StackWeight(frames), 1
    {
      hide Machine.CloseFrame, FrameWeight, StackWeight, ErrorJson;
      var f := frames[|frames| - 1];
      if f.phase != InFinally && f.finallyIds != [] {
        frames := frames[..|frames| - 1] + [f.(phase := InFinally, ids := f.finallyIds, position := 0)];
        cursor := f.finallyIds[0];
        return;
      }
      if f.propagate.Some? {
        pending := f.propagate;
        locals := locals["error" := ErrorJson(f.propagate.value)];
      }
      CloseFrame();
    }

    /** The top loop frame has finished a pass: bind the next one or leave the loop. */
    method NextPass()
      requires frames != [] && frames[|frames| - 1].LoopFrame?
      modifies this
      ensures Snapshot() == Machine.NextPass(w, o, old(Snapshot()))
      decreases StackWeight(frames), 1
    {
      hide Advance, BindLocals, FrameWeight, StackWeight, Machine.EnterPass, Machine.LeaveLoop;
      var f := frames[|frames| - 1];
      var more := f.index + 1 < f.cap && f.index + 1 < f.total;
      if more && f.whileMode {
        if f.node in w.index && w.index[f.node].kind.Loop? {
          var r := o.guard(f.node, ViewOf(EnvNow(), f.index));
          vars, world := r.vars, r.world;
          if r.result.Err? {
            ending := Live.(thrown := Some(r.result.error));
            finished := true;
            return;
          }
          more := r.result.value;
        } else {
          more := false;
        }
      }
      if more {
        EnterPass(f);
      } else {
        LeaveLoop(f);
      }
    }

    method LeaveLoop(f: Frame)
      requires frames != [] && f == frames[|frames| - 1]
      modifies this
      ensures Snapshot() == Machine.LeaveLoop(w, o, old(Snapshot()), f)
      decreases StackWeight(frames), 0
    {
      hide Advance, StackWeight, ErasedNames;
      WeightPrefix(frames, |frames| - 1);
      frames := frames[..|frames| - 1];
      locals := locals - ErasedNames(f);
      current := f.node;
      AdvanceAfterNode();
    }

    method EnterPass(f: Frame)
      requires frames != [] && f == frames[|frames| - 1] && f.LoopFrame? && f.index + 1 < f.cap && f.index + 1 < f.total
      modifies this
      ensures Snapshot() == Machine.EnterPass(old(Snapshot()), f)
    {
      hide BindLocals;
      var g := f.(index := f.index + 1, position := 0);
      frames := frames[..|frames| - 1] + [g];
      locals := BindLocals(locals, g);
      cursor := if f.ids == [] then "" else f.ids[0];
    }

    method NextIterationFor(name: Id) returns (found: bool)
      modifies this
      ensures found == NextIteration(w, o, old(Snapshot()), name).Some?
      ensures Snapshot() == if found then NextIteration(w, o, old(Snapshot()), name).value else old(Snapshot())
      decreases StackWeight(frames), 2
    {
      hide Machine.NextPass, FrameWeight, LoopDepth;
      var depth := FindLoop(name);
      if depth == 0 { return false; }
      WeightPrefix(frames, depth);
      frames := frames[..depth];
      NextPass();
      return true;
    }

    method FinishLoop(name: Id) returns (found: bool)
      modifies this
      ensures found == Machine.FinishLoop(w, o, old(Snapshot()), name).Some?
      ensures Snapshot() == if found then Machine.FinishLoop(w, o, old(Snapshot()), name).value else old(Snapshot())
    {
      var depth := FindLoop(name);
      if depth == 0 { return false; }
      frames := frames[..depth];
      CloseFrame();
      return true;
    }

    // ---------------------------------------------------------------- errors

    method FindRecovery(e: Error) returns (depth: nat)
      ensures depth == RecoverDepth(w, frames, e)
    {
      depth := |frames|;
      assert frames[..depth] == frames;
      while depth > 0 && !Recovers(w, frames[depth - 1], e)
        invariant depth <= |frames|
        invariant RecoverDepth(w, frames[..depth], e) == RecoverDepth(w, frames, e)
      {
        assert frames[..depth][..depth - 1] == frames[..depth - 1];
        depth := depth - 1;
      }
    }

    method BindError(name: string, e: Error)
      modifies this
      ensures Snapshot() == old(Snapshot()).(env := Machine.BindError(old(EnvNow()), name, e))
    {
      hide ErrorJson;
      locals := locals["error" := ErrorJson(e)];
      if name != "" {
        if name != "error" {
          locals := locals[name := ErrorJson(e)];
        }
        vars := vars[name := ErrorJson(e)];
      }
    }

    method RecoverInTry(e: Error)
      requires frames != [] && frames[|frames| - 1].TryFrame? && frames[|frames| - 1].phase == InBody
      modifies this
      ensures Snapshot() == Machine.RecoverInTry(w, o, old(Snapshot()), e)
    {
      hide Machine.CloseFrame, Machine.BindError, FrameWeight, StackWeight;
      var f := frames[|frames| - 1];
      var routed := if e.code in f.catchWhen && f.catchWhen[e.code] in w.index then f.catchWhen[e.code] else "";
      var handlers := if routed != "" then [routed] else f.catchIds;
      if handlers != [] {
        frames := frames[..|frames| - 1] + [f.(phase := InCatch, ids := handlers, position := 0)];
        cursor := handlers[0];
        BindError(f.errorVar, e);
      } else if f.finallyIds != [] {
        frames := frames[..|frames| - 1] +
          [f.(phase := InFinally, ids := f.finallyIds, position := 0, propagate := Some(e))];
        cursor := f.finallyIds[0];
      } else {
        pending := Some(e);
        CloseFrame();
      }
    }

    method HandleError(e: Error) returns (handled: bool)
      modifies this
      ensures handled == Machine.HandleError(w, o, old(Snapshot()), e).Some?
      ensures Snapshot() == if handled then Machine.HandleError(w, o, old(Snapshot()), e).value else old(Snapshot())
    {
      hide Machine.ResolveJump, NextIteration, Machine.RecoverInTry, RecoverDepth, ErrorJson;
      if current in w.index && w.index[current].onError.Some? && w.index[current].onError.value != "" {
        locals := locals["error" := ErrorJson(e)];
        ResolveJump(w.index[current].onError.value);
        return true;
      }
      var depth := FindRecovery(e);
      if depth == 0 { return false; }
      if frames[depth - 1].LoopFrame? {
        assert IsLoopFor(frames[depth - 1], "");
        var found := NextIterationFor("");
        return true;
      }
      frames := frames[..depth];
      RecoverInTry(e);
      return true;
    }

    method FailWith(e: Error)
      modifies this
      ensures Snapshot() == Fail(old(Snapshot()), e)
    {
      finished, ending := true, Live.(status := Failed, failure := Some(e));
    }

    method Raise(e: Error, blame: Id)
      modifies this
      ensures Snapshot() == Machine.Raise(w, o, old(Snapshot()), e, blame)
    {
      hide Machine.HandleError, Fail;
      var handled := HandleError(e);
      if !handled {
        FailWith(if e.node == "" then e.(node := blame) else e);
      }
    }

    // ---------------------------------------------------------------- nodes

    method EnterBody(f: Frame)
      requires f.ids != []
      modifies this
      ensures Snapshot() == Machine.EnterBody(old(Snapshot()), f)
    {
      hide Machine.ResolveJump;
      frames := frames + [f];
      ResolveJump(f.ids[0]);
    }

    method StepLoop(n: Node)
      requires n.kind.Loop? && n.kind.body != [] && current == n.id
      modifies this
      ensures Snapshot() == Machine.StepLoop(w, o, old(Snapshot()), n)
    {
      hide Machine.Raise, Advance, Machine.EnterBody, BindLocals, Iteration;
      var r := o.items(n.id, ViewOf(EnvNow(), Iteration(frames)));
      vars, world := r.vars, r.world;
      if r.result.Err? {
        Raise(r.result.error, n.id);
      } else if r.result.value == Some([]) {
        AdvanceAfterNode();
      } else {
        var f := LoopFrameFor(n, r.result.value);
        locals := BindLocals(locals, f);
        EnterBody(f);
      }
    }

    method StepCondition(n: Node)
      requires n.kind.Condition? && current == n.id
      modifies this
      ensures Snapshot() == Machine.StepCondition(w, o, old(Snapshot()), n)
    {
      hide Machine.Raise, Advance, Machine.EnterBody, Machine.ResolveJump, Iteration;
      var r := o.branch(n.id, ViewOf(EnvNow(), Iteration(frames)));
      vars, world := r.vars, r.world;
      if r.result.Err? {
        Raise(r.result.error, n.id);
        return;
      }
      var body := if r.result.value then n.kind.thenBody else n.kind.elseBody;
      var target := if r.result.value then n.kind.onTrue else n.kind.onFalse;
      if body != [] {
        EnterBody(BodyFrame(n.id, body, 0, ResumeTarget(n), r.result.value));
      } else if target != "" {
        ResolveJump(target);
      } else {
        AdvanceAfterNode();
      }
    }

    method StepLeaf(n: Node)
      requires current == n.id
      modifies this
      ensures Snapshot() == Machine.StepLeaf(w, o, old(Snapshot()), n)
    {
      hide Machine.Raise, Machine.Obey, Iteration;
      var r := o.leaf(n.id, ViewOf(EnvNow(), Iteration(frames)));
      vars, world := r.vars, r.world;
      if r.result.Err? {
        Raise(r.result.error, n.id);
        return;
      }
      if resumeNode != "" && resumeNode == n.id {
        resumeNode := "";
        locals := locals - {"input", "event"};
      }
      Obey(n, r.result.value);
    }

    /** Acts on the signal of a node that ran. */
    method Obey(n: Node, signal: Signal)
      requires current == n.id
      modifies this
      ensures Snapshot() == Machine.Obey(w, o, old(Snapshot()), n, signal)
    {
      hide Advance, Machine.ResolveJump, Machine.FinishLoop, NextIteration, Fail;
      match signal {
        case Continue => AdvanceAfterNode();
        case JumpTo(target) => ResolveJump(target);
        case Suspend(request) =>
          Suspend(n, request);
        case Terminate(_, _, _) =>
          Stop(signal, n.id);
        case LoopBreak(name) =>
          var found := FinishLoop(name);
          if !found {
            FailWith(RoutingError(n.id));
          }
        case LoopContinue(name) =>
          var found := NextIterationFor(name);
          if !found {
            FailWith(RoutingError(n.id));
          }
      }
    }

    method Suspend(n: Node, r: SuspendRequest)
      modifies this
      ensures Snapshot() == Halt(old(Snapshot()).(cursor := ResumeCursor(n, r)), SuspendEnding(r))
    {
      cursor := r.resumeNode;
      if cursor == "" && r.reason == "input" {
        cursor := n.id;
      } else if cursor == "" {
        cursor := ResumeTarget(n);
        if cursor == "" && r.reason == "timer" && r.awaitCondition {
          cursor := n.id;
        }
      }
      ending := Live.(status := if r.reason == "input" then AwaitingInput else Suspended, suspend := Some(r));
      finished := true;
    }

    method Stop(signal: Signal, id: Id)
      requires signal.Terminate?
      modifies this
      ensures Snapshot() == Halt(old(Snapshot()), TerminateEnding(signal, id))
    {
      ending := Live.(payload := signal.payload);
      if signal.status == "success" {
        ending := ending.(status := Terminated);
      } else {
        var code := if signal.errorCode.Some? then signal.errorCode.value else "WORKFLOW_FAILED";
        ending := ending.(status := Failed, failure := Some(Error(code, "", id, Null)));
      }
      finished := true;
    }

    // ---------------------------------------------------------------- the main loop

    method StepNode(n: Node)
      requires WellIndexed(w) && n.id in w.index && w.index[n.id] == n && current == n.id && n.enabled
      modifies this
      ensures Snapshot() == RunNode(w, o, old(Snapshot()), n)
    {
      hide Machine.StepLeaf, Machine.StepLoop, Machine.StepCondition, Machine.EnterBody;
      match n.kind {
        case Leaf(_, _) => StepLeaf(n);
        case Loop(_, _, _, _, _) => StepLoop(n);
        case Try(_, _, _, _, _) => EnterBody(TryFrameFor(n));
        case Condition(_, _, _, _) => StepCondition(n);
      }
    }

    /** Control reached a node that does not exist. */
    method GoAstray()
      modifies this
      ensures Snapshot() == Stray(w, o, old(Snapshot()))
    {
      hide Machine.HandleError;
      cursor := "";
      var handled := HandleError(RoutingError(current));
      if !handled {
        FailWith(RoutingError(""));
      }
    }

    /** One round of the main loop. */
    method Round()
      requires WellIndexed(w) && !finished
      modifies this
      ensures Snapshot() == Step(w, o, old(Snapshot()))
    {
      hide Machine.Raise, Stray, Advance, RunNode, Fail;
      if pending.Some? {
        var e := pending.value;
        pending := None;
        Raise(e, "");
      } else if cursor == "" {
        Finish();
      } else if cursor !in w.index {
        GoAstray();
      } else {
        var n := w.index[cursor];
        current := n.id;
        visits := visits + 1;
        if visits > budget {
          FailWith(LimitError(n.id));
          return;
        }
        visited := visited + [n.id];
        if n.enabled {
          StepNode(n);
        } else {
          AdvanceAfterNode();
        }
      }
    }

    /** The main loop: it ends, in the state the machine's total run function names. */
    method Drive()
      requires WellIndexed(w) && HandlersExist(w)
      modifies this
      ensures Snapshot() == MainLoop.Drive(w, o, old(Snapshot()))
      ensures finished
    {
      hide Step;
      while !finished
        invariant MainLoop.Drive(w, o, Snapshot()) == MainLoop.Drive(w, o, old(Snapshot()))
        decreases !finished, Fuel(Snapshot()), StackWeight(frames), Unsettled(w, Snapshot())
      {
        StepDescends(w, o, Snapshot());
        Round();
      }
    }
  }
}
