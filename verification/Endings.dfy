// How a run ends: in exactly one way, and the fields of the ending tell which.

module Endings {
  import opened Json
  import opened Blueprint
  import opened Machine
  import opened MainLoop
  import Parallel

  /** Routing alone gives no other endings: still running, run out, or an error thrown by a loop's guard. */
  predicate Rolls(t: State) {
    || t.ending == Live
    || (t.finished && t.ending == Live.(status := Completed))
    || (t.finished && t.ending.thrown.Some? && t.ending == Live.(thrown := t.ending.thrown))
  }

  predicate Rolling(s: State) {
    !s.finished && s.ending == Live
  }

  /**
   * A run has failed exactly when it holds a failure and waits exactly when it holds a request; it then waits for
   * a reply exactly when the request is a prompt. Only a run that was still going can have thrown.
   */
  predicate EndsOneWay(e: Ending) {
    && (e.status == Failed <==> e.failure.Some?)
    && (e.status in {AwaitingInput, Suspended} <==> e.suspend.Some?)
    && (e.suspend.Some? ==> (e.status == AwaitingInput <==> e.suspend.value.reason == "input"))
    && (e.thrown.Some? ==> e.status == Running)
    && (e.payload != Obj(map[]) ==> e.status in {Terminated, Failed})
  }

  lemma RollsOneWay(t: State)
    requires Rolls(t)
    ensures EndsOneWay(t.ending)
  {
  }

  // ------------------------------------------------------------------ routing

  lemma {:induction false} AdvanceRolls(w: Workflow, o: Oracle, s: State, id: Id)
    requires Rolling(s)
    ensures Rolls(Advance(w, o, s, id))
    decreases StackWeight(s.frames), 4
  {
    hide FinishBody;
    if s.frames != [] && !Escapes(w, Top(s), id) {
      FinishRolls(w, o, s, true);
      FinishRolls(w, o, s, false);
    }
  }

  lemma {:induction false} FinishRolls(w: Workflow, o: Oracle, s: State, atEnd: bool)
    requires Rolling(s) && s.frames != []
    ensures Rolls(FinishBody(w, o, s, atEnd))
    decreases StackWeight(s.frames), 3
  {
    hide Advance, AdvanceTryPhase, NextIteration;
    WeightPrefix(s.frames, |s.frames| - 1);
    var f := Top(s);
    if f.LoopFrame? {
      NextRolls(w, o, s, "");
    } else if f.TryFrame? {
      PhaseRolls(w, o, s);
      var t := AdvanceTryPhase(w, o, s);
      if !t.finished {
        AdvanceRolls(w, o, t, f.node);
      }
    } else if f.BodyFrame? {
      AdvanceRolls(w, o, Popped(s), f.node);
    }
  }

  lemma {:induction false} CloseRolls(w: Workflow, o: Oracle, s: State)
    requires Rolling(s) && s.frames != []
    ensures Rolls(CloseFrame(w, o, s)) && Rolls(LeaveLoop(w, o, s, Top(s)))
    decreases StackWeight(s.frames), 0
  {
    hide Advance;
    WeightPrefix(s.frames, |s.frames| - 1);
    AdvanceRolls(w, o, Popped(s).(env := EraseLocals(s.env, Top(s)), current := Top(s).node), Top(s).node);
  }

  lemma {:induction false} PhaseRolls(w: Workflow, o: Oracle, s: State)
    requires Rolling(s) && s.frames != [] && Top(s).TryFrame?
    ensures Rolls(AdvanceTryPhase(w, o, s))
    ensures !AdvanceTryPhase(w, o, s).finished ==> AdvanceTryPhase(w, o, s).ending == Live
    decreases StackWeight(s.frames), 1
  {
    hide CloseFrame, ErrorJson;
    var f := Top(s);
    CloseRolls(w, o, s);
    CloseRolls(w, o, s.(env := s.env.(pending := f.propagate,
                                      locals := if f.propagate.Some? then
                                                  s.env.locals["error" := ErrorJson(f.propagate.value)]
                                                else s.env.locals)));
  }

  lemma {:induction false} NextRolls(w: Workflow, o: Oracle, s: State, name: Id)
    requires Rolling(s)
    ensures NextIteration(w, o, s, name).Some? ==> Rolls(NextIteration(w, o, s, name).value)
    decreases StackWeight(s.frames), 2
  {
    hide NextPass, LoopDepth;
    var d := LoopDepth(s.frames, name);
    if d > 0 {
      WeightPrefix(s.frames, d);
      PassRolls(w, o, s.(frames := s.frames[..d]));
    }
  }

  lemma {:induction false} PassRolls(w: Workflow, o: Oracle, s: State)
    requires Rolling(s) && s.frames != [] && Top(s).LoopFrame?
    ensures Rolls(NextPass(w, o, s))
    decreases StackWeight(s.frames), 1
  {
    hide LeaveLoop, BindLocals;
    var f := Top(s);
    CloseRolls(w, o, s);
    CloseRolls(w, o, s.(env := After(s.env, o.guard(f.node, ViewOf(s.env, f.index)))));
  }

  // ------------------------------------------------------------------ errors and signals

  lemma HandleRolls(w: Workflow, o: Oracle, s: State, e: Error)
    requires Rolling(s)
    ensures HandleError(w, o, s, e).Some? ==> Rolls(HandleError(w, o, s, e).value)
  {
    hide NextIteration, RecoverInTry, RecoverDepth, ErrorJson;
    NextRolls(w, o, s, "");
    var d := RecoverDepth(w, s.frames, e);
    if d > 0 && s.frames[d - 1].TryFrame? {
      RecoverRolls(w, o, s.(frames := s.frames[..d]), e);
    }
  }

  lemma RecoverRolls(w: Workflow, o: Oracle, s: State, e: Error)
    requires Rolling(s) && s.frames != [] && Top(s).TryFrame? && Top(s).phase == InBody
    ensures Rolls(RecoverInTry(w, o, s, e))
  {
    hide CloseFrame, ErrorJson, Routed, BindError;
    CloseRolls(w, o, s.(env := s.env.(pending := Some(e))));
  }

  lemma RaiseEnds(w: Workflow, o: Oracle, s: State, e: Error, blame: Id)
    requires Rolling(s)
    ensures Settled(Raise(w, o, s, e, blame))
  {
    hide HandleError;
    HandleRolls(w, o, s, e);
  }

  /** Still going, or ended in one way. */
  predicate Settled(t: State) {
    EndsOneWay(t.ending) && (!t.finished ==> t.ending == Live)
  }

  lemma ObeyEnds(w: Workflow, o: Oracle, s: State, n: Node, signal: Signal)
    requires Rolling(s)
    ensures Settled(Obey(w, o, s, n, signal))
  {
    hide Advance, NextIteration, CloseFrame, LoopDepth, ResumeCursor;
    AdvanceRolls(w, o, s, n.id);
    if signal.LoopContinue? {
      NextRolls(w, o, s, signal.loop);
    } else if signal.LoopBreak? {
      BreakEnds(w, o, s, signal.loop);
    }
  }

  lemma BreakEnds(w: Workflow, o: Oracle, s: State, name: Id)
    requires Rolling(s)
    ensures FinishLoop(w, o, s, name).Some? ==> Rolls(FinishLoop(w, o, s, name).value)
  {
    hide CloseFrame;
    var d := LoopDepth(s.frames, name);
    if d > 0 {
      CloseRolls(w, o, s.(frames := s.frames[..d]));
    }
  }

  lemma AdvanceEnds(w: Workflow, o: Oracle, s: State, id: Id)
    requires Rolling(s)
    ensures Settled(Advance(w, o, s, id))
  {
    hide Advance;
    AdvanceRolls(w, o, s, id);
  }

  lemma JumpEnds(s: State)
    requires Rolling(s)
    ensures forall target :: Settled(ResolveJump(s, target))
    ensures forall f: Frame :: f.ids != [] ==> Settled(EnterBody(s, f))
  {
    hide BindLocals, AtPosition, IndexOf, JumpDepth;
  }

  lemma TaskEnds(w: Workflow, o: Oracle, s: State, n: Node)
    requires Rolling(s)
    ensures Settled(StepLeaf(w, o, s, n))
  {
    hide Raise, Obey, Iteration, Settled;
    var r := o.leaf(n.id, ViewOf(s.env, Iteration(s.frames)));
    var s1 := s.(env := After(s.env, r));
    if r.result.Ok? {
      ObeyEnds(w, o, s1.(env := ForgetAnswer(s1.env, n.id)), n, r.result.value);
    } else {
      RaiseEnds(w, o, s1, r.result.error, n.id);
    }
  }

  lemma LoopEnds(w: Workflow, o: Oracle, s: State, n: Node)
    requires Rolling(s) && n.kind.Loop? && n.kind.body != []
    ensures Settled(StepLoop(w, o, s, n))
  {
    hide Advance, Raise, BindLocals, Iteration, EnterBody, Settled;
    var r := o.items(n.id, ViewOf(s.env, Iteration(s.frames)));
    var s1 := s.(env := After(s.env, r));
    AdvanceEnds(w, o, s1, n.id);
    JumpEnds(s1);
    if r.result.Ok? {
      var f := LoopFrameFor(n, r.result.value);
      JumpEnds(s1.(env := BindIteration(s1.env, f)));
    }
    if r.result.Err? {
      RaiseEnds(w, o, s1, r.result.error, n.id);
    }
  }

  lemma ConditionEnds(w: Workflow, o: Oracle, s: State, n: Node)
    requires Rolling(s) && n.kind.Condition?
    ensures Settled(StepCondition(w, o, s, n))
  {
    hide Advance, Raise, ResolveJump, Iteration, EnterBody, Settled;
    var r := o.branch(n.id, ViewOf(s.env, Iteration(s.frames)));
    var s1 := s.(env := After(s.env, r));
    AdvanceEnds(w, o, s1, n.id);
    JumpEnds(s1);
    if r.result.Err? {
      RaiseEnds(w, o, s1, r.result.error, n.id);
    }
  }

  lemma NodeEnds(w: Workflow, o: Oracle, s: State, n: Node)
    requires WellIndexed(w) && n.id in w.index && w.index[n.id] == n && Rolling(s)
    ensures Settled(RunNode(w, o, s, n))
  {
    hide StepLeaf, StepLoop, StepCondition, BindLocals;
    match n.kind
    case Leaf(_, _) => TaskEnds(w, o, s, n);
    case Loop(_, _, _, _, _) => LoopEnds(w, o, s, n);
    case Try(_, _, _, _, _) =>
    case Condition(_, _, _, _) => ConditionEnds(w, o, s, n);
  }

  /** A round leaves the run going or ends it in one way. */
  lemma StepEnds(w: Workflow, o: Oracle, s: State)
    requires WellIndexed(w) && Rolling(s)
    ensures Settled(Step(w, o, s))
  {
    hide Advance, Raise, RunNode, HandleError;
    var s1 := s.(current := s.cursor, env := s.env.(visits := s.env.visits + 1));
    var s2 := s1.(env := s1.env.(visited := s1.env.visited + [s.cursor]));
    if s.env.pending.Some? {
      RaiseEnds(w, o, s.(env := s.env.(pending := None)), s.env.pending.value, "");
    } else if s.cursor != "" && s.cursor !in w.index {
      HandleRolls(w, o, s.(cursor := ""), RoutingError(s.current));
    } else if s.cursor in w.index && s.env.visits < s.env.budget {
      NodeEnds(w, o, s2, w.index[s.cursor]);
      AdvanceRolls(w, o, s2, s.cursor);
    }
  }

  /** So does a whole run. */
  lemma {:induction false} RunEndsOneWay(w: Workflow, o: Oracle, s: State)
    requires WellIndexed(w) && HandlersExist(w) && Rolling(s)
    ensures Drive(w, o, s).finished && EndsOneWay(Drive(w, o, s).ending)
    decreases Fuel(s), StackWeight(s.frames), Unsettled(w, s)
  {
    hide Step;
    StepEnds(w, o, s);
    StepDescends(w, o, s);
    var t := Step(w, o, s);
    if !t.finished {
      RunEndsOneWay(w, o, t);
    }
  }

  /** What a section makes of a branch: it failed or threw, it waits, or it is done; and which stop the join. */
  lemma BranchEndTold(w: Workflow, o: Oracle, s: State, node: Id, ids: seq<Id>, index: int, limit: nat, world: int)
    requires WellIndexed(w) && HandlersExist(w)
    ensures var t := Drive(w, o, Parallel.BranchStart(s, node, ids, index, limit, world));
            && (Parallel.EndOf(t) == Parallel.Faulted <==> t.ending.status == Failed || t.ending.thrown.Some?)
            && (Parallel.EndOf(t) == Parallel.Waiting <==> t.ending.status in {AwaitingInput, Suspended})
            && (Parallel.EndOf(t) == Parallel.Done <==>
                t.ending.status in {Completed, Terminated} || (t.ending.status == Running && t.ending.thrown.None?))
            && forall failFast :: Parallel.Stops(Parallel.EndOf(t), failFast) <==>
                                  || t.ending.status in {AwaitingInput, Suspended}
                                  || (failFast && (t.ending.status == Failed || t.ending.thrown.Some?))
  {
    Parallel.BranchBegins(s, node, ids, index, limit, world);
    var b := Parallel.BranchStart(s, node, ids, index, limit, world);
    if ids != [] {
      RunEndsOneWay(w, o, b);
    }
    hide EndsOneWay;
  }
}
