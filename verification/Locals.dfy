// Which locals a run can bind: a name that no loop and no try of the graph uses never becomes a local
// by itself, so only an answer from outside can bring it in.

module Locals {
  import opened Json
  import opened Blueprint
  import opened Machine
  import opened MainLoop

  /** The locals an open frame may bind, besides `iteration` and `error`. */
  function Writes(f: Frame): set<string> {
    if f.LoopFrame? then {f.itemVar, f.indexVar} else if f.TryFrame? then {f.errorVar} else {}
  }

  function NodeWrites(n: Node): set<string> {
    if n.kind.Loop? then {n.kind.itemVar, n.kind.indexVar} else if n.kind.Try? then {n.kind.errorVar} else {}
  }

  /** The engine never binds this name: it is no loop variable, no error variable, and none of its own. */
  ghost predicate NeverBound(w: Workflow, x: string) {
    x != "iteration" && x != "error" && forall id :: id in w.index ==> x !in NodeWrites(w.index[id])
  }

  predicate QuietFrames(x: string, frames: seq<Frame>) {
    forall k :: 0 <= k < |frames| ==> x !in Writes(frames[k])
  }

  /** The name is no local, and no open frame is about to make it one. */
  predicate Quiet(x: string, s: State) {
    x !in s.env.locals && QuietFrames(x, s.frames)
  }

  lemma CutQuiet(x: string, s: State, d: nat)
    requires Quiet(x, s) && d <= |s.frames|
    ensures Quiet(x, s.(frames := s.frames[..d]))
  {
  }

  lemma TopQuiet(x: string, below: seq<Frame>, f: Frame)
    requires QuietFrames(x, below) && x !in Writes(f)
    ensures QuietFrames(x, below + [f])
  {
  }

  lemma BindQuiet(x: string, l: map<string, Json>, f: Frame)
    requires f.LoopFrame? && x !in l && x !in Writes(f) && x != "iteration"
    ensures x !in BindLocals(l, f)
  {
  }

  lemma JumpQuiet(x: string, s: State, target: Id)
    requires Quiet(x, s) && x != "iteration"
    ensures Quiet(x, ResolveJump(s, target))
  {
    hide BindLocals;
    var d := JumpDepth(s.frames, target);
    if target != "" && d > 0 {
      var f := AtPosition(s.frames[d - 1], IndexOf(s.frames[d - 1].ids, target));
      TopQuiet(x, s.frames[..d - 1], f);
      if f.LoopFrame? {
        BindQuiet(x, s.env.locals, f);
      }
    }
  }

  // ------------------------------------------------------------------ routing

  lemma {:induction false} AdvanceQuiet(w: Workflow, x: string, o: Oracle, s: State, current: Id)
    requires Quiet(x, s) && x != "iteration" && x != "error"
    ensures Quiet(x, Advance(w, o, s, current))
    decreases StackWeight(s.frames), 4
  {
    hide FinishBody, ResolveJump, Writes;
    if s.frames != [] {
      var f := Top(s);
      var k := IndexOf(f.ids, current);
      if Escapes(w, f, current) {
        JumpQuiet(x, s, w.index[current].next.value);
      } else if 0 <= k && k + 1 < |f.ids| {
        MovedQuiet(x, s, k + 1);
      } else {
        FinishQuiet(w, x, o, s, k >= 0);
      }
    }
  }

  lemma MovedQuiet(x: string, s: State, k: int)
    requires Quiet(x, s) && s.frames != []
    ensures Quiet(x, WithTop(s, AtPosition(Top(s), k)))
  {
    TopQuiet(x, s.frames[..|s.frames| - 1], AtPosition(Top(s), k));
  }

  lemma {:induction false} CloseQuiet(w: Workflow, x: string, o: Oracle, s: State)
    requires Quiet(x, s) && s.frames != [] && x != "iteration" && x != "error"
    ensures Quiet(x, CloseFrame(w, o, s))
    ensures Quiet(x, LeaveLoop(w, o, s, Top(s)))
    decreases StackWeight(s.frames), 0
  {
    hide Advance;
    WeightPrefix(s.frames, |s.frames| - 1);
    AdvanceQuiet(w, x, o, Popped(s).(env := EraseLocals(s.env, Top(s)), current := Top(s).node), Top(s).node);
  }

  lemma {:induction false} FinishQuiet(w: Workflow, x: string, o: Oracle, s: State, atEnd: bool)
    requires Quiet(x, s) && s.frames != [] && x != "iteration" && x != "error"
    ensures Quiet(x, FinishBody(w, o, s, atEnd))
    decreases StackWeight(s.frames), 3
  {
    hide Advance, AdvanceTryPhase, NextIteration, Writes;
    var f := Top(s);
    WeightPrefix(s.frames, |s.frames| - 1);
    match f
    case LoopFrame(_, _, _, _, _, _, _, _, _, _, _, _) => NextQuiet(w, x, o, s, "");
    case TryFrame(_, _, _, _, _, _, _, _, _, _) =>
      PhaseQuiet(w, x, o, s);
      AdvanceQuiet(w, x, o, AdvanceTryPhase(w, o, s), f.node);
    case BranchFrame(_, _, _, _, _) =>
    case BodyFrame(_, _, _, _, _) => AdvanceQuiet(w, x, o, Popped(s), f.node);
  }

  lemma {:induction false} PhaseQuiet(w: Workflow, x: string, o: Oracle, s: State)
    requires Quiet(x, s) && s.frames != [] && Top(s).TryFrame? && x != "iteration" && x != "error"
    ensures Quiet(x, AdvanceTryPhase(w, o, s))
    decreases StackWeight(s.frames), 1
  {
    hide CloseFrame, ErrorJson;
    var f := Top(s);
    if f.phase != InFinally && f.finallyIds != [] {
      TopQuiet(x, s.frames[..|s.frames| - 1], f.(phase := InFinally, ids := f.finallyIds, position := 0));
    } else if f.propagate.Some? {
      CloseQuiet(w, x, o, s.(env := s.env.(pending := f.propagate,
                                           locals := s.env.locals["error" := ErrorJson(f.propagate.value)])));
    } else {
      CloseQuiet(w, x, o, s);
    }
  }

  lemma PassEnteredQuiet(x: string, s: State, f: Frame)
    requires Quiet(x, s) && x != "iteration" && s.frames != [] && f == Top(s) && f.LoopFrame?
    requires f.index + 1 < f.cap && f.index + 1 < f.total
    ensures Quiet(x, EnterPass(s, f))
  {
    hide BindLocals;
    var g := f.(index := f.index + 1, position := 0);
    TopQuiet(x, s.frames[..|s.frames| - 1], g);
    BindQuiet(x, s.env.locals, g);
  }

  lemma {:induction false} PassQuiet(w: Workflow, x: string, o: Oracle, s: State)
    requires Quiet(x, s) && s.frames != [] && Top(s).LoopFrame? && x != "iteration" && x != "error"
    ensures Quiet(x, NextPass(w, o, s))
    decreases StackWeight(s.frames), 1
  {
    hide LeaveLoop, EnterPass, QuietFrames;
    var f := Top(s);
    var s1 := s.(env := After(s.env, o.guard(f.node, ViewOf(s.env, f.index))));
    CloseQuiet(w, x, o, s);
    CloseQuiet(w, x, o, s1);
    if f.index + 1 < f.cap && f.index + 1 < f.total {
      PassEnteredQuiet(x, s, f);
      PassEnteredQuiet(x, s1, f);
    }
  }

  lemma {:induction false} NextQuiet(w: Workflow, x: string, o: Oracle, s: State, name: Id)
    requires Quiet(x, s) && x != "iteration" && x != "error"
    ensures NextIteration(w, o, s, name).Some? ==> Quiet(x, NextIteration(w, o, s, name).value)
    decreases StackWeight(s.frames), 2
  {
    hide NextPass;
    var d := LoopDepth(s.frames, name);
    if d > 0 {
      WeightPrefix(s.frames, d);
      CutQuiet(x, s, d);
      PassQuiet(w, x, o, s.(frames := s.frames[..d]));
    }
  }

  lemma BreakQuiet(w: Workflow, x: string, o: Oracle, s: State, name: Id)
    requires Quiet(x, s) && x != "iteration" && x != "error"
    ensures FinishLoop(w, o, s, name).Some? ==> Quiet(x, FinishLoop(w, o, s, name).value)
  {
    hide CloseFrame;
    var d := LoopDepth(s.frames, name);
    if d > 0 {
      CutQuiet(x, s, d);
      CloseQuiet(w, x, o, s.(frames := s.frames[..d]));
    }
  }

  // ------------------------------------------------------------------ errors

  lemma RecoverQuiet(w: Workflow, x: string, o: Oracle, s: State, e: Error)
    requires Quiet(x, s) && s.frames != [] && Top(s).TryFrame? && Top(s).phase == InBody
    requires x != "iteration" && x != "error"
    ensures Quiet(x, RecoverInTry(w, o, s, e))
  {
    hide CloseFrame, ErrorJson, Routed;
    var f := Top(s);
    var routed := Routed(w, f, e.code);
    var handlers := if routed != "" then [routed] else f.catchIds;
    if handlers != [] {
      TopQuiet(x, s.frames[..|s.frames| - 1], f.(phase := InCatch, ids := handlers, position := 0));
    } else if f.finallyIds != [] {
      TopQuiet(x, s.frames[..|s.frames| - 1],
               f.(phase := InFinally, ids := f.finallyIds, position := 0, propagate := Some(e)));
    } else {
      CloseQuiet(w, x, o, s.(env := s.env.(pending := Some(e))));
    }
  }

  lemma RaiseQuiet(w: Workflow, x: string, o: Oracle, s: State, e: Error, blame: Id)
    requires Quiet(x, s) && x != "iteration" && x != "error"
    ensures Quiet(x, Raise(w, o, s, e, blame))
  {
    hide RecoverInTry, NextIteration, ResolveJump, QuietFrames, ErrorJson;
    if HasHandler(w, s.current) {
      JumpQuiet(x, s.(env := s.env.(locals := s.env.locals["error" := ErrorJson(e)])),
                w.index[s.current].onError.value);
    } else {
      var d := RecoverDepth(w, s.frames, e);
      if d > 0 {
        NextQuiet(w, x, o, s, "");
        CutQuiet(x, s, d);
        if s.frames[d - 1].TryFrame? {
          RecoverQuiet(w, x, o, s.(frames := s.frames[..d]), e);
        }
      }
    }
  }

  // ------------------------------------------------------------------ rounds and runs

  lemma EnterQuiet(x: string, s: State, f: Frame)
    requires Quiet(x, s) && x !in Writes(f) && f.ids != [] && x != "iteration"
    ensures Quiet(x, EnterBody(s, f))
  {
    hide ResolveJump;
    TopQuiet(x, s.frames, f);
    JumpQuiet(x, s.(frames := s.frames + [f]), f.ids[0]);
  }

  lemma ObeyQuiet(w: Workflow, x: string, o: Oracle, s: State, n: Node, signal: Signal)
    requires Quiet(x, s) && x != "iteration" && x != "error"
    ensures Quiet(x, Obey(w, o, s, n, signal))
  {
    hide Advance, ResolveJump, FinishLoop, NextIteration, QuietFrames;
    match signal
    case Continue => AdvanceQuiet(w, x, o, s, n.id);
    case JumpTo(target) => JumpQuiet(x, s, target);
    case LoopBreak(name) => BreakQuiet(w, x, o, s, name);
    case LoopContinue(name) => NextQuiet(w, x, o, s, name);
    case _ =>
  }

  lemma LeafQuiet(w: Workflow, x: string, o: Oracle, s: State, n: Node)
    requires Quiet(x, s) && x != "iteration" && x != "error"
    ensures Quiet(x, StepLeaf(w, o, s, n))
  {
    hide Raise, Obey, QuietFrames;
    var r := o.leaf(n.id, ViewOf(s.env, Iteration(s.frames)));
    var s1 := s.(env := After(s.env, r));
    if r.result.Ok? {
      ObeyQuiet(w, x, o, s1.(env := ForgetAnswer(s1.env, n.id)), n, r.result.value);
    } else {
      RaiseQuiet(w, x, o, s1, r.result.error, n.id);
    }
  }

  lemma LoopQuiet(w: Workflow, x: string, o: Oracle, s: State, n: Node)
    requires Quiet(x, s) && x != "iteration" && x != "error" && x !in NodeWrites(n)
    requires n.kind.Loop? && n.kind.body != []
    ensures Quiet(x, StepLoop(w, o, s, n))
  {
    hide Raise, Advance, EnterBody, QuietFrames, BindLocals;
    var r := o.items(n.id, ViewOf(s.env, Iteration(s.frames)));
    var s1 := s.(env := After(s.env, r));
    if r.result.Err? {
      RaiseQuiet(w, x, o, s1, r.result.error, n.id);
    } else if r.result.value == Some([]) {
      AdvanceQuiet(w, x, o, s1, n.id);
    } else {
      var f := LoopFrameFor(n, r.result.value);
      BindQuiet(x, s1.env.locals, f);
      EnterQuiet(x, s1.(env := BindIteration(s1.env, f)), f);
    }
  }

  lemma ConditionQuiet(w: Workflow, x: string, o: Oracle, s: State, n: Node)
    requires Quiet(x, s) && x != "iteration" && x != "error" && n.kind.Condition?
    ensures Quiet(x, StepCondition(w, o, s, n))
  {
    hide Raise, Advance, EnterBody, ResolveJump, QuietFrames;
    var r := o.branch(n.id, ViewOf(s.env, Iteration(s.frames)));
    var s1 := s.(env := After(s.env, r));
    if r.result.Err? {
      RaiseQuiet(w, x, o, s1, r.result.error, n.id);
    } else {
      var taken := r.result.value;
      var body := if taken then n.kind.thenBody else n.kind.elseBody;
      AdvanceQuiet(w, x, o, s1, n.id);
      JumpQuiet(x, s1, if taken then n.kind.onTrue else n.kind.onFalse);
      if body != [] {
        EnterQuiet(x, s1, BodyFrame(n.id, body, 0, ResumeTarget(n), taken));
      }
    }
  }

  lemma NodeQuiet(w: Workflow, x: string, o: Oracle, s: State, n: Node)
    requires WellIndexed(w) && Quiet(x, s) && x != "iteration" && x != "error" && x !in NodeWrites(n)
    requires n.id in w.index && w.index[n.id] == n
    ensures Quiet(x, RunNode(w, o, s, n))
  {
    hide StepLeaf, StepLoop, StepCondition, EnterBody, QuietFrames;
    match n.kind
    case Leaf(_, _) => LeafQuiet(w, x, o, s, n);
    case Loop(_, _, _, _, _) => LoopQuiet(w, x, o, s, n);
    case Try(_, _, _, _, _) => EnterQuiet(x, s, TryFrameFor(n));
    case Condition(_, _, _, _) => ConditionQuiet(w, x, o, s, n);
  }

  /** No round makes a name a local that the graph never binds. */
  lemma StepQuiet(w: Workflow, x: string, o: Oracle, s: State)
    requires WellIndexed(w) && NeverBound(w, x) && Quiet(x, s) && !s.finished
    ensures Quiet(x, Step(w, o, s))
  {
    hide Raise, Stray, HandleError, RunNode, Advance, QuietFrames;
    if s.env.pending.Some? {
      RaiseQuiet(w, x, o, s.(env := s.env.(pending := None)), s.env.pending.value, "");
    } else if s.cursor != "" && s.cursor !in w.index {
      RaiseQuiet(w, x, o, s.(cursor := ""), RoutingError(s.current), "");
      StrayIsRaise(w, o, s);
    } else if s.cursor != "" {
      var n := w.index[s.cursor];
      var s1 := s.(current := n.id, env := s.env.(visits := s.env.visits + 1));
      var s2 := s1.(env := s1.env.(visited := s1.env.visited + [n.id]));
      if s1.env.visits <= s1.env.budget {
        AdvanceQuiet(w, x, o, s2, n.id);
        NodeQuiet(w, x, o, s2, n);
      }
    }
  }

  /** Over a whole run, such a name is a local only if it was one at the start. */
  lemma {:induction false} RunQuiet(w: Workflow, x: string, o: Oracle, s: State, n: nat)
    requires WellIndexed(w) && NeverBound(w, x) && Quiet(x, s)
    ensures Quiet(x, StepN(w, o, s, n))
    decreases n
  {
    hide Step, Quiet, NeverBound, WellIndexed;
    if n > 0 && !s.finished {
      StepQuiet(w, x, o, s);
      RunQuiet(w, x, o, Step(w, o, s), n - 1);
    }
  }
}
