// What a run does to its frame stack: only the top frame ever changes, frames only move
// forward, errors go to the nearest frame that recovers, and a `finally` is not skipped
// by a body that ends.

module FrameStack {
  import opened Json
  import opened Blueprint
  import opened Machine
  import opened MainLoop

  function Rank(p: Phase): int {
    match p
    case InBody => 0
    case InCatch => 1
    case InFinally => 2
  }

  /** `g` is the frame `f`, later: passes and phases only go up, everything else is fixed. */
  predicate Moves(f: Frame, g: Frame) {
    match f
    case LoopFrame(node, ids, _, resume, whileMode, items, index, total, cap, itemVar, indexVar, onItemError) =>
      && g.LoopFrame? && g.node == node && g.ids == ids && g.resume == resume && g.whileMode == whileMode
      && g.items == items && g.total == total && g.cap == cap && g.itemVar == itemVar && g.indexVar == indexVar
      && g.onItemError == onItemError && index <= g.index
    case TryFrame(node, ids, _, resume, phase, catchIds, finallyIds, errorVar, catchWhen, propagate) =>
      && g.TryFrame? && g.node == node && g.resume == resume && g.catchIds == catchIds && g.finallyIds == finallyIds
      && g.errorVar == errorVar && g.catchWhen == catchWhen && Rank(phase) <= Rank(g.phase)
      && (g.phase == phase ==> g.ids == ids && g.propagate == propagate)
      && (phase != InFinally && g.phase == InFinally ==> g.ids == finallyIds)
    case BodyFrame(node, ids, _, resume, taken) =>
      g.BodyFrame? && g.node == node && g.ids == ids && g.resume == resume && g.taken == taken
    case BranchFrame(node, ids, _, resume, branch) =>
      g.BranchFrame? && g.node == node && g.ids == ids && g.resume == resume && g.branch == branch
  }

  lemma MovesFacts(f: Frame, g: Frame, h: Frame, k: int)
    ensures Moves(f, f) && Moves(f, AtPosition(f, k))
    ensures Moves(f, g) && Moves(g, h) ==> Moves(f, h)
  {
  }

  /** `b` is a bottom part of `a`, changed at most in its top frame. */
  ghost predicate Unwinds(a: seq<Frame>, b: seq<Frame>) {
    && |b| <= |a|
    && (b != [] ==> b[..|b| - 1] == a[..|b| - 1] && Moves(a[|b| - 1], b[|b| - 1]))
  }

  /** One step: unwind, or open one frame on top. */
  ghost predicate Evolves(a: seq<Frame>, b: seq<Frame>) {
    Unwinds(a, b) || (|b| == |a| + 1 && b[..|a|] == a)
  }

  lemma UnwindsPrefix(a: seq<Frame>, d: nat)
    requires d <= |a|
    ensures Unwinds(a, a[..d])
  {
    if d > 0 {
      MovesFacts(a[d - 1], a[d - 1], a[d - 1], 0);
    }
  }

  lemma UnwindsTrans(a: seq<Frame>, b: seq<Frame>, c: seq<Frame>)
    requires Unwinds(a, b) && Unwinds(b, c)
    ensures Unwinds(a, c)
  {
    if c != [] {
      var k := |c| - 1;
      assert b[..k] == a[..k];
      if |c| == |b| {
        MovesFacts(a[k], b[k], c[k], 0);
      } else {
        assert b[k] == a[k];
      }
    }
  }

  lemma UnwindsTop(a: seq<Frame>, f: Frame)
    requires a != [] && Moves(a[|a| - 1], f)
    ensures Unwinds(a, a[..|a| - 1] + [f])
  {
  }

  // ------------------------------------------------------------------ routing only unwinds

  lemma JumpUnwinds(s: State, target: Id)
    ensures Unwinds(s.frames, ResolveJump(s, target).frames)
  {
    hide BindIteration;
    UnwindsPrefix(s.frames, |s.frames|);
    assert s.frames[..|s.frames|] == s.frames;
    var d := JumpDepth(s.frames, target);
    if target != "" && d > 0 {
      var f := AtPosition(s.frames[d - 1], IndexOf(s.frames[d - 1].ids, target));
      MovesFacts(s.frames[d - 1], f, f, IndexOf(s.frames[d - 1].ids, target));
      assert ResolveJump(s, target).frames == s.frames[..d - 1] + [f];
    }
  }

  lemma {:induction false} AdvanceUnwinds(w: Workflow, o: Oracle, s: State, current: Id)
    ensures Unwinds(s.frames, Advance(w, o, s, current).frames)
    decreases StackWeight(s.frames), 4
  {
    hide FinishBody, ResolveJump, Moves, AtPosition;
    UnwindsPrefix(s.frames, |s.frames|);
    assert s.frames[..|s.frames|] == s.frames;
    if s.frames != [] {
      var f := Top(s);
      var k := IndexOf(f.ids, current);
      if Escapes(w, f, current) {
        JumpUnwinds(s, w.index[current].next.value);
      } else if 0 <= k && k + 1 < |f.ids| {
        MovesFacts(f, f, f, k + 1);
        UnwindsTop(s.frames, AtPosition(f, k + 1));
      } else {
        FinishUnwinds(w, o, s, k >= 0);
      }
    }
  }

  lemma {:induction false} PopUnwinds(w: Workflow, o: Oracle, s: State, s': State, current: Id)
    requires s.frames != [] && s'.frames == Popped(s).frames
    ensures Unwinds(s.frames, Advance(w, o, s', current).frames)
    decreases StackWeight(s.frames), 0
  {
    hide Advance, Moves;
    WeightPrefix(s.frames, |s.frames| - 1);
    UnwindsPrefix(s.frames, |s.frames| - 1);
    AdvanceUnwinds(w, o, s', current);
    UnwindsTrans(s.frames, s'.frames, Advance(w, o, s', current).frames);
  }

  lemma {:induction false} CloseUnwinds(w: Workflow, o: Oracle, s: State)
    requires s.frames != []
    ensures Unwinds(s.frames, CloseFrame(w, o, s).frames)
    decreases StackWeight(s.frames), 1
  {
    hide Advance, Unwinds;
    PopUnwinds(w, o, s, Popped(s).(env := EraseLocals(s.env, Top(s)), current := Top(s).node), Top(s).node);
  }

  lemma {:induction false} FinishUnwinds(w: Workflow, o: Oracle, s: State, atEnd: bool)
    requires s.frames != []
    ensures Unwinds(s.frames, FinishBody(w, o, s, atEnd).frames)
    decreases StackWeight(s.frames), 3
  {
    hide Advance, AdvanceTryPhase, NextIteration, Unwinds;
    var f := Top(s);
    UnwindsPrefix(s.frames, |s.frames|);
    UnwindsPrefix(s.frames, |s.frames| - 1);
    assert s.frames[..|s.frames|] == s.frames;
    match f
    case LoopFrame(_, _, _, _, _, _, _, _, _, _, _, _) =>
      NextUnwinds(w, o, s, "");
    case TryFrame(_, _, _, _, _, _, _, _, _, _) =>
      PhaseUnwinds(w, o, s);
      var t := AdvanceTryPhase(w, o, s);
      AdvanceUnwinds(w, o, t, f.node);
      UnwindsTrans(s.frames, t.frames, Advance(w, o, t, f.node).frames);
    case BranchFrame(_, _, _, _, _) =>
    case BodyFrame(_, _, _, _, _) =>
      PopUnwinds(w, o, s, Popped(s), f.node);
  }

  lemma {:induction false} PhaseUnwinds(w: Workflow, o: Oracle, s: State)
    requires s.frames != [] && Top(s).TryFrame?
    ensures Unwinds(s.frames, AdvanceTryPhase(w, o, s).frames)
    decreases StackWeight(s.frames), 2
  {
    hide CloseFrame, ErrorJson;
    var f := Top(s);
    if f.phase != InFinally && f.finallyIds != [] {
      UnwindsTop(s.frames, f.(phase := InFinally, ids := f.finallyIds, position := 0));
    } else if f.propagate.Some? {
      CloseUnwinds(w, o, s.(env := s.env.(pending := f.propagate,
                                        locals := s.env.locals["error" := ErrorJson(f.propagate.value)])));
    } else {
      CloseUnwinds(w, o, s);
    }
  }

  lemma {:induction false} PassUnwinds(w: Workflow, o: Oracle, s: State)
    requires s.frames != [] && Top(s).LoopFrame?
    ensures Unwinds(s.frames, NextPass(w, o, s).frames)
    decreases StackWeight(s.frames), 1
  {
    hide Advance, Unwinds, EraseLocals, BindIteration;
    var f := Top(s);
    UnwindsPrefix(s.frames, |s.frames|);
    assert s.frames[..|s.frames|] == s.frames;
    var r := o.guard(f.node, ViewOf(s.env, f.index));
    PopUnwinds(w, o, s, Popped(s).(env := EraseLocals(s.env, f), current := f.node), f.node);
    PopUnwinds(w, o, s, Popped(s).(env := EraseLocals(After(s.env, r), f), current := f.node), f.node);
    UnwindsTop(s.frames, f.(index := f.index + 1, position := 0));
  }

  lemma {:induction false} NextUnwinds(w: Workflow, o: Oracle, s: State, name: Id)
    ensures NextIteration(w, o, s, name).Some? ==> Unwinds(s.frames, NextIteration(w, o, s, name).value.frames)
    decreases StackWeight(s.frames), 2
  {
    hide NextPass, Unwinds;
    var d := LoopDepth(s.frames, name);
    if d > 0 {
      WeightPrefix(s.frames, d);
      UnwindsPrefix(s.frames, d);
      PassUnwinds(w, o, s.(frames := s.frames[..d]));
      UnwindsTrans(s.frames, s.frames[..d], NextPass(w, o, s.(frames := s.frames[..d])).frames);
    }
  }

  lemma RecoverUnwinds(w: Workflow, o: Oracle, s: State, e: Error)
    requires s.frames != [] && Top(s).TryFrame? && Top(s).phase == InBody
    ensures Unwinds(s.frames, RecoverInTry(w, o, s, e).frames)
  {
    hide CloseFrame, BindError, Unwinds;
    var f := Top(s);
    var handlers := if Routed(w, f, e.code) != "" then [Routed(w, f, e.code)] else f.catchIds;
    if handlers != [] {
      UnwindsTop(s.frames, f.(phase := InCatch, ids := handlers, position := 0));
    } else if f.finallyIds != [] {
      UnwindsTop(s.frames, f.(phase := InFinally, ids := f.finallyIds, position := 0, propagate := Some(e)));
    } else {
      CloseUnwinds(w, o, s.(env := s.env.(pending := Some(e))));
    }
  }

  lemma RaiseUnwinds(w: Workflow, o: Oracle, s: State, e: Error, blame: Id)
    ensures Unwinds(s.frames, Raise(w, o, s, e, blame).frames)
  {
    hide ResolveJump, NextIteration, RecoverInTry, Unwinds, ErrorJson;
    UnwindsPrefix(s.frames, |s.frames|);
    assert s.frames[..|s.frames|] == s.frames;
    if HasHandler(w, s.current) {
      JumpUnwinds(s.(env := s.env.(locals := s.env.locals["error" := ErrorJson(e)])), w.index[s.current].onError.value);
    } else {
      var d := RecoverDepth(w, s.frames, e);
      if d > 0 && s.frames[d - 1].LoopFrame? {
        NextUnwinds(w, o, s, "");
      } else if d > 0 {
        var s1 := s.(frames := s.frames[..d]);
        UnwindsPrefix(s.frames, d);
        RecoverUnwinds(w, o, s1, e);
        UnwindsTrans(s.frames, s1.frames, RecoverInTry(w, o, s1, e).frames);
      }
    }
  }

  // ------------------------------------------------------------------ steps and runs

  lemma EnterEvolves(s: State, f: Frame)
    requires f.ids != [] && f.ids[0] != ""
    ensures Evolves(s.frames, EnterBody(s, f).frames)
  {
    hide BindIteration;
    assert f.ids[0] in f.ids;
    assert JumpDepth(s.frames + [f], f.ids[0]) == |s.frames| + 1;
    assert (s.frames + [f])[..|s.frames|] == s.frames;
  }

  /** No body starts with the empty string. */
  ghost predicate NamedBodies(w: Workflow) {
    forall id :: id in w.index ==>
      match w.index[id].kind
      case Loop(body, _, _, _, _) => body != [] && body[0] != ""
      case Try(body, _, _, _, _) => body != [] && body[0] != ""
      case Condition(_, _, a, b) => (a != [] ==> a[0] != "") && (b != [] ==> b[0] != "")
      case Leaf(_, _) => true
  }

  lemma ObeyEvolves(w: Workflow, o: Oracle, s: State, n: Node, signal: Signal)
    ensures Unwinds(s.frames, Obey(w, o, s, n, signal).frames)
  {
    hide Advance, ResolveJump, CloseFrame, NextIteration, Unwinds;
    UnwindsPrefix(s.frames, |s.frames|);
    assert s.frames[..|s.frames|] == s.frames;
    match signal
    case Continue => AdvanceUnwinds(w, o, s, n.id);
    case JumpTo(target) => JumpUnwinds(s, target);
    case LoopBreak(name) =>
      var d := LoopDepth(s.frames, name);
      if d > 0 {
        UnwindsPrefix(s.frames, d);
        CloseUnwinds(w, o, s.(frames := s.frames[..d]));
        UnwindsTrans(s.frames, s.frames[..d], CloseFrame(w, o, s.(frames := s.frames[..d])).frames);
      }
    case LoopContinue(name) => NextUnwinds(w, o, s, name);
    case _ =>
  }

  lemma NodeEvolves(w: Workflow, o: Oracle, s: State, n: Node)
    requires WellIndexed(w) && NamedBodies(w) && n.id in w.index && w.index[n.id] == n
    ensures Evolves(s.frames, RunNode(w, o, s, n).frames)
  {
    hide Advance, Raise, Obey, EnterBody, Unwinds, ResolveJump, BindIteration;
    match n.kind
    case Leaf(_, _) =>
      var r := o.leaf(n.id, ViewOf(s.env, Iteration(s.frames)));
      var s1 := s.(env := After(s.env, r));
      if r.result.Ok? {
        ObeyEvolves(w, o, s1.(env := ForgetAnswer(s1.env, n.id)), n, r.result.value);
      } else {
        RaiseUnwinds(w, o, s1, r.result.error, n.id);
      }
    case Loop(_, _, _, _, _) =>
      var r := o.items(n.id, ViewOf(s.env, Iteration(s.frames)));
      var s1 := s.(env := After(s.env, r));
      if r.result.Err? {
        RaiseUnwinds(w, o, s1, r.result.error, n.id);
      } else {
        AdvanceUnwinds(w, o, s1, n.id);
        var f := LoopFrameFor(n, r.result.value);
        EnterEvolves(s1.(env := BindIteration(s1.env, f)), f);
      }
    case Try(_, _, _, _, _) =>
      EnterEvolves(s, TryFrameFor(n));
    case Condition(onTrue, onFalse, a, b) =>
      var r := o.branch(n.id, ViewOf(s.env, Iteration(s.frames)));
      var s1 := s.(env := After(s.env, r));
      if r.result.Err? {
        RaiseUnwinds(w, o, s1, r.result.error, n.id);
      } else {
        var body := if r.result.value then a else b;
        AdvanceUnwinds(w, o, s1, n.id);
        JumpUnwinds(s1, if r.result.value then onTrue else onFalse);
        if body != [] {
          EnterEvolves(s1, BodyFrame(n.id, body, 0, ResumeTarget(n), r.result.value));
        }
      }
  }

  /** Every round of the main loop unwinds the stack, changing at most the top frame left, or opens one frame. */
  lemma StepEvolves(w: Workflow, o: Oracle, s: State)
    requires WellIndexed(w) && NamedBodies(w) && !s.finished
    ensures Evolves(s.frames, Step(w, o, s).frames)
  {
    hide Advance, Raise, Stray, HandleError, RunNode, Unwinds, NamedBodies;
    UnwindsPrefix(s.frames, |s.frames|);
    assert s.frames[..|s.frames|] == s.frames;
    if s.env.pending.Some? {
      RaiseUnwinds(w, o, s.(env := s.env.(pending := None)), s.env.pending.value, "");
    } else if s.cursor != "" && s.cursor !in w.index {
      RaiseUnwinds(w, o, s.(cursor := ""), RoutingError(s.current), "");
      StrayIsRaise(w, o, s);
    } else if s.cursor != "" {
      var n := w.index[s.cursor];
      var s1 := s.(current := n.id, env := s.env.(visits := s.env.visits + 1));
      var s2 := s1.(env := s1.env.(visited := s1.env.visited + [n.id]));
      AdvanceUnwinds(w, o, s2, n.id);
      NodeEvolves(w, o, s2, n);
    }
  }

  lemma EvolvesKeeps(a: seq<Frame>, b: seq<Frame>, k: nat)
    requires Evolves(a, b) && k < |a| && k < |b|
    ensures b[..k] == a[..k] && Moves(a[k], b[k])
  {
    MovesFacts(a[k], a[k], a[k], 0);
    if |b| == |a| + 1 {
      assert b[k] == b[..|a|][k] && b[..k] == b[..|a|][..k];
    } else if k < |b| - 1 {
      assert b[k] == b[..|b| - 1][k] && b[..k] == b[..|b| - 1][..k];
    }
  }

  ghost predicate OpenThroughout(w: Workflow, o: Oracle, s: State, n: nat, k: nat)
    requires WellIndexed(w)
    decreases n
  {
    k < |s.frames| && (n == 0 || s.finished || OpenThroughout(w, o, Step(w, o, s), n - 1, k))
  }

  /**
   * Over any number of rounds in which frame `k` stays open, nothing beneath it changes and it only moves
   * forward: a loop's index never falls, and a try goes body, catch, finally without ever going back.
   */
  lemma {:induction false} FrameHistory(w: Workflow, o: Oracle, s: State, n: nat, k: nat)
    requires WellIndexed(w) && NamedBodies(w) && OpenThroughout(w, o, s, n, k)
    ensures k < |StepN(w, o, s, n).frames|
    ensures StepN(w, o, s, n).frames[..k] == s.frames[..k]
    ensures Moves(s.frames[k], StepN(w, o, s, n).frames[k])
    decreases n
  {
    hide Step, Moves, Evolves, NamedBodies, WellIndexed;
    MovesFacts(s.frames[k], s.frames[k], s.frames[k], 0);
    if n > 0 && !s.finished {
      var t := Step(w, o, s);
      StepEvolves(w, o, s);
      FrameHistory(w, o, t, n - 1, k);
      EvolvesKeeps(s.frames, t.frames, k);
      MovesFacts(s.frames[k], t.frames[k], StepN(w, o, s, n).frames[k], 0);
    }
  }

  // ------------------------------------------------------------------ error routing

  /** The parser's demand on a try: it catches something or cleans up. */
  predicate Useful(f: Frame)
    requires f.TryFrame?
  {
    f.catchIds != [] || f.finallyIds != [] || f.catchWhen != map[]
  }

  /** `g` is the try frame `f` dealing with the error: in its catch, or in its cleanup with the error parked. */
  predicate Handling(w: Workflow, f: Frame, e: Error, g: Frame) {
    && f.TryFrame? && g.TryFrame? && f.phase == InBody && g.node == f.node && g.ids != []
    && (if Routed(w, f, e.code) != "" then g.phase == InCatch && g.ids == [Routed(w, f, e.code)]
        else if f.catchIds != [] then g.phase == InCatch && g.ids == f.catchIds
        else g.phase == InFinally && g.ids == f.finallyIds && g.propagate == Some(e))
  }

  lemma HandledInPlace(w: Workflow, o: Oracle, s: State, e: Error)
    requires s.frames != [] && Top(s).TryFrame? && Recovers(w, Top(s), e) && Useful(Top(s))
    ensures var t := RecoverInTry(w, o, s, e);
            && |t.frames| == |s.frames| && t.frames[..|s.frames| - 1] == s.frames[..|s.frames| - 1]
            && Handling(w, Top(s), e, Top(t)) && t.cursor == Top(t).ids[0]
  {
    hide BindError, Routed;
  }

  lemma HandlingFrames(w: Workflow, f: Frame, e: Error, g: Frame)
    requires Handling(w, f, e, g)
    ensures f.TryFrame? && g.TryFrame? && g.ids != []
  {
    hide Routed;
  }

  /**
   * Nearest handler wins, and handling is stack-safe. If the node has no handler of its own and the innermost
   * frame that recovers is a try, that try is in its body phase, every frame above it is gone, no frame above
   * it could have recovered, every frame beneath it is unchanged, and control stands at the first node of its
   * catch (its `when` route if it has one), or of its `finally` with the error parked.
   */
  lemma NearestTryHandles(w: Workflow, o: Oracle, s: State, e: Error)
    requires !HasHandler(w, s.current)
    requires var d := RecoverDepth(w, s.frames, e);
             d > 0 && s.frames[d - 1].TryFrame? && Useful(s.frames[d - 1])
    ensures var d := RecoverDepth(w, s.frames, e);
            var r := HandleError(w, o, s, e);
            && r.Some? && |r.value.frames| == d && r.value.frames[..d - 1] == s.frames[..d - 1]
            && (forall k :: d <= k < |s.frames| ==> !Recovers(w, s.frames[k], e))
            && Handling(w, s.frames[d - 1], e, r.value.frames[d - 1])
            && r.value.cursor == r.value.frames[d - 1].ids[0]
  {
    hide RecoverInTry, Routed, NextIteration, RecoverDepth, HasHandler, Handling, Useful, ResolveJump;
    var d := RecoverDepth(w, s.frames, e);
    HandledInPlace(w, o, s.(frames := s.frames[..d]), e);
    assert s.frames[..d][..d - 1] == s.frames[..d - 1];
    HandlingFrames(w, s.frames[d - 1], e, RecoverInTry(w, o, s.(frames := s.frames[..d]), e).frames[d - 1]);
  }

  /**
   * A body or catch body that falls off its end enters a non-empty `finally`, with the stack otherwise as it
   * was; control passes the try frame only from the finally phase or when there is no `finally`.
   */
  lemma EndingRunsFinally(w: Workflow, o: Oracle, s: State, atEnd: bool)
    requires s.frames != [] && Top(s).TryFrame? && "" !in Top(s).finallyIds
    ensures var f := Top(s);
            var t := FinishBody(w, o, s, atEnd);
            if f.phase != InFinally && f.finallyIds != [] then
              && |t.frames| == |s.frames| && t.frames[..|s.frames| - 1] == s.frames[..|s.frames| - 1]
              && Top(t).TryFrame? && Top(t).phase == InFinally && Top(t).ids == f.finallyIds
              && t.cursor == f.finallyIds[0] && t.env == s.env
            else |AdvanceTryPhase(w, o, s).frames| < |s.frames|
  {
    hide Advance, ErrorJson;
    var f := Top(s);
    if f.phase != InFinally && f.finallyIds != [] {
      assert f.finallyIds[0] in f.finallyIds;
    } else {
      var env1 := if f.propagate.Some? then s.env.(pending := f.propagate,
                        locals := s.env.locals["error" := ErrorJson(f.propagate.value)]) else s.env;
      AdvanceUnwinds(w, o, Popped(s).(env := EraseLocals(env1, f), current := f.node), f.node);
    }
  }
}
