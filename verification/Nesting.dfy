// The stack of a structured program mirrors its nesting: every open frame works on a body of its owner, every
// owner stands in the body of the frame beneath, and control stands in the body of the top frame.

module Nesting {
  import opened Json
  import opened Blueprint
  import opened Machine
  import opened MainLoop
  import opened Structured
  import opened Refinement
  import opened Parser
  import opened FrameStack
  import opened Parked

  /** The nodes in the inline bodies of a node. */
  function InnerIds(n: Node): set<Id> {
    match n.kind
    case Leaf(_, _) => {}
    case Loop(body, _, _, _, _) => Listed(body)
    case Try(body, catchBody, finallyBody, _, _) => Listed(body) + Listed(catchBody) + Listed(finallyBody)
    case Condition(_, _, thenBody, elseBody) => Listed(thenBody) + Listed(elseBody)
  }

  function Listed(ids: seq<Id>): set<Id> {
    set id | id in ids
  }

  /** A node of a graph with inline bodies only: edges join top-level nodes, and bodies hold the others. */
  ghost predicate InlineNode(w: Workflow, tops: set<Id>, n: Node) {
    && n.onError == None
    && (n.next.Some? ==> n.id in tops && n.next.value in tops)
    && (forall b :: b in InnerIds(n) ==> b in w.index && b !in tops)
    && (n.kind.Try? ==> n.kind.catchWhen == map[])
    && (n.kind.Condition? ==> n.kind.onTrue == "" && n.kind.onFalse == "")
  }

  ghost predicate Inlined(w: Workflow, tops: set<Id>) {
    WellIndexed(w) && tops <= w.index.Keys && forall id :: id in w.index ==> InlineNode(w, tops, w.index[id])
  }

  /** The frame works on a body of the node it belongs to. */
  predicate FrameOf(w: Workflow, f: Frame) {
    && f.node in w.index && f.ids != []
    && var n := w.index[f.node];
       f.resume == ResumeTarget(n) &&
       match f
       case LoopFrame(_, ids, _, _, _, _, _, _, _, _, _, _) => n.kind.Loop? && ids == n.kind.body
       case TryFrame(_, ids, _, _, phase, catchIds, finallyIds, _, catchWhen, _) =>
         && n.kind.Try? && catchIds == n.kind.catchBody && finallyIds == n.kind.finallyBody && catchWhen == map[]
         && ids == (match phase
                    case InBody => n.kind.tryBody
                    case InCatch => catchIds
                    case InFinally => finallyIds)
       case BodyFrame(_, ids, _, _, taken) =>
         n.kind.Condition? && ids == if taken then n.kind.thenBody else n.kind.elseBody
       case BranchFrame(_, _, _, _, _) => false
  }

  /** Under `d` open frames, the node stands in the body of the last of them, or at top level. */
  predicate Seat(tops: set<Id>, frames: seq<Frame>, d: nat, id: Id)
    requires d <= |frames|
  {
    if d == 0 then id in tops else id in frames[d - 1].ids
  }

  predicate Nest(w: Workflow, tops: set<Id>, frames: seq<Frame>) {
    forall k :: 0 <= k < |frames| ==> FrameOf(w, frames[k]) && Seat(tops, frames, k, frames[k].node)
  }

  /** The stack mirrors the nesting, and as long as the run goes on control stands in the body of the top frame. */
  predicate Placed(w: Workflow, tops: set<Id>, s: State) {
    Nest(w, tops, s.frames) && (s.finished || Seat(tops, s.frames, |s.frames|, s.cursor))
  }

  lemma SeatExists(w: Workflow, tops: set<Id>, frames: seq<Frame>, id: Id)
    requires Inlined(w, tops) && Nest(w, tops, frames) && Seat(tops, frames, |frames|, id)
    ensures id in w.index && id != ""
  {
    hide Nest, InlineNode;
    if frames != [] {
      TopOwned(w, tops, frames);
      NoWayOut(w, tops, frames[|frames| - 1], id);
    }
  }

  // ------------------------------------------------------------------ stacks

  lemma CutNest(w: Workflow, tops: set<Id>, frames: seq<Frame>, d: nat)
    requires Nest(w, tops, frames) && d <= |frames|
    ensures Nest(w, tops, frames[..d])
  {
    hide FrameOf;
    forall k | 0 <= k < d
      ensures Seat(tops, frames[..d], k, frames[..d][k].node)
    {
      assert Seat(tops, frames, k, frames[k].node);
    }
  }

  lemma PushNest(w: Workflow, tops: set<Id>, below: seq<Frame>, f: Frame)
    requires Nest(w, tops, below) && FrameOf(w, f) && Seat(tops, below, |below|, f.node)
    ensures Nest(w, tops, below + [f])
  {
    hide FrameOf;
    forall k | 0 <= k <= |below|
      ensures FrameOf(w, (below + [f])[k]) && Seat(tops, below + [f], k, (below + [f])[k].node)
    {
      if k < |below| {
        assert Seat(tops, below, k, below[k].node);
      }
    }
  }

  /** The top frame, changed, still belongs to its node. */
  lemma ReplaceNest(w: Workflow, tops: set<Id>, frames: seq<Frame>, g: Frame)
    requires Nest(w, tops, frames) && frames != [] && FrameOf(w, g) && g.node == frames[|frames| - 1].node
    ensures Nest(w, tops, frames[..|frames| - 1] + [g])
  {
    hide FrameOf;
    var n := |frames| - 1;
    CutNest(w, tops, frames, n);
    assert Seat(tops, frames, n, frames[n].node);
    PushNest(w, tops, frames[..n], g);
  }

  lemma TopOwned(w: Workflow, tops: set<Id>, frames: seq<Frame>)
    requires Nest(w, tops, frames) && frames != []
    ensures FrameOf(w, frames[|frames| - 1])
    ensures Seat(tops, frames[..|frames| - 1], |frames| - 1, frames[|frames| - 1].node)
  {
    hide FrameOf;
    assert Seat(tops, frames, |frames| - 1, frames[|frames| - 1].node);
  }

  /** Nodes of a body have no edge, so none leads out of it. */
  lemma NoWayOut(w: Workflow, tops: set<Id>, f: Frame, id: Id)
    requires Inlined(w, tops) && FrameOf(w, f) && id in f.ids
    ensures id in w.index && id !in tops && w.index[id].next == None && !Escapes(w, f, id)
  {
    assert InlineNode(w, tops, w.index[f.node]);
    assert id in InnerIds(w.index[f.node]);
    assert InlineNode(w, tops, w.index[id]);
  }

  lemma JumpPlaced(w: Workflow, tops: set<Id>, s: State, target: Id)
    requires Nest(w, tops, s.frames) && target != "" && (target in tops || JumpDepth(s.frames, target) > 0)
    ensures Placed(w, tops, ResolveJump(s, target))
  {
    hide BindIteration, FrameOf;
    var d := JumpDepth(s.frames, target);
    if target != "" && d > 0 {
      CutNest(w, tops, s.frames, d);
      assert FrameOf(w, s.frames[d - 1]);
      MovedOwned(w, s.frames[d - 1], IndexOf(s.frames[d - 1].ids, target));
      assert s.frames[..d][..d - 1] == s.frames[..d - 1];
      ReplaceNest(w, tops, s.frames[..d], AtPosition(s.frames[d - 1], IndexOf(s.frames[d - 1].ids, target)));
    }
  }

  lemma MovedOwned(w: Workflow, f: Frame, k: int)
    requires FrameOf(w, f)
    ensures FrameOf(w, AtPosition(f, k)) && AtPosition(f, k).ids == f.ids && AtPosition(f, k).node == f.node
  {
  }

  // ------------------------------------------------------------------ routing

  lemma {:induction false} AdvancePlaced(w: Workflow, tops: set<Id>, o: Oracle, s: State, current: Id)
    requires Inlined(w, tops) && Nest(w, tops, s.frames) && Seat(tops, s.frames, |s.frames|, current)
    ensures Placed(w, tops, Advance(w, o, s, current))
    decreases StackWeight(s.frames), 4
  {
    hide FinishBody, ResolveJump, FrameOf, Nest, InlineNode, AtPosition;
    if s.frames == [] {
      TopEdge(w, tops, current);
    } else {
      var f := Top(s);
      var k := IndexOf(f.ids, current);
      TopOwned(w, tops, s.frames);
      NoWayOut(w, tops, f, current);
      if k + 1 < |f.ids| {
        MovedOwned(w, f, k + 1);
        ReplaceNest(w, tops, s.frames, AtPosition(f, k + 1));
      } else {
        FinishPlaced(w, tops, o, s);
      }
    }
  }

  lemma TopEdge(w: Workflow, tops: set<Id>, id: Id)
    requires Inlined(w, tops) && id in tops
    ensures id in w.index && (w.index[id].next.Some? ==> w.index[id].next.value in tops)
  {
    assert InlineNode(w, tops, w.index[id]);
  }

  lemma {:induction false} ClosePlaced(w: Workflow, tops: set<Id>, o: Oracle, s: State)
    requires Inlined(w, tops) && Nest(w, tops, s.frames) && s.frames != []
    ensures Placed(w, tops, CloseFrame(w, o, s))
    ensures Placed(w, tops, LeaveLoop(w, o, s, Top(s)))
    decreases StackWeight(s.frames), 0
  {
    hide Advance, Nest, FrameOf, EraseLocals, Placed, Inlined, Seat;
    WeightPrefix(s.frames, |s.frames| - 1);
    CutNest(w, tops, s.frames, |s.frames| - 1);
    TopOwned(w, tops, s.frames);
    AdvancePlaced(w, tops, o, Popped(s).(env := EraseLocals(s.env, Top(s)), current := Top(s).node), Top(s).node);
  }

  lemma {:induction false} FinishPlaced(w: Workflow, tops: set<Id>, o: Oracle, s: State)
    requires Inlined(w, tops) && Nest(w, tops, s.frames) && s.frames != []
    ensures Placed(w, tops, FinishBody(w, o, s, true))
    decreases StackWeight(s.frames), 3
  {
    hide Advance, AdvanceTryPhase, NextIteration, Nest, InlineNode;
    var f := Top(s);
    WeightPrefix(s.frames, |s.frames| - 1);
    CutNest(w, tops, s.frames, |s.frames| - 1);
    TopOwned(w, tops, s.frames);
    match f
    case LoopFrame(_, _, _, _, _, _, _, _, _, _, _, _) => NextPlaced(w, tops, o, s, "");
    case TryFrame(_, _, _, _, _, _, _, _, _, _) => PhasePlaced(w, tops, o, s);
    case BranchFrame(_, _, _, _, _) =>
    case BodyFrame(_, _, _, resume, _) =>
      if resume == "" {
        AdvancePlaced(w, tops, o, Popped(s), f.node);
      } else {
        ResumeIsTop(w, tops, s);
      }
  }

  /** Only a top-level node has a node to go on with. */
  lemma ResumeIsTop(w: Workflow, tops: set<Id>, s: State)
    requires Inlined(w, tops) && Nest(w, tops, s.frames) && s.frames != [] && Top(s).resume != ""
    ensures |s.frames| == 1 && Top(s).resume in tops
  {
    hide Nest;
    TopOwned(w, tops, s.frames);
    assert InlineNode(w, tops, w.index[Top(s).node]);
    if |s.frames| > 1 {
      CutNest(w, tops, s.frames, |s.frames| - 1);
      TopOwned(w, tops, s.frames[..|s.frames| - 1]);
      NoWayOut(w, tops, s.frames[|s.frames| - 2], Top(s).node);
    }
  }

  lemma {:induction false} PhasePlaced(w: Workflow, tops: set<Id>, o: Oracle, s: State)
    requires Inlined(w, tops) && Nest(w, tops, s.frames) && s.frames != [] && Top(s).TryFrame?
    ensures Placed(w, tops, AdvanceTryPhase(w, o, s))
    ensures AdvanceTryPhase(w, o, s).cursor != "" || AdvanceTryPhase(w, o, s).finished
    decreases StackWeight(s.frames), 1
  {
    hide CloseFrame, ErrorJson, Nest, InlineNode, Inlined, FrameOf;
    var f := Top(s);
    TopOwned(w, tops, s.frames);
    if f.phase != InFinally && f.finallyIds != [] {
      var g := f.(phase := InFinally, ids := f.finallyIds, position := 0);
      RephasedOwned(w, f, g);
      ReplaceNest(w, tops, s.frames, g);
    } else if f.propagate.Some? {
      ClosePlaced(w, tops, o, s.(env := s.env.(pending := f.propagate,
                                               locals := s.env.locals["error" := ErrorJson(f.propagate.value)])));
    } else {
      ClosePlaced(w, tops, o, s);
    }
    var t := AdvanceTryPhase(w, o, s);
    if !t.finished {
      SeatExists(w, tops, t.frames, t.cursor);
    }
  }

  lemma PassEnteredPlaced(w: Workflow, tops: set<Id>, s: State, f: Frame)
    requires Nest(w, tops, s.frames) && s.frames != [] && f == Top(s) && f.LoopFrame?
    requires f.index + 1 < f.cap && f.index + 1 < f.total
    ensures Placed(w, tops, EnterPass(s, f))
  {
    hide BindLocals, Nest;
    TopOwned(w, tops, s.frames);
    var g := f.(index := f.index + 1, position := 0);
    assert FrameOf(w, g) && g.ids[0] in g.ids;
    ReplaceNest(w, tops, s.frames, g);
  }

  lemma {:induction false} PassPlaced(w: Workflow, tops: set<Id>, o: Oracle, s: State)
    requires Inlined(w, tops) && Nest(w, tops, s.frames) && s.frames != [] && Top(s).LoopFrame?
    ensures Placed(w, tops, NextPass(w, o, s))
    decreases StackWeight(s.frames), 1
  {
    hide LeaveLoop, EnterPass, Nest, Seat, Inlined;
    var f := Top(s);
    var s1 := s.(env := After(s.env, o.guard(f.node, ViewOf(s.env, f.index))));
    ClosePlaced(w, tops, o, s);
    ClosePlaced(w, tops, o, s1);
    if f.index + 1 < f.cap && f.index + 1 < f.total {
      PassEnteredPlaced(w, tops, s, f);
      PassEnteredPlaced(w, tops, s1, f);
    }
  }

  lemma {:induction false} NextPlaced(w: Workflow, tops: set<Id>, o: Oracle, s: State, name: Id)
    requires Inlined(w, tops) && Nest(w, tops, s.frames)
    ensures NextIteration(w, o, s, name).Some? ==> Placed(w, tops, NextIteration(w, o, s, name).value)
    decreases StackWeight(s.frames), 2
  {
    hide NextPass, Nest, Placed, Inlined;
    var d := LoopDepth(s.frames, name);
    if d > 0 {
      WeightPrefix(s.frames, d);
      CutNest(w, tops, s.frames, d);
      PassPlaced(w, tops, o, s.(frames := s.frames[..d]));
    }
  }

  lemma BreakPlaced(w: Workflow, tops: set<Id>, o: Oracle, s: State, name: Id)
    requires Inlined(w, tops) && Nest(w, tops, s.frames)
    ensures FinishLoop(w, o, s, name).Some? ==> Placed(w, tops, FinishLoop(w, o, s, name).value)
  {
    hide CloseFrame, Nest, Placed, Inlined;
    var d := LoopDepth(s.frames, name);
    if d > 0 {
      CutNest(w, tops, s.frames, d);
      ClosePlaced(w, tops, o, s.(frames := s.frames[..d]));
    }
  }

  // ------------------------------------------------------------------ errors

  /** The try frame in its catch or its cleanup is still one of its node. */
  lemma RephasedOwned(w: Workflow, f: Frame, g: Frame)
    requires FrameOf(w, f) && f.TryFrame? && g.TryFrame? && g.ids != [] && g.phase != InBody
    requires g.node == f.node && g.resume == f.resume && g.catchWhen == f.catchWhen
    requires g.catchIds == f.catchIds && g.finallyIds == f.finallyIds
    requires g.ids == if g.phase == InCatch then f.catchIds else f.finallyIds
    ensures FrameOf(w, g) && g.ids[0] in g.ids
  {
  }

  lemma NoRoutes(w: Workflow, f: Frame, code: string)
    requires FrameOf(w, f) && f.TryFrame?
    ensures Routed(w, f, code) == ""
  {
  }

  lemma RecoverPlaced(w: Workflow, tops: set<Id>, o: Oracle, s: State, e: Error)
    requires Inlined(w, tops) && Nest(w, tops, s.frames)
    requires s.frames != [] && Top(s).TryFrame? && Top(s).phase == InBody
    ensures Placed(w, tops, RecoverInTry(w, o, s, e))
  {
    hide CloseFrame, BindError, Nest, Inlined, FrameOf, Routed;
    var f := Top(s);
    TopOwned(w, tops, s.frames);
    NoRoutes(w, f, e.code);
    if f.catchIds != [] {
      var g := f.(phase := InCatch, ids := f.catchIds, position := 0);
      RephasedOwned(w, f, g);
      ReplaceNest(w, tops, s.frames, g);
    } else if f.finallyIds != [] {
      var g := f.(phase := InFinally, ids := f.finallyIds, position := 0, propagate := Some(e));
      RephasedOwned(w, f, g);
      ReplaceNest(w, tops, s.frames, g);
    } else {
      ClosePlaced(w, tops, o, s.(env := s.env.(pending := Some(e))));
    }
  }

  lemma NoneHandles(w: Workflow, tops: set<Id>, id: Id)
    requires Inlined(w, tops)
    ensures !HasHandler(w, id)
  {
  }

  lemma RaisePlaced(w: Workflow, tops: set<Id>, o: Oracle, s: State, e: Error, blame: Id)
    requires Inlined(w, tops) && Nest(w, tops, s.frames)
    ensures Placed(w, tops, Raise(w, o, s, e, blame))
  {
    hide RecoverInTry, NextIteration, ResolveJump, Nest, Inlined, Seat;
    NoneHandles(w, tops, s.current);
    var d := RecoverDepth(w, s.frames, e);
    if d > 0 {
      NextPlaced(w, tops, o, s, "");
      CutNest(w, tops, s.frames, d);
      if s.frames[d - 1].TryFrame? {
        RecoverPlaced(w, tops, o, s.(frames := s.frames[..d]), e);
      }
    }
  }

  // ------------------------------------------------------------------ rounds and runs

  lemma EnterPlaced(w: Workflow, tops: set<Id>, s: State, f: Frame)
    requires Inlined(w, tops) && Nest(w, tops, s.frames) && FrameOf(w, f) && Seat(tops, s.frames, |s.frames|, f.node)
    ensures Placed(w, tops, EnterBody(s, f))
  {
    hide ResolveJump, Nest, Placed, FrameOf;
    PushNest(w, tops, s.frames, f);
    assert f.ids[0] in f.ids by { OwnedFilled(w, f); }
    NoWayOut(w, tops, f, f.ids[0]);
    JumpPlaced(w, tops, s.(frames := s.frames + [f]), f.ids[0]);
  }

  lemma OwnedFilled(w: Workflow, f: Frame)
    requires FrameOf(w, f)
    ensures f.ids != []
  {
  }

  /** Jumps lead into open bodies or to the top level, or end the run. */
  predicate KeepsPlace(tops: set<Id>, frames: seq<Frame>, target: Id) {
    target == "" || target in tops || JumpDepth(frames, target) > 0
  }

  /** ... or control has just been sent nowhere, which ends the run in the next round. */
  predicate Resting(w: Workflow, tops: set<Id>, s: State) {
    Placed(w, tops, s) || (Nest(w, tops, s.frames) && s.cursor == "")
  }

  lemma JumpNowhere(s: State)
    ensures ResolveJump(s, "") == s.(cursor := "")
  {
  }

  lemma ObeyPlaced(w: Workflow, tops: set<Id>, o: Oracle, s: State, n: Node, signal: Signal)
    requires Inlined(w, tops) && Nest(w, tops, s.frames) && Seat(tops, s.frames, |s.frames|, n.id)
    requires signal.JumpTo? ==> KeepsPlace(tops, s.frames, signal.target)
    ensures Resting(w, tops, Obey(w, o, s, n, signal))
  {
    hide Advance, ResolveJump, FinishLoop, NextIteration, Nest, Inlined;
    match signal
    case Continue => AdvancePlaced(w, tops, o, s, n.id);
    case JumpTo(target) =>
      JumpNowhere(s);
      if target != "" { JumpPlaced(w, tops, s, target); }
    case LoopBreak(name) => BreakPlaced(w, tops, o, s, name);
    case LoopContinue(name) => NextPlaced(w, tops, o, s, name);
    case _ =>
  }

  lemma LeafPlaced(w: Workflow, tops: set<Id>, o: Oracle, s: State, n: Node)
    requires Inlined(w, tops) && Nest(w, tops, s.frames) && Seat(tops, s.frames, |s.frames|, n.id)
    requires var r := o.leaf(n.id, ViewOf(s.env, Iteration(s.frames))).result;
             r.Ok? && r.value.JumpTo? ==> KeepsPlace(tops, s.frames, r.value.target)
    ensures Resting(w, tops, StepLeaf(w, o, s, n))
  {
    hide Raise, Obey, Nest, Inlined, Seat, ForgetAnswer;
    var r := o.leaf(n.id, ViewOf(s.env, Iteration(s.frames)));
    var s1 := s.(env := After(s.env, r));
    if r.result.Ok? {
      ObeyPlaced(w, tops, o, s1.(env := ForgetAnswer(s1.env, n.id)), n, r.result.value);
    } else {
      RaisePlaced(w, tops, o, s1, r.result.error, n.id);
    }
  }

  lemma LoopPlaced(w: Workflow, tops: set<Id>, o: Oracle, s: State, n: Node)
    requires Inlined(w, tops) && Nest(w, tops, s.frames) && Seat(tops, s.frames, |s.frames|, n.id)
    requires n.id in w.index && w.index[n.id] == n && n.kind.Loop? && n.kind.body != []
    ensures Placed(w, tops, StepLoop(w, o, s, n))
  {
    hide Raise, Advance, EnterBody, Nest, Inlined, Seat, BindLocals, Placed;
    var r := o.items(n.id, ViewOf(s.env, Iteration(s.frames)));
    var s1 := s.(env := After(s.env, r));
    if r.result.Err? {
      RaisePlaced(w, tops, o, s1, r.result.error, n.id);
    } else if r.result.value == Some([]) {
      AdvancePlaced(w, tops, o, s1, n.id);
    } else {
      var f := LoopFrameFor(n, r.result.value);
      EnterPlaced(w, tops, s1.(env := BindIteration(s1.env, f)), f);
    }
  }

  lemma ConditionPlaced(w: Workflow, tops: set<Id>, o: Oracle, s: State, n: Node)
    requires Inlined(w, tops) && Nest(w, tops, s.frames) && Seat(tops, s.frames, |s.frames|, n.id)
    requires n.id in w.index && w.index[n.id] == n && n.kind.Condition?
    ensures Placed(w, tops, StepCondition(w, o, s, n))
  {
    hide Raise, Advance, EnterBody, ResolveJump, Nest, Seat, Placed;
    assert InlineNode(w, tops, n);
    var r := o.branch(n.id, ViewOf(s.env, Iteration(s.frames)));
    var s1 := s.(env := After(s.env, r));
    if r.result.Err? {
      RaisePlaced(w, tops, o, s1, r.result.error, n.id);
    } else {
      AdvancePlaced(w, tops, o, s1, n.id);
      var body := if r.result.value then n.kind.thenBody else n.kind.elseBody;
      if body != [] {
        EnterPlaced(w, tops, s1, BodyFrame(n.id, body, 0, ResumeTarget(n), r.result.value));
      }
    }
  }

  lemma NodePlaced(w: Workflow, tops: set<Id>, o: Oracle, s: State, n: Node)
    requires Inlined(w, tops) && Nest(w, tops, s.frames) && Seat(tops, s.frames, |s.frames|, n.id)
    requires n.id in w.index && w.index[n.id] == n
    requires n.kind.Leaf? ==> var r := o.leaf(n.id, ViewOf(s.env, Iteration(s.frames))).result;
                              r.Ok? && r.value.JumpTo? ==> KeepsPlace(tops, s.frames, r.value.target)
    ensures Resting(w, tops, RunNode(w, o, s, n))
  {
    hide StepLeaf, StepLoop, StepCondition, EnterBody, Nest, Seat, Placed, InlineNode;
    match n.kind
    case Leaf(_, _) => LeafPlaced(w, tops, o, s, n);
    case Loop(_, _, _, _, _) => LoopPlaced(w, tops, o, s, n);
    case Try(_, _, _, _, _) =>
      TryOwned(w, tops, n);
      EnterPlaced(w, tops, s, TryFrameFor(n));
    case Condition(_, _, _, _) => ConditionPlaced(w, tops, o, s, n);
  }

  lemma TryOwned(w: Workflow, tops: set<Id>, n: Node)
    requires Inlined(w, tops) && n.id in w.index && w.index[n.id] == n && n.kind.Try?
    ensures FrameOf(w, TryFrameFor(n))
  {
    assert InlineNode(w, tops, n);
  }

  /** A jump made in this round leads into an open body or to the top level. */
  predicate RoundKeepsPlace(w: Workflow, tops: set<Id>, o: Oracle, s: State) {
    s.cursor in w.index && w.index[s.cursor].kind.Leaf? ==>
      var r := o.leaf(s.cursor, ViewOf(s.env, Iteration(s.frames))).result;
      r.Ok? && r.value.JumpTo? ==> KeepsPlace(tops, s.frames, r.value.target)
  }

  lemma StepPlaced(w: Workflow, tops: set<Id>, o: Oracle, s: State)
    requires Inlined(w, tops) && Resting(w, tops, s) && !s.finished && RoundKeepsPlace(w, tops, o, s)
    ensures Resting(w, tops, Step(w, o, s))
  {
    hide Raise, Stray, HandleError, RunNode, Advance, Nest, Seat, InlineNode;
    if s.env.pending.Some? {
      RaisePlaced(w, tops, o, s.(env := s.env.(pending := None)), s.env.pending.value, "");
    } else if s.cursor != "" {
      SeatExists(w, tops, s.frames, s.cursor);
      var n := w.index[s.cursor];
      var s1 := s.(current := n.id, env := s.env.(visits := s.env.visits + 1));
      var s2 := s1.(env := s1.env.(visited := s1.env.visited + [n.id]));
      assert ViewOf(s2.env, Iteration(s2.frames)) == ViewOf(s.env, Iteration(s.frames));
      if s1.env.visits <= s1.env.budget {
        AdvancePlaced(w, tops, o, s2, n.id);
        NodePlaced(w, tops, o, s2, n);
      }
    }
  }

  ghost predicate RoundsKeepPlace(w: Workflow, tops: set<Id>, o: Oracle, s: State, n: nat)
    requires WellIndexed(w)
  {
    forall m: nat :: m < n && !StepN(w, o, s, m).finished ==> RoundKeepsPlace(w, tops, o, StepN(w, o, s, m))
  }

  /** Over a whole run the stack mirrors the nesting, and control stands in the body of the top frame. */
  lemma {:induction false} RunPlaced(w: Workflow, tops: set<Id>, o: Oracle, s: State, n: nat)
    requires Inlined(w, tops) && Resting(w, tops, s) && RoundsKeepPlace(w, tops, o, s, n)
    ensures Resting(w, tops, StepN(w, o, s, n))
    decreases n
  {
    hide Step, Resting, RoundKeepsPlace, InlineNode;
    if n > 0 && !s.finished {
      assert StepN(w, o, s, 0) == s;
      StepPlaced(w, tops, o, s);
      forall m: nat | m < n - 1 && !StepN(w, o, Step(w, o, s), m).finished
        ensures RoundKeepsPlace(w, tops, o, StepN(w, o, Step(w, o, s), m))
      {
        assert StepN(w, o, s, m + 1) == StepN(w, o, Step(w, o, s), m);
      }
      RunPlaced(w, tops, o, Step(w, o, s), n - 1);
    }
  }

  // ------------------------------------------------------------------ programs

  function Tops(q: seq<Stmt>): set<Id> {
    Listed(Ids(q))
  }

  /** The ids of these nodes are among `r`. */
  ghost predicate Among(r: set<Id>, ns: seq<Node>) {
    forall n :: n in ns ==> n.id in r
  }

  /** A node with inline bodies only, whose nodes are among `r`. */
  ghost predicate Inner(r: set<Id>, n: Node) {
    && n.onError == None && InnerIds(n) <= r
    && (n.kind.Try? ==> n.kind.catchWhen == map[])
    && (n.kind.Condition? ==> n.kind.onTrue == "" && n.kind.onFalse == "")
  }

  ghost predicate AllInner(r: set<Id>, ns: seq<Node>) {
    forall n :: n in ns ==> n.next == None && Inner(r, n)
  }

  lemma {:induction false} BlockAmong(ss: seq<Stmt>, n: nat, r: set<Id>)
    requires n <= |ss| && Among(r, Hoisted(ss, n))
    ensures forall i :: 0 <= i < n ==> ss[i].id in r && Among(r, Descendants(ss[i]))
    decreases n
  {
    hide Descendants;
    if n > 0 {
      var x, y := Hoisted(ss, n - 1), Descendants(ss[n - 1]);
      assert Hoisted(ss, n) == x + y + [NodeOf(ss[n - 1], None)];
      assert NodeOf(ss[n - 1], None) in Hoisted(ss, n);
      forall m | m in x
        ensures m.id in r
      {
        assert m in Hoisted(ss, n);
      }
      forall m | m in y
        ensures m.id in r
      {
        assert m in Hoisted(ss, n);
      }
      BlockAmong(ss, n - 1, r);
    }
  }

  lemma BlockListed(ss: seq<Stmt>, r: set<Id>)
    requires Among(r, Hoisted(ss, |ss|))
    ensures Listed(Ids(ss)) <= r
  {
    hide Hoisted;
    BlockAmong(ss, |ss|, r);
    forall b | b in Ids(ss)
      ensures b in r
    {
      var i :| 0 <= i < |ss| && Ids(ss)[i] == b;
    }
  }

  lemma AmongParts(r: set<Id>, x: seq<Node>, y: seq<Node>)
    requires Among(r, x + y)
    ensures Among(r, x) && Among(r, y)
  {
    assert forall n :: n in x ==> n in x + y;
    assert forall n :: n in y ==> n in x + y;
  }

  lemma StmtInner(s: Stmt, next: Option<Id>, r: set<Id>)
    requires Among(r, Descendants(s))
    ensures Inner(r, NodeOf(s, next))
  {
    hide Hoisted, Among;
    match s
    case Task(_, _, _) =>
    case If(_, _, x, y) =>
      AmongParts(r, Hoisted(x, |x|), Hoisted(y, |y|));
      BlockListed(x, r);
      BlockListed(y, r);
    case Repeat(_, _, _, _, _, _, x) => BlockListed(x, r);
    case Guarded(_, _, _, x, y, z) =>
      AmongParts(r, Hoisted(x, |x|) + Hoisted(y, |y|), Hoisted(z, |z|));
      AmongParts(r, Hoisted(x, |x|), Hoisted(y, |y|));
      BlockListed(x, r);
      BlockListed(y, r);
      BlockListed(z, r);
  }

  lemma {:induction false} DescendantsInner(s: Stmt, r: set<Id>)
    requires Among(r, Descendants(s))
    ensures AllInner(r, Descendants(s))
    decreases s, 1, 0
  {
    hide Hoisted, Among, Inner;
    match s
    case Task(_, _, _) =>
    case If(_, _, x, y) =>
      AmongParts(r, Hoisted(x, |x|), Hoisted(y, |y|));
      BlockInner(x, |x|, r);
      BlockInner(y, |y|, r);
    case Repeat(_, _, _, _, _, _, x) => BlockInner(x, |x|, r);
    case Guarded(_, _, _, x, y, z) =>
      AmongParts(r, Hoisted(x, |x|) + Hoisted(y, |y|), Hoisted(z, |z|));
      AmongParts(r, Hoisted(x, |x|), Hoisted(y, |y|));
      BlockInner(x, |x|, r);
      BlockInner(y, |y|, r);
      BlockInner(z, |z|, r);
  }

  lemma {:induction false} BlockInner(ss: seq<Stmt>, n: nat, r: set<Id>)
    requires n <= |ss| && Among(r, Hoisted(ss, n))
    ensures AllInner(r, Hoisted(ss, n))
    decreases ss, 0, n
  {
    hide Descendants, Inner;
    if n > 0 {
      BlockAmong(ss, n, r);
      var x, y := Hoisted(ss, n - 1), Descendants(ss[n - 1]);
      AmongParts(r, x + y, [NodeOf(ss[n - 1], None)]);
      AmongParts(r, x, y);
      BlockInner(ss, n - 1, r);
      DescendantsInner(ss[n - 1], r);
      StmtInner(ss[n - 1], None, r);
    }
  }

  lemma {:induction false} TopHoistedInner(q: seq<Stmt>, n: nat, r: set<Id>)
    requires n <= |q| && Among(r, TopHoisted(q, n))
    ensures AllInner(r, TopHoisted(q, n))
    ensures forall i :: 0 <= i < n ==> Among(r, Descendants(q[i]))
    decreases n
  {
    hide Descendants, Inner, Among;
    if n > 0 {
      AmongParts(r, TopHoisted(q, n - 1), Descendants(q[n - 1]));
      TopHoistedInner(q, n - 1, r);
      DescendantsInner(q[n - 1], r);
    }
  }

  lemma TopAt(q: seq<Stmt>, i: nat)
    requires i < |q|
    ensures i < |Flat(q)| && Flat(q)[i].id == q[i].id && Ids(q)[i] == q[i].id
  {
    hide TopHoisted;
    assert Flat(q)[i] == TopNodes(q)[i];
  }

  lemma HoistedAt(q: seq<Stmt>, n: Node) returns (k: nat)
    requires n in TopHoisted(q, |q|)
    ensures |q| <= k < |Flat(q)| && Flat(q)[k] == n
  {
    hide TopHoisted, TopNodes;
    var j :| 0 <= j < |TopHoisted(q, |q|)| && TopHoisted(q, |q|)[j] == n;
    k := |q| + j;
  }

  /** The ids of the nodes inside bodies are ids of the graph, and none is at top level. */
  lemma InnerApart(q: seq<Stmt>, r: set<Id>)
    requires q != [] && UniqueIds(Flat(q)) && r == set n | n in TopHoisted(q, |q|) :: n.id
    ensures r !! Tops(q) && r <= Compile(q).index.Keys && Tops(q) <= Compile(q).index.Keys
  {
    hide TopHoisted, IndexOfNodes, Flat, TopNodes;
    IndexHolds(Flat(q));
    forall id | id in Tops(q)
      ensures id in Compile(q).index
    {
      var i :| 0 <= i < |q| && Ids(q)[i] == id;
      TopAt(q, i);
    }
    forall id | id in r
      ensures id in Compile(q).index && id !in Tops(q)
    {
      var n :| n in TopHoisted(q, |q|) && n.id == id;
      var k := HoistedAt(q, n);
      if id in Tops(q) {
        var i :| 0 <= i < |q| && Ids(q)[i] == id;
        TopAt(q, i);
      }
    }
  }

  lemma TopInlined(q: seq<Stmt>, i: nat, r: set<Id>)
    requires q != [] && i < |q| && Among(r, Descendants(q[i])) && r !! Tops(q) && r <= Compile(q).index.Keys
    ensures InlineNode(Compile(q), Tops(q), NodeOf(q[i], TopNext(q, i)))
  {
    hide Descendants, IndexOfNodes, Flat, InnerIds, Among;
    StmtInner(q[i], TopNext(q, i), r);
    assert Ids(q)[i] == q[i].id;
    if i + 1 < |q| {
      assert Ids(q)[i + 1] == q[i + 1].id;
    }
  }

  lemma FlatInlined(q: seq<Stmt>, k: nat, r: set<Id>)
    requires q != [] && k < |Flat(q)| && r !! Tops(q) && r <= Compile(q).index.Keys
    requires AllInner(r, TopHoisted(q, |q|)) && forall i :: 0 <= i < |q| ==> Among(r, Descendants(q[i]))
    ensures InlineNode(Compile(q), Tops(q), Flat(q)[k])
  {
    hide TopHoisted, InnerIds, IndexOfNodes, Among, Descendants, Tops, NodeOf;
    if k < |q| {
      TopInlined(q, k, r);
      assert Flat(q)[k] == TopNodes(q)[k];
    } else {
      assert Flat(q)[k] in TopHoisted(q, |q|);
    }
  }

  /** What the parser makes of nested statements has inline bodies only. */
  lemma ProgramInlined(q: seq<Stmt>)
    requires q != [] && SoundBlock(q) && UniqueIds(Flat(q))
    ensures Inlined(Compile(q), Tops(q))
  {
    hide TopHoisted, InnerIds, SoundBlock, IndexOfNodes, Descendants, WellIndexed, Tops, InlineNode, Flat, AllInner;
    var w := Compile(q);
    FlatIsGotoFree(q);
    IndexHolds(Flat(q));
    var r := set n | n in TopHoisted(q, |q|) :: n.id;
    assert Among(r, TopHoisted(q, |q|));
    TopHoistedInner(q, |q|, r);
    InnerApart(q, r);
    hide Among;
    forall id | id in w.index
      ensures InlineNode(w, Tops(q), w.index[id])
    {
      var k :| 0 <= k < |Flat(q)| && Flat(q)[k].id == id;
      FlatInlined(q, k, r);
    }
  }

  /**
   * Over every run of a structured program, whose tasks jump into open bodies and to the top level only, the stack
   * mirrors the nesting: each open frame works on a body of its owner, each owner stands in the body of the
   * frame beneath, and control stands in the body of the top frame.
   */
  lemma ProgramNests(q: seq<Stmt>, o: Oracle, s: State, n: nat)
    requires q != [] && SoundBlock(q) && UniqueIds(Flat(q)) && s.frames == [] && s.cursor == q[0].id
    requires WellIndexed(Compile(q)) && RoundsKeepPlace(Compile(q), Tops(q), o, s, n)
    ensures Resting(Compile(q), Tops(q), StepN(Compile(q), o, s, n))
  {
    ProgramInlined(q);
    assert Ids(q)[0] == q[0].id;
    hide Inlined, StepN, Flat;
    RunPlaced(Compile(q), Tops(q), o, s, n);
  }

  /** On such a stack every body is named and no edge leads out of one. */
  lemma NestSealed(w: Workflow, tops: set<Id>, frames: seq<Frame>)
    requires Inlined(w, tops) && Nest(w, tops, frames)
    ensures NamedEdges(w) && NamedBodies(w) && FramesNamed(frames) && Sealed(w, frames, 0)
  {
    forall id | id in w.index
      ensures w.index[id].next != Some("") && forall b :: b in InnerIds(w.index[id]) ==> b != ""
    {
      assert InlineNode(w, tops, w.index[id]);
    }
    forall k | 0 <= k < |frames|
      ensures FrameNamed(frames[k]) && forall id :: id in frames[k].ids ==> !Escapes(w, frames[k], id)
    {
      assert FrameOf(w, frames[k]);
      forall id | id in frames[k].ids
        ensures !Escapes(w, frames[k], id) && id != ""
      {
        NoWayOut(w, tops, frames[k], id);
      }
      assert InlineNode(w, tops, w.index[frames[k].node]);
    }
  }

  /** In the next `n` rounds nothing reaches past the frames above frame `k`. */
  ghost predicate RoundsInside(w: Workflow, o: Oracle, s: State, n: nat, k: nat)
    requires WellIndexed(w)
  {
    forall m: nat :: m < n && !StepN(w, o, s, m).finished ==> LiveContained(w, o, StepN(w, o, s, m), k)
  }

  lemma InsideIsContained(w: Workflow, tops: set<Id>, o: Oracle, start: State, i: nat, n: nat, k: nat)
    requires Inlined(w, tops) && Resting(w, tops, start) && RoundsKeepPlace(w, tops, o, start, i + n)
    requires RoundsInside(w, o, StepN(w, o, start, i), n, k)
    ensures RoundsContained(w, o, StepN(w, o, start, i), n, k)
  {
    hide Inlined, Resting, StepN, LiveContained, RoundContained, RoundsKeepPlace;
    InlinedIndexed(w, tops);
    var s := StepN(w, o, start, i);
    forall m: nat | m < n && !StepN(w, o, s, m).finished
      ensures RoundContained(w, o, StepN(w, o, s, m), k)
    {
      StepNSum(w, o, start, i, m);
      FewerRounds(w, tops, o, start, i + n, i + m);
      RunPlaced(w, tops, o, start, i + m);
      RestingSealed(w, tops, StepN(w, o, s, m), k);
      LiveIsContained(w, o, StepN(w, o, s, m), k);
    }
  }

  lemma InlinedIndexed(w: Workflow, tops: set<Id>)
    requires Inlined(w, tops)
    ensures WellIndexed(w) && NamedEdges(w) && NamedBodies(w)
  {
    NestSealed(w, tops, []);
  }

  /**
   * In a structured program, whatever happens inside a try without reaching past it, its cleanup comes before
   * anything behind the try: the stack is such that nothing else can lead out.
   */
  lemma ProgramCleansUp(q: seq<Stmt>, o: Oracle, start: State, i: nat, n: nat, k: nat)
    requires q != [] && SoundBlock(q) && UniqueIds(Flat(q)) && start.frames == [] && start.cursor == q[0].id
    requires WellIndexed(Compile(q)) && RoundsKeepPlace(Compile(q), Tops(q), o, start, i + n)
    requires var s := StepN(Compile(q), o, start, i);
             k < |s.frames| && Owes(s.frames[k]) && RoundsInside(Compile(q), o, s, n, k)
    ensures var s := StepN(Compile(q), o, start, i);
            var t := StepN(Compile(q), o, s, n);
            t.finished || (k < |t.frames| && Owes(t.frames[k])) || CleansUp(Compile(q), o, s, n, k)
  {
    assert Ids(q)[0] == q[0].id && Resting(Compile(q), Tops(q), start);
    hide *;
    ProgramInlined(q);
    InlinedIndexed(Compile(q), Tops(q));
    InsideIsContained(Compile(q), Tops(q), o, start, i, n, k);
    CleanupComesFirst(Compile(q), o, StepN(Compile(q), o, start, i), n, k);
  }

  predicate LiveContained(w: Workflow, o: Oracle, s: State, k: nat) {
    s.ending == Live && Contained(w, o, s, k)
  }

  lemma LiveIsContained(w: Workflow, o: Oracle, s: State, k: nat)
    requires LiveContained(w, o, s, k) && FramesNamed(s.frames) && Sealed(w, s.frames, k)
    ensures RoundContained(w, o, s, k)
  {
  }

  lemma FewerRounds(w: Workflow, tops: set<Id>, o: Oracle, s: State, n: nat, m: nat)
    requires WellIndexed(w) && RoundsKeepPlace(w, tops, o, s, n) && m <= n
    ensures RoundsKeepPlace(w, tops, o, s, m)
  {
    hide RoundKeepsPlace, StepN;
  }

  lemma RestingSealed(w: Workflow, tops: set<Id>, s: State, k: nat)
    requires Inlined(w, tops) && Resting(w, tops, s)
    ensures FramesNamed(s.frames) && Sealed(w, s.frames, k)
  {
    hide Escapes, FrameNamed, Inlined;
    NestSealed(w, tops, s.frames);
  }
}
