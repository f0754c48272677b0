// What the validator's reachability search says about runs: without dynamic jumps, control never
// leaves the nodes it lists.

module Reach {
  import opened Json
  import opened Blueprint
  import opened Machine
  import opened MainLoop
  import opened Validator
  import opened Checkpoint
  import opened Resume

  /** A set of existing nodes that no static reference leaves. */
  ghost predicate Confined(w: Workflow, r: set<Id>) {
    forall id :: id in r ==> id in w.index && Targets(w.index[id]) <= r
  }

  /** Tasks jump, and ask to be woken, only where their node says. */
  ghost predicate Static(w: Workflow, o: Oracle) {
    forall id: Id, v: View :: id in w.index && o.leaf(id, v).result.Ok? ==>
      match o.leaf(id, v).result.value
      case JumpTo(target) => target == "" || target in Targets(w.index[id])
      case Suspend(q) => q.resumeNode == "" || q.resumeNode == id || q.resumeNode in Targets(w.index[id])
      case _ => true
  }

  predicate In(r: set<Id>, id: Id) {
    id == "" || id in r
  }

  ghost predicate InAll(r: set<Id>, ids: seq<Id>) {
    forall id :: id in ids ==> In(r, id)
  }

  ghost predicate FrameIn(r: set<Id>, f: Frame) {
    && f.node in r && InAll(r, f.ids) && In(r, f.resume)
    && (f.TryFrame? ==>
          && InAll(r, f.catchIds) && InAll(r, f.finallyIds)
          && forall code :: code in f.catchWhen ==> In(r, f.catchWhen[code]))
  }

  ghost predicate FramesIn(r: set<Id>, frames: seq<Frame>) {
    forall k :: 0 <= k < |frames| ==> FrameIn(r, frames[k])
  }

  /** Cursor, current node and open frames stay in the set. */
  ghost predicate Inside(r: set<Id>, s: State) {
    FramesIn(r, s.frames) && In(r, s.cursor) && In(r, s.current)
  }

  // ------------------------------------------------------------------ frames

  lemma CutInside(r: set<Id>, s: State, d: nat)
    requires Inside(r, s) && d <= |s.frames|
    ensures Inside(r, s.(frames := s.frames[..d]))
  {
    hide FrameIn;
  }

  lemma Replaced(r: set<Id>, frames: seq<Frame>, f: Frame)
    requires FramesIn(r, frames) && FrameIn(r, f)
    ensures FramesIn(r, frames + [f])
  {
    hide FrameIn;
  }

  lemma NextIn(w: Workflow, r: set<Id>, id: Id)
    requires Confined(w, r) && id in r
    ensures w.index[id].next.Some? ==> In(r, w.index[id].next.value)
    ensures HasHandler(w, id) ==> w.index[id].onError.value in r
    ensures In(r, ResumeTarget(w.index[id]))
  {
    var n := w.index[id];
    assert Opt(n.next) <= Targets(n) && Opt(n.onError) <= Targets(n);
    if n.next.Some? && n.next.value != "" {
      assert n.next.value in Opt(n.next);
    }
    if HasHandler(w, id) {
      assert n.onError.value in Opt(n.onError);
    }
  }

  lemma JumpInside(r: set<Id>, s: State, target: Id)
    requires Inside(r, s) && In(r, target)
    ensures Inside(r, ResolveJump(s, target))
  {
    var d := JumpDepth(s.frames, target);
    if target != "" && d > 0 {
      var f := AtPosition(s.frames[d - 1], IndexOf(s.frames[d - 1].ids, target));
      CutInside(r, s, d - 1);
      assert FrameIn(r, s.frames[d - 1]);
      Replaced(r, s.frames[..d - 1], f);
    }
  }

  // ------------------------------------------------------------------ routing

  lemma {:induction false} AdvanceInside(w: Workflow, r: set<Id>, o: Oracle, s: State, current: Id)
    requires Confined(w, r) && Inside(r, s) && In(r, current) && "" !in w.index
    ensures Inside(r, Advance(w, o, s, current))
    decreases StackWeight(s.frames), 4
  {
    hide Confined, FinishBody, ResolveJump, AtPosition;
    if current in r {
      NextIn(w, r, current);
    }
    if s.frames != [] {
      var f := Top(s);
      assert FrameIn(r, f);
      hide FramesIn;
      var k := IndexOf(f.ids, current);
      if Escapes(w, f, current) {
        JumpInside(r, s, w.index[current].next.value);
      } else if 0 <= k && k + 1 < |f.ids| {
        SiblingInside(r, s, k + 1);
      } else {
        FinishBodyInside(w, r, o, s, k >= 0);
      }
    }
  }

  lemma SiblingInside(r: set<Id>, s: State, k: nat)
    requires Inside(r, s) && s.frames != [] && k < |Top(s).ids|
    ensures Inside(r, WithTop(s, AtPosition(Top(s), k)).(cursor := Top(s).ids[k]))
  {
    var f := Top(s);
    assert FrameIn(r, f) && f.ids[k] in f.ids;
    CutInside(r, s, |s.frames| - 1);
    Replaced(r, s.frames[..|s.frames| - 1], AtPosition(f, k));
  }

  lemma {:induction false} FinishBodyInside(w: Workflow, r: set<Id>, o: Oracle, s: State, atEnd: bool)
    requires Confined(w, r) && Inside(r, s) && s.frames != [] && "" !in w.index
    ensures Inside(r, FinishBody(w, o, s, atEnd))
    decreases StackWeight(s.frames), 3
  {
    hide Confined, Advance, AdvanceTryPhase, NextIteration;
    var f := Top(s);
    assert FrameIn(r, f);
    CutInside(r, s, |s.frames| - 1);
    WeightPrefix(s.frames, |s.frames| - 1);
    match f
    case LoopFrame(_, _, _, _, _, _, _, _, _, _, _, _) => NextInside(w, r, o, s, "");
    case TryFrame(_, _, _, _, _, _, _, _, _, _) =>
      TryPhaseInside(w, r, o, s);
      var t := AdvanceTryPhase(w, o, s);
      if t.cursor == "" && !t.finished {
        AdvanceInside(w, r, o, t, f.node);
      }
    case BranchFrame(_, _, _, _, _) =>
    case BodyFrame(_, _, _, resume, _) =>
      if resume == "" {
        AdvanceInside(w, r, o, Popped(s), f.node);
      }
  }

  lemma {:induction false} CloseInside(w: Workflow, r: set<Id>, o: Oracle, s: State)
    requires Confined(w, r) && Inside(r, s) && s.frames != [] && "" !in w.index
    ensures Inside(r, CloseFrame(w, o, s))
    ensures Inside(r, LeaveLoop(w, o, s, Top(s)))
    decreases StackWeight(s.frames), 0
  {
    hide Confined, Advance, EraseLocals;
    var f := Top(s);
    assert FrameIn(r, f);
    CutInside(r, s, |s.frames| - 1);
    WeightPrefix(s.frames, |s.frames| - 1);
    AdvanceInside(w, r, o, Popped(s).(env := EraseLocals(s.env, f), current := f.node), f.node);
  }

  lemma {:induction false} TryPhaseInside(w: Workflow, r: set<Id>, o: Oracle, s: State)
    requires Confined(w, r) && Inside(r, s) && s.frames != [] && Top(s).TryFrame? && "" !in w.index
    ensures Inside(r, AdvanceTryPhase(w, o, s))
    decreases StackWeight(s.frames), 1
  {
    hide Confined, CloseFrame;
    var f := Top(s);
    assert FrameIn(r, f);
    if f.phase != InFinally && f.finallyIds != [] {
      CutInside(r, s, |s.frames| - 1);
      Replaced(r, s.frames[..|s.frames| - 1], f.(phase := InFinally, ids := f.finallyIds, position := 0));
      assert f.finallyIds[0] in f.finallyIds;
    } else if f.propagate.Some? {
      CloseInside(w, r, o, s.(env := s.env.(pending := f.propagate,
                                            locals := s.env.locals["error" := ErrorJson(f.propagate.value)])));
    } else {
      CloseInside(w, r, o, s);
    }
  }

  lemma {:induction false} NextInside(w: Workflow, r: set<Id>, o: Oracle, s: State, name: Id)
    requires Confined(w, r) && Inside(r, s) && "" !in w.index
    ensures NextIteration(w, o, s, name).Some? ==> Inside(r, NextIteration(w, o, s, name).value)
    decreases StackWeight(s.frames), 2
  {
    hide Confined, NextPass;
    var d := LoopDepth(s.frames, name);
    if d > 0 {
      WeightPrefix(s.frames, d);
      CutInside(r, s, d);
      PassInside(w, r, o, s.(frames := s.frames[..d]));
    }
  }

  lemma {:induction false} PassInside(w: Workflow, r: set<Id>, o: Oracle, s: State)
    requires Confined(w, r) && Inside(r, s) && s.frames != [] && Top(s).LoopFrame? && "" !in w.index
    ensures Inside(r, NextPass(w, o, s))
    decreases StackWeight(s.frames), 1
  {
    hide Confined, LeaveLoop, EnterPass;
    var f := Top(s);
    var reply := o.guard(f.node, ViewOf(s.env, f.index));
    var s1 := s.(env := After(s.env, reply));
    CloseInside(w, r, o, s);
    CloseInside(w, r, o, s1);
    if f.index + 1 < f.cap && f.index + 1 < f.total {
      PassEntered(r, s, f);
      PassEntered(r, s1, f);
    }
  }

  lemma PassEntered(r: set<Id>, s: State, f: Frame)
    requires Inside(r, s) && s.frames != [] && f == Top(s) && f.LoopFrame?
    requires f.index + 1 < f.cap && f.index + 1 < f.total
    ensures Inside(r, EnterPass(s, f))
  {
    assert FrameIn(r, f);
    CutInside(r, s, |s.frames| - 1);
    Replaced(r, s.frames[..|s.frames| - 1], f.(index := f.index + 1, position := 0));
    if f.ids != [] {
      assert f.ids[0] in f.ids;
    }
  }

  // ------------------------------------------------------------------ errors

  lemma RecoverInside(w: Workflow, r: set<Id>, o: Oracle, s: State, e: Error)
    requires Confined(w, r) && Inside(r, s) && s.frames != [] && Top(s).TryFrame? && Top(s).phase == InBody
    requires "" !in w.index
    ensures Inside(r, RecoverInTry(w, o, s, e))
  {
    hide Confined, CloseFrame, BindError;
    var f := Top(s);
    assert FrameIn(r, f);
    var routed := Routed(w, f, e.code);
    var handlers := if routed != "" then [routed] else f.catchIds;
    CutInside(r, s, |s.frames| - 1);
    if handlers != [] {
      assert handlers[0] in handlers;
      Replaced(r, s.frames[..|s.frames| - 1], f.(phase := InCatch, ids := handlers, position := 0));
    } else if f.finallyIds != [] {
      assert f.finallyIds[0] in f.finallyIds;
      Replaced(r, s.frames[..|s.frames| - 1],
               f.(phase := InFinally, ids := f.finallyIds, position := 0, propagate := Some(e)));
    } else {
      CloseInside(w, r, o, s.(env := s.env.(pending := Some(e))));
    }
  }

  lemma RaiseInside(w: Workflow, r: set<Id>, o: Oracle, s: State, e: Error, blame: Id)
    requires Confined(w, r) && Inside(r, s) && "" !in w.index
    ensures Inside(r, Raise(w, o, s, e, blame))
  {
    hide Confined, RecoverInTry, NextIteration, ResolveJump, FramesIn;
    if HasHandler(w, s.current) {
      NextIn(w, r, s.current);
      JumpInside(r, s.(env := s.env.(locals := s.env.locals["error" := ErrorJson(e)])),
                 w.index[s.current].onError.value);
    } else {
      var d := RecoverDepth(w, s.frames, e);
      if d > 0 {
        NextInside(w, r, o, s, "");
        CutInside(r, s, d);
        if s.frames[d - 1].TryFrame? {
          RecoverInside(w, r, o, s.(frames := s.frames[..d]), e);
        }
      }
    }
  }

  lemma BreakInside(w: Workflow, r: set<Id>, o: Oracle, s: State, name: Id, blame: Id)
    requires Confined(w, r) && Inside(r, s) && "" !in w.index
    ensures Inside(r, Break(w, o, s, name, blame))
  {
    hide Confined, CloseFrame, FramesIn;
    var d := LoopDepth(s.frames, name);
    if d > 0 {
      CutInside(r, s, d);
      CloseInside(w, r, o, s.(frames := s.frames[..d]));
    }
  }

  // ------------------------------------------------------------------ one round

  lemma EnterInside(r: set<Id>, s: State, f: Frame)
    requires Inside(r, s) && FrameIn(r, f) && f.ids != []
    ensures Inside(r, EnterBody(s, f))
  {
    hide ResolveJump;
    Replaced(r, s.frames, f);
    assert f.ids[0] in f.ids;
    JumpInside(r, s.(frames := s.frames + [f]), f.ids[0]);
  }

  lemma LoopFrameIn(w: Workflow, r: set<Id>, n: Node, items: Option<seq<Json>>)
    requires Confined(w, r) && n.id in r && w.index[n.id] == n && n.kind.Loop?
    ensures FrameIn(r, LoopFrameFor(n, items))
  {
    NextIn(w, r, n.id);
  }

  lemma ObeyInside(w: Workflow, r: set<Id>, o: Oracle, s: State, n: Node, v: View)
    requires Confined(w, r) && Inside(r, s) && "" !in w.index && Static(w, o)
    requires n.id in r && w.index[n.id] == n && o.leaf(n.id, v).result.Ok?
    ensures Inside(r, Obey(w, o, s, n, o.leaf(n.id, v).result.value))
  {
    hide Advance, ResolveJump, Break, ContinueLoop, Targets, FramesIn;
    assert Targets(n) <= r;
    NextIn(w, r, n.id);
    match o.leaf(n.id, v).result.value
    case Continue => AdvanceInside(w, r, o, s, n.id);
    case JumpTo(target) => JumpInside(r, s, target);
    case LoopBreak(name) => BreakInside(w, r, o, s, name, n.id);
    case LoopContinue(name) => ContinueInside(w, r, o, s, name, n.id);
    case _ =>
  }

  lemma ContinueInside(w: Workflow, r: set<Id>, o: Oracle, s: State, name: Id, blame: Id)
    requires Confined(w, r) && Inside(r, s) && "" !in w.index
    ensures Inside(r, ContinueLoop(w, o, s, name, blame))
  {
    hide Confined, NextIteration, FramesIn;
    NextInside(w, r, o, s, name);
  }

  lemma LeafInside(w: Workflow, r: set<Id>, o: Oracle, s: State, n: Node)
    requires Confined(w, r) && Inside(r, s) && "" !in w.index && Static(w, o) && n.id in r && w.index[n.id] == n
    ensures Inside(r, StepLeaf(w, o, s, n))
  {
    hide Confined, Raise, Obey, FramesIn, Static, ForgetAnswer;
    var v := ViewOf(s.env, Iteration(s.frames));
    var reply := o.leaf(n.id, v);
    var s1 := s.(env := After(s.env, reply));
    if reply.result.Ok? {
      ObeyInside(w, r, o, s1.(env := ForgetAnswer(s1.env, n.id)), n, v);
    } else {
      RaiseInside(w, r, o, s1, reply.result.error, n.id);
    }
  }

  lemma LoopInside(w: Workflow, r: set<Id>, o: Oracle, s: State, n: Node)
    requires Confined(w, r) && Inside(r, s) && "" !in w.index && n.id in r && w.index[n.id] == n
    requires n.kind.Loop? && n.kind.body != []
    ensures Inside(r, StepLoop(w, o, s, n))
  {
    hide Confined, Raise, Advance, EnterBody, FramesIn, FrameIn, BindIteration;
    var reply := o.items(n.id, ViewOf(s.env, Iteration(s.frames)));
    var s1 := s.(env := After(s.env, reply));
    if reply.result.Err? {
      RaiseInside(w, r, o, s1, reply.result.error, n.id);
    } else if reply.result.value == Some([]) {
      AdvanceInside(w, r, o, s1, n.id);
    } else {
      var f := LoopFrameFor(n, reply.result.value);
      LoopFrameIn(w, r, n, reply.result.value);
      EnterInside(r, s1.(env := BindIteration(s1.env, f)), f);
    }
  }

  lemma ConditionInside(w: Workflow, r: set<Id>, o: Oracle, s: State, n: Node)
    requires Confined(w, r) && Inside(r, s) && "" !in w.index && n.id in r && w.index[n.id] == n
    requires n.kind.Condition?
    ensures Inside(r, StepCondition(w, o, s, n))
  {
    hide Raise, Advance, EnterBody, ResolveJump, FramesIn;
    assert Targets(n) <= r;
    var reply := o.branch(n.id, ViewOf(s.env, Iteration(s.frames)));
    var s1 := s.(env := After(s.env, reply));
    if reply.result.Err? {
      RaiseInside(w, r, o, s1, reply.result.error, n.id);
    } else {
      var taken := reply.result.value;
      var body := if taken then n.kind.thenBody else n.kind.elseBody;
      var target := if taken then n.kind.onTrue else n.kind.onFalse;
      if body != [] {
        NextIn(w, r, n.id);
        EnterInside(r, s1, BodyFrame(n.id, body, 0, ResumeTarget(n), taken));
      } else if target != "" {
        assert target in Named([n.kind.onTrue, n.kind.onFalse]);
        JumpInside(r, s1, target);
      } else {
        AdvanceInside(w, r, o, s1, n.id);
      }
    }
  }

  lemma NodeInside(w: Workflow, r: set<Id>, o: Oracle, s: State, n: Node)
    requires WellIndexed(w) && Confined(w, r) && Inside(r, s) && Static(w, o) && n.id in r && w.index[n.id] == n
    ensures Inside(r, RunNode(w, o, s, n))
  {
    assert n.id in w.index;
    hide Confined, StepLeaf, StepLoop, StepCondition, EnterBody, FramesIn, FrameIn, Static;
    match n.kind
    case Leaf(_, _) => LeafInside(w, r, o, s, n);
    case Loop(_, _, _, _, _) => LoopInside(w, r, o, s, n);
    case Try(_, _, _, _, _) =>
      EnterInside(r, s, TryFrameFor(n));
    case Condition(_, _, _, _) => ConditionInside(w, r, o, s, n);
  }

  /** No round leaves the set, and a node it activates is in it. */
  lemma StepInside(w: Workflow, r: set<Id>, o: Oracle, s: State)
    requires WellIndexed(w) && Confined(w, r) && Static(w, o) && Inside(r, s) && !s.finished
    ensures Inside(r, Step(w, o, s))
    ensures forall k :: |s.env.visited| <= k < |Step(w, o, s).env.visited| ==> Step(w, o, s).env.visited[k] in r
  {
    hide Confined, Raise, Stray, HandleError, RunNode, Advance, FramesIn, Static;
    if s.env.pending.Some? {
      RaiseInside(w, r, o, s.(env := s.env.(pending := None)), s.env.pending.value, "");
    } else if s.cursor != "" && s.cursor !in w.index {
      RaiseInside(w, r, o, s.(cursor := ""), RoutingError(s.current), "");
      StrayIsRaise(w, o, s);
    } else if s.cursor != "" {
      var n := w.index[s.cursor];
      var s1 := s.(current := n.id, env := s.env.(visits := s.env.visits + 1));
      var s2 := s1.(env := s1.env.(visited := s1.env.visited + [n.id]));
      if s1.env.visits <= s1.env.budget {
        if n.enabled {
          NodeInside(w, r, o, s2, n);
        } else {
          AdvanceInside(w, r, o, s2, n.id);
        }
      }
    }
  }

  // ------------------------------------------------------------------ whole runs

  lemma {:induction false} RunInside(w: Workflow, r: set<Id>, o: Oracle, s: State, n: nat)
    requires WellIndexed(w) && Confined(w, r) && Static(w, o) && Inside(r, s)
    requires forall id :: id in s.env.visited ==> id in r
    ensures Inside(r, StepN(w, o, s, n))
    ensures forall id :: id in StepN(w, o, s, n).env.visited ==> id in r
    decreases n
  {
    hide Inside, Confined, Static, Step;
    if n > 0 && !s.finished {
      var t := Step(w, o, s);
      StepInside(w, r, o, s);
      VisitedGrows(w, o, s);
      forall id | id in t.env.visited
        ensures id in r
      {
        var k :| 0 <= k < |t.env.visited| && t.env.visited[k] == id;
        if k < |s.env.visited| {
          assert t.env.visited[k] == s.env.visited[k];
        }
      }
      RunInside(w, r, o, t, n - 1);
    }
  }

  lemma VisitedGrows(w: Workflow, o: Oracle, s: State)
    requires WellIndexed(w) && !s.finished
    ensures s.env.visited <= Step(w, o, s).env.visited
  {
    hide Raise, Stray, HandleError, RunNode, Advance, WellIndexed;
  }

  /** A suspended session stays inside when it is rebuilt and handed its answer. */
  lemma ResumedInside(w: Workflow, r: set<Id>, u: Writer, h: State, answer: Answer)
    requires Inside(r, h) && h.ending.suspend.Some? && In(r, h.ending.suspend.value.node)
    requires forall k :: 0 <= k < |h.frames| ==> FitsInt(h.frames[k])
    ensures Inside(r, Resumed(w, u, StoredOf(h), answer, h.env.budget, h.env.world))
  {
    hide FrameIn, FramesToJson, FramesFromJson, Rebind;
    FramesRoundTrip(h.frames);
  }

  ghost function ReachableSet(w: Workflow, from: Id): set<Id> {
    set id | id in w.index && Reachable(w, from, id)
  }

  lemma ReachableConfined(w: Workflow, from: Id)
    requires TargetsExist(w)
    ensures Confined(w, ReachableSet(w, from))
  {
    hide Targets, Reachable;
    forall a, b | a in ReachableSet(w, from) && b in Targets(w.index[a])
      ensures b in ReachableSet(w, from)
    {
      ReachStep(w, from, a, b);
    }
  }

  /** A run that has not started: control stands on the entry node and nothing is open. */
  predicate Fresh(s: State, entry: Id) {
    s.frames == [] && s.cursor == entry && s.current == "" && s.env.visited == []
  }

  /**
   * In a workflow without dangling references, a run of any length under any task behaviour without
   * dynamic jumps stands on an existing node or on none, and has visited only reachable nodes.
   */
  lemma RunsStayReachable(w: Workflow, o: Oracle, s: State, entry: Id, n: nat)
    requires WellIndexed(w) && TargetsExist(w) && Static(w, o) && Fresh(s, entry) && entry in w.index
    ensures var t := StepN(w, o, s, n);
            && (t.cursor == "" || (t.cursor in w.index && Reachable(w, entry, t.cursor)))
            && (forall id :: id in t.env.visited ==> Reachable(w, entry, id))
  {
    hide Reachable, Confined, Static, WellIndexed, TargetsExist;
    var r := ReachableSet(w, entry);
    ReachableConfined(w, entry);
    ReachSelf(w, entry);
    RunInside(w, r, o, s, n);
  }

  lemma NoEmptyId(w: Workflow)
    requires WellIndexed(w)
    ensures "" !in w.index
  {
  }

  /** No run from the entry activates this node unless a task jumps dynamically. */
  ghost predicate NeverActivated(w: Workflow, entry: Id, id: Id)
    requires WellIndexed(w)
  {
    forall o: Oracle, s: State, n: nat :: Static(w, o) && Fresh(s, entry) ==> id !in StepN(w, o, s, n).env.visited
  }

  /**
   * The unreachable-node warnings: exactly the enabled nodes that cannot be reached from the entry, and
   * when no reference dangles none of them is ever activated.
   */
  method UnreachableWarnings(w: Workflow, entry: Id) returns (warned: seq<Id>)
    requires WellIndexed(w) && Indexed(w) && entry in w.index
    ensures forall id :: id in warned <==> id in w.index && w.index[id].enabled && !Reachable(w, entry, id)
    ensures TargetsExist(w) ==> forall id :: id in warned ==> NeverActivated(w, entry, id)
  {
    hide Reachable, Targets, WellIndexed, Static, Fresh;
    NoEmptyId(w);
    var order := ReachableFrom(w, entry);
    warned := [];
    var i := 0;
    while i < |w.nodes|
      invariant 0 <= i <= |w.nodes|
      invariant forall id :: id in warned ==> id in w.index && w.index[id].enabled && id !in order
      invariant forall k :: 0 <= k < i && w.nodes[k].enabled && w.nodes[k].id !in order ==> w.nodes[k].id in warned
    {
      var node := w.nodes[i];
      if node.enabled && node.id !in order {
        warned := warned + [node.id];
      }
      i := i + 1;
    }
    forall id | id in w.index && w.index[id].enabled && !Reachable(w, entry, id)
      ensures id in warned
    {
      var k :| 0 <= k < |w.nodes| && w.nodes[k] == w.index[id];
      assert w.nodes[k].id == id;
    }
    if TargetsExist(w) {
      forall id, o: Oracle, s: State, n: nat | id in warned && Static(w, o) && Fresh(s, entry)
        ensures id !in StepN(w, o, s, n).env.visited
      {
        RunsStayReachable(w, o, s, entry, n);
      }
    }
  }
}
