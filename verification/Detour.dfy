// A reference that no run follows: the converse of reachability fails in graphs whose body nodes have edges out of
// their body. The first of two body nodes goes on outside the loop, and the second is never activated.

module Detour {
  import opened Json
  import opened Blueprint
  import opened Machine
  import opened MainLoop
  import opened Validator
  import opened Reach
  import opened Routing
  import opened Rounds
  import opened Handlers

  datatype Names = Names(loop: Id, first: Id, second: Id, outside: Id)

  predicate IsTask(w: Workflow, id: Id, next: Option<Id>) {
    && id in w.index && w.index[id].kind.Leaf? && w.index[id].kind.targets == []
    && w.index[id].enabled && w.index[id].next == next && w.index[id].onError == None
  }

  /** A loop over two nodes, the first a task that goes on outside the loop, where nothing follows. */
  ghost predicate LeadsOut(w: Workflow, n: Names) {
    && WellIndexed(w) && IsTask(w, n.first, Some(n.outside)) && IsTask(w, n.outside, None)
    && n.loop in w.index && w.index[n.loop].kind.Loop? && w.index[n.loop].kind.body == [n.first, n.second]
    && w.index[n.loop].enabled && w.index[n.loop].next == None && w.index[n.loop].onError == None
    && n.second !in {n.loop, n.first, n.outside, ""} && n.outside != n.first && n.loop !in {n.first, n.outside}
  }

  predicate OurLoop(n: Names, f: Frame) {
    f.LoopFrame? && f.node == n.loop && f.ids == [n.first, n.second]
  }

  /** Control stands at one of the other three nodes, or the run is about to end. */
  predicate OnWay(n: Names, s: State) {
    && s.env.pending.None? && n.second !in s.env.visited
    && (s.finished || s.cursor == "" || (s.frames == [] && s.cursor in {n.loop, n.outside})
        || (|s.frames| == 1 && OurLoop(n, s.frames[0]) && s.cursor == n.first))
  }

  lemma Ends(w: Workflow, o: Oracle, n: Names, s: State, id: Id)
    requires LeadsOut(w, n) && s.frames == [] && id in {n.loop, n.outside}
    requires s.env.pending.None? && n.second !in s.env.visited
    ensures OnWay(n, Advance(w, o, s, id))
  {
    TopLevelEdge(w, o, s, id);
    hide Advance;
  }

  /** A pass of the loop is over: the next one begins at its first node, or the run is at its end. */
  lemma PassOver(w: Workflow, o: Oracle, n: Names, s: State)
    requires LeadsOut(w, n) && |s.frames| == 1 && OurLoop(n, s.frames[0])
    requires s.env.pending.None? && n.second !in s.env.visited
    ensures OnWay(n, NextPass(w, o, s))
  {
    hide NextPass, Advance, PassBound;
    PassDecides(w, o, s);
    Ends(w, o, n, Behind(s), n.loop);
    var r := o.guard(n.loop, AtGuard(s));
    var asked := s.(env := s.env.(vars := r.vars, world := r.world));
    Ends(w, o, n, Behind(asked), n.loop);
  }

  lemma Fails(w: Workflow, o: Oracle, n: Names, s: State, e: Error, blame: Id)
    requires LeadsOut(w, n) && s.current in {n.loop, n.first, n.outside}
    requires s.env.pending.None? && n.second !in s.env.visited
    requires s.frames == [] || (|s.frames| == 1 && OurLoop(n, s.frames[0]))
    ensures OnWay(n, Raise(w, o, s, e, blame))
  {
    hide HandleError, Raise, NextPass, OnWay, Catches;
    assert NoOwnHandler(w, s.current);
    if s.frames != [] && SkipsItems(s.frames[0]) {
      LoopSkipsItem(w, o, s, e, 0, 0);
      HandledIsRaised(w, o, s, e, blame);
      assert s.frames[..1] == s.frames;
      PassOver(w, o, n, s);
    } else {
      NobodyElse(w, n, s.frames, e.code);
      NobodyHandles(w, o, s, e, blame);
      EndedIsFine(n, s.env, Raise(w, o, s, e, blame));
    }
  }

  lemma EndedIsFine(n: Names, env: Env, t: State)
    requires t.finished && t.env == env && env.pending.None? && n.second !in env.visited
    ensures OnWay(n, t)
  {
  }

  lemma NobodyElse(w: Workflow, n: Names, frames: seq<Frame>, code: string)
    requires frames == [] || (|frames| == 1 && OurLoop(n, frames[0]) && !SkipsItems(frames[0]))
    ensures forall k: nat :: !TakenAt(w, frames, code, k)
  {
  }

  lemma RoundOfLoop(w: Workflow, o: Oracle, n: Names, s: State)
    requires LeadsOut(w, n) && About(w, s) && OnWay(n, s) && s.cursor == n.loop
    ensures OnWay(n, Step(w, o, s))
  {
    hide Step, Raise, Advance, PassBound;
    var r := o.items(n.loop, Sight(s));
    if r.result.Err? {
      NodeFails(w, o, s, r.result.error);
      Fails(w, o, n, Ran(s, r), r.result.error, n.loop);
    } else {
      LoopOpens(w, o, s);
      Ends(w, o, n, Ran(s, r), n.loop);
    }
  }

  /** The task that stands at `s.current` ran. */
  predicate TaskRan(n: Names, s: State) {
    && s.env.pending.None? && n.second !in s.env.visited
    && ((s.frames == [] && s.current == n.outside)
        || (|s.frames| == 1 && OurLoop(n, s.frames[0]) && s.current == n.first))
  }

  lemma Continues(w: Workflow, o: Oracle, n: Names, s: State)
    requires LeadsOut(w, n) && TaskRan(n, s)
    ensures OnWay(n, Advance(w, o, s, s.current))
  {
    if s.frames == [] {
      Ends(w, o, n, s, n.outside);
    } else {
      EdgeLeavesBody(w, o, s, n.first, n.outside);
    }
    hide Advance;
  }

  lemma Jumps(w: Workflow, n: Names, s: State, target: Id)
    requires LeadsOut(w, n) && TaskRan(n, s) && (target == "" || target in Targets(w.index[s.current]))
    ensures OnWay(n, ResolveJump(s, target))
  {
    OnlyOutside(w, n, s.current);
    hide ResolveJump, Targets, Stepped, HeldAt, LeadsOut;
    JumpStands(s, target);
  }

  lemma OnlyOutside(w: Workflow, n: Names, id: Id)
    requires LeadsOut(w, n) && id in {n.first, n.outside}
    ensures Targets(w.index[id]) <= {n.outside}
    ensures n.outside !in {n.first, n.second, n.loop}
  {
  }

  lemma SkipsOrLeaves(w: Workflow, o: Oracle, n: Names, s: State, name: Id)
    requires LeadsOut(w, n) && TaskRan(n, s)
    ensures OnWay(n, Obey(w, o, s, w.index[s.current], LoopBreak(name)))
    ensures OnWay(n, Obey(w, o, s, w.index[s.current], LoopContinue(name)))
  {
    hide Obey, Advance, NextPass, OnWay;
    var node := w.index[s.current];
    var left, skipped := Obey(w, o, s, node, LoopBreak(name)), Obey(w, o, s, node, LoopContinue(name));
    BreakObeyed(w, o, s, node, name);
    ContinueObeyed(w, o, s, node, name);
    if s.frames != [] && LoopAt(s.frames, name, 0) {
      assert s.frames[..1] == s.frames;
      PassOver(w, o, n, s);
      Ends(w, o, n, Behind(s), n.loop);
    } else {
      assert forall k: nat :: !LoopAt(s.frames, name, k);
      EndedIsFine(n, s.env, left);
      EndedIsFine(n, s.env, skipped);
    }
  }

  lemma RoundOfTask(w: Workflow, o: Oracle, n: Names, s: State)
    requires LeadsOut(w, n) && Static(w, o) && About(w, s) && OnWay(n, s) && s.cursor in {n.first, n.outside}
    ensures OnWay(n, Step(w, o, s))
  {
    hide Step, Raise, Advance;
    var r := o.leaf(s.cursor, Sight(s));
    if r.result.Err? {
      NodeFails(w, o, s, r.result.error);
      Fails(w, o, n, Ran(s, r), r.result.error, s.cursor);
    } else {
      TaskRuns(w, o, s);
      var s1 := Forgetful(Ran(s, r));
      Obeys(w, o, n, s1, r.result.value);
    }
  }

  lemma Obeys(w: Workflow, o: Oracle, n: Names, s: State, signal: Signal)
    requires LeadsOut(w, n) && TaskRan(n, s)
    requires signal.JumpTo? ==> signal.target == "" || signal.target in Targets(w.index[s.current])
    ensures OnWay(n, Obey(w, o, s, w.index[s.current], signal))
  {
    match signal
    case Continue => Continues(w, o, n, s);
    case JumpTo(target) => Jumps(w, n, s, target);
    case Suspend(request) =>
    case Terminate(status, code, payload) =>
    case LoopBreak(name) => SkipsOrLeaves(w, o, n, s, name);
    case LoopContinue(name) => SkipsOrLeaves(w, o, n, s, name);
    hide Advance, ResolveJump, FinishLoop, NextIteration;
  }

  lemma Round(w: Workflow, o: Oracle, n: Names, s: State)
    requires LeadsOut(w, n) && Static(w, o) && OnWay(n, s) && !s.finished
    ensures OnWay(n, Step(w, o, s))
  {
    if s.cursor != "" && s.env.visits < s.env.budget {
      if s.cursor == n.loop {
        RoundOfLoop(w, o, n, s);
      } else {
        RoundOfTask(w, o, n, s);
      }
      hide Step;
    } else if s.cursor != "" {
      BudgetEnds(w, o, s);
      hide Step;
    } else {
      hide Raise, Stray, RunNode;
    }
  }

  /** The validator counts the second node as reachable from the loop, but no run without dynamic jumps gets there. */
  lemma {:induction false} NeverFollowed(w: Workflow, o: Oracle, n: Names, s: State)
    requires LeadsOut(w, n) && HandlersExist(w) && Static(w, o) && OnWay(n, s)
    ensures n.second in Targets(w.index[n.loop]) && n.second !in Drive(w, o, s).env.visited
    decreases Fuel(s), StackWeight(s.frames), Unsettled(w, s)
  {
    hide Step, OnWay;
    assert n.second in [n.first, n.second];
    if !s.finished {
      Round(w, o, n, s);
      StepDescends(w, o, s);
      var t := Step(w, o, s);
      if t.finished {
        Unvisited(n, t);
      } else {
        NeverFollowed(w, o, n, t);
      }
    }
    Unvisited(n, s);
  }

  lemma Unvisited(n: Names, s: State)
    requires OnWay(n, s)
    ensures n.second !in s.env.visited
  {
  }

  /** There is such a graph. */
  lemma LeadsOutSomewhere() returns (w: Workflow, n: Names)
    ensures LeadsOut(w, n) && HandlersExist(w)
  {
    n := Names("each", "leave", "rest", "after");
    var loop := Node("each", None, None, true, Loop(["leave", "rest"], 5, "fail", "item", "index"));
    var first := Node("leave", Some("after"), None, true, Leaf(false, []));
    var second := Node("rest", None, None, true, Leaf(false, []));
    var outside := Node("after", None, None, true, Leaf(false, []));
    w := Workflow([loop, first, second, outside], "each",
                  map["each" := loop, "leave" := first, "rest" := second, "after" := outside]);
  }
}
