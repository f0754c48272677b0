// Which loop variables a node may rely on, and the invariant that the locals of a run hold
// exactly the bindings its open loop frames stand for.

module Bindings {
  import opened Json
  import opened Blueprint
  import opened Machine
  import opened MainLoop

  /**
   * A naming discipline: the loop variables a node reads, those a loop's guard reads, the ones that may be
   * bound while a node runs, which loops run on a guard instead of a collection, and the locals that every
   * node may read besides, such as `input` or `error`.
   */
  datatype Scopes = Scopes(
    needs: Id -> set<string>, guardNeeds: Id -> set<string>, outer: Id -> set<string>, guarded: Id -> bool,
    locals: set<string>)

  const Reserved: set<string> := {"iteration", "error", "input", "event", "timer"}

  function LoopNames(itemVar: string, indexVar: string): set<string> {
    {itemVar, indexVar} - {""}
  }

  /** What a pass binds: a guarded loop has no item. */
  function PassNames(whileMode: bool, itemVar: string, indexVar: string): set<string> {
    (if whileMode then {indexVar} else {itemVar, indexVar}) - {""}
  }

  function FrameNames(f: Frame): set<string> {
    if f.LoopFrame? then LoopNames(f.itemVar, f.indexVar) else {}
  }

  function FrameBinds(f: Frame): set<string> {
    if f.LoopFrame? then PassNames(f.whileMode, f.itemVar, f.indexVar) else {}
  }

  /** Names taken by the open loops. */
  function Taken(frames: seq<Frame>): set<string> {
    if frames == [] then {} else Taken(frames[..|frames| - 1]) + FrameNames(frames[|frames| - 1])
  }

  /** Names bound by the open loops. */
  function Readable(frames: seq<Frame>): set<string> {
    if frames == [] then {} else Readable(frames[..|frames| - 1]) + FrameBinds(frames[|frames| - 1])
  }

  /** The node `id` may run, and the body ids nested in it may be entered, where these frames are open. */
  predicate Fits(a: Scopes, id: Id, frames: seq<Frame>) {
    a.needs(id) <= Readable(frames) && Taken(frames) <= a.outer(id)
  }

  /** `b` is nested in node `id` without a loop in between. */
  predicate Inherits(a: Scopes, id: Id, b: Id) {
    a.needs(b) <= a.needs(id) && a.outer(id) <= a.outer(b)
  }

  ghost predicate InheritAll(a: Scopes, id: Id, ids: seq<Id>) {
    forall b :: b in ids ==> Inherits(a, id, b)
  }

  /** Nodes that edges and jumps lead to rely on no loop variable. */
  predicate Free(a: Scopes, target: Id) {
    target == "" || a.needs(target) == {}
  }

  ghost predicate DisciplinedNode(a: Scopes, n: Node) {
    && (n.next.Some? ==> Free(a, n.next.value))
    && (n.onError.Some? ==> Free(a, n.onError.value))
    && match n.kind
       case Leaf(_, _) => n.next.Some? ==> a.outer(n.id) <= a.outer(n.next.value)
       case Loop(body, _, _, itemVar, indexVar) =>
         && LoopNames(itemVar, indexVar) !! (a.outer(n.id) + Reserved)
         && (itemVar == indexVar ==> itemVar == "")
         && a.guardNeeds(n.id) <= a.needs(n.id) + PassNames(a.guarded(n.id), itemVar, indexVar)
         && forall b :: b in body ==>
              && a.needs(b) <= a.needs(n.id) + PassNames(a.guarded(n.id), itemVar, indexVar)
              && a.outer(n.id) + LoopNames(itemVar, indexVar) <= a.outer(b)
       case Try(body, catchBody, finallyBody, errorVar, catchWhen) =>
         && InheritAll(a, n.id, body) && InheritAll(a, n.id, catchBody) && InheritAll(a, n.id, finallyBody)
         && (forall code :: code in catchWhen ==> Inherits(a, n.id, catchWhen[code]))
         && errorVar !in a.outer(n.id)
       case Condition(onTrue, onFalse, thenBody, elseBody) =>
         && InheritAll(a, n.id, thenBody) && InheritAll(a, n.id, elseBody)
         && Free(a, onTrue) && Free(a, onFalse)
         && (n.next.Some? ==> a.outer(n.id) <= a.outer(n.next.value))
  }

  ghost predicate Disciplined(w: Workflow, a: Scopes) {
    forall id :: id in w.index ==> DisciplinedNode(a, w.index[id])
  }

  /** Waiting tasks name themselves and a known reason; the loops that run on a guard are those the discipline says. */
  ghost predicate WellBehaved(o: Oracle, a: Scopes) {
    && (forall id: Id, v: View :: o.leaf(id, v).result.Ok? && o.leaf(id, v).result.value.Suspend? ==>
          var request := o.leaf(id, v).result.value.request;
          request.node == id && request.reason in ["input", "timer", "event"])
    && (forall id: Id, v: View :: o.items(id, v).result.Ok? ==>
          (o.items(id, v).result.value.None? <==> a.guarded(id)))
  }

  /** A jump finds what its target needs: the target is in an open body, bound again, or needs no loop variable. */
  predicate Lands(a: Scopes, frames: seq<Frame>, target: Id) {
    Free(a, target) || JumpDepth(frames, target) > 0
  }

  /** Wherever the task under the cursor sends control in this round, now or on waking up, it finds what it needs. */
  predicate RoundLands(w: Workflow, a: Scopes, o: Oracle, s: State) {
    s.cursor in w.index && w.index[s.cursor].kind.Leaf? ==>
      var r := o.leaf(s.cursor, ViewOf(s.env, Iteration(s.frames))).result;
      && (r.Ok? && r.value.JumpTo? ==> Lands(a, s.frames, r.value.target))
      && (r.Ok? && r.value.Suspend? ==>
            var target := r.value.request.resumeNode; target == "" || Fits(a, target, s.frames))
  }

  /** ... in each of the next `n` rounds. */
  ghost predicate RoundsLand(w: Workflow, a: Scopes, o: Oracle, s: State, n: nat)
    requires WellIndexed(w)
  {
    forall m: nat :: m < n && !StepN(w, o, s, m).finished ==> RoundLands(w, a, o, StepN(w, o, s, m))
  }

  /** ... for the rest of the run. */
  ghost predicate RunLands(w: Workflow, a: Scopes, o: Oracle, s: State)
    requires WellIndexed(w)
  {
    forall n: nat :: RoundsLand(w, a, o, s, n)
  }

  lemma RoundsLandOn(w: Workflow, a: Scopes, o: Oracle, s: State, n: nat)
    requires WellIndexed(w) && !s.finished && RoundsLand(w, a, o, s, n + 1)
    ensures RoundLands(w, a, o, s) && RoundsLand(w, a, o, Step(w, o, s), n)
  {
    hide Step, RoundLands;
    assert StepN(w, o, s, 0) == s;
    forall m: nat | m < n && !StepN(w, o, Step(w, o, s), m).finished
      ensures RoundLands(w, a, o, StepN(w, o, Step(w, o, s), m))
    {
      assert StepN(w, o, s, m + 1) == StepN(w, o, Step(w, o, s), m);
    }
  }

  lemma RunLandsOn(w: Workflow, a: Scopes, o: Oracle, s: State)
    requires WellIndexed(w) && !s.finished && RunLands(w, a, o, s)
    ensures RoundLands(w, a, o, s) && RunLands(w, a, o, Step(w, o, s))
  {
    hide Step, RoundLands, RoundsLand;
    assert RoundsLand(w, a, o, s, 1);
    RoundsLandOn(w, a, o, s, 0);
    forall n: nat
      ensures RoundsLand(w, a, o, Step(w, o, s), n)
    {
      assert RoundsLand(w, a, o, s, n + 1);
      RoundsLandOn(w, a, o, s, n);
    }
  }

  // ------------------------------------------------------------------ the invariant

  ghost predicate FitAll(a: Scopes, ids: seq<Id>, frames: seq<Frame>) {
    forall id :: id in ids ==> Fits(a, id, frames)
  }

  /** The top frame of this stack obeys the discipline. */
  ghost predicate TopOk(a: Scopes, frames: seq<Frame>)
    requires frames != []
  {
    var f := frames[|frames| - 1];
    var below := frames[..|frames| - 1];
    && FitAll(a, f.ids, frames)
    && match f
       case LoopFrame(node, _, _, _, whileMode, items, index, total, _, itemVar, indexVar, _) =>
         && LoopNames(itemVar, indexVar) !! (Taken(below) + Reserved)
         && (itemVar == indexVar ==> itemVar == "")
         && (if whileMode then items == [] else 0 <= index < |items| == total)
         && a.guardNeeds(node) <= Readable(frames)
       case TryFrame(_, _, _, _, _, catchIds, finallyIds, errorVar, catchWhen, _) =>
         && FitAll(a, catchIds, frames) && FitAll(a, finallyIds, frames)
         && (forall code :: code in catchWhen ==> Fits(a, catchWhen[code], frames))
         && errorVar !in Taken(frames)
       case BodyFrame(_, _, _, resume, _) =>
         resume != "" ==> a.needs(resume) == {} && Taken(below) <= a.outer(resume)
       case BranchFrame(_, _, _, _, _) => true
  }

  ghost predicate FramesOk(a: Scopes, frames: seq<Frame>) {
    forall k :: 0 < k <= |frames| ==> TopOk(a, frames[..k])
  }

  /** The locals hold what the frame's current pass binds. */
  predicate Bound(locals: map<string, Json>, f: Frame) {
    f.LoopFrame? ==>
      && (f.indexVar != "" ==> f.indexVar in locals && locals[f.indexVar] == Num(f.index))
      && (!f.whileMode && f.itemVar != "" ==>
            0 <= f.index < |f.items| && f.itemVar in locals && locals[f.itemVar] == f.items[f.index])
  }

  ghost predicate AllBound(locals: map<string, Json>, frames: seq<Frame>) {
    forall k :: 0 <= k < |frames| ==> Bound(locals, frames[k])
  }

  predicate CursorOk(a: Scopes, s: State) {
    s.cursor != "" ==> Fits(a, s.cursor, s.frames)
  }

  ghost predicate Good(a: Scopes, s: State) {
    FramesOk(a, s.frames) && AllBound(s.env.locals, s.frames) && CursorOk(a, s)
  }

  // ------------------------------------------------------------------ prefixes and pushes

  lemma PrefixOk(a: Scopes, frames: seq<Frame>, d: nat)
    requires FramesOk(a, frames) && d <= |frames|
    ensures FramesOk(a, frames[..d])
  {
    hide TopOk;
    forall k | 0 < k <= d
      ensures TopOk(a, frames[..d][..k])
    {
      assert frames[..d][..k] == frames[..k];
    }
  }

  lemma PushOk(a: Scopes, below: seq<Frame>, f: Frame)
    requires FramesOk(a, below) && TopOk(a, below + [f])
    ensures FramesOk(a, below + [f])
  {
    hide TopOk;
    forall k | 0 < k <= |below| + 1
      ensures TopOk(a, (below + [f])[..k])
    {
      if k <= |below| {
        assert (below + [f])[..k] == below[..k];
      } else {
        assert (below + [f])[..k] == below + [f];
      }
    }
  }

  lemma TopIsOk(a: Scopes, frames: seq<Frame>)
    requires FramesOk(a, frames) && frames != []
    ensures TopOk(a, frames)
  {
    assert frames[..|frames|] == frames;
  }

  lemma NamesPush(below: seq<Frame>, f: Frame)
    ensures Taken(below + [f]) == Taken(below) + FrameNames(f)
    ensures Readable(below + [f]) == Readable(below) + FrameBinds(f)
  {
    assert (below + [f])[..|below + [f]| - 1] == below;
  }

  lemma {:induction false} FrameNamesTaken(frames: seq<Frame>, k: nat)
    requires k < |frames|
    ensures FrameNames(frames[k]) <= Taken(frames)
  {
    if k < |frames| - 1 {
      FrameNamesTaken(frames[..|frames| - 1], k);
    }
  }

  /** Changing locals outside the taken names unbinds nothing. */
  lemma BoundElsewhere(l: map<string, Json>, l': map<string, Json>, frames: seq<Frame>, names: set<string>)
    requires AllBound(l, frames) && Taken(frames) !! names
    requires forall x :: x !in names && x in l ==> x in l' && l'[x] == l[x]
    ensures AllBound(l', frames)
  {
    forall k | 0 <= k < |frames|
      ensures Bound(l', frames[k])
    {
      FrameNamesTaken(frames, k);
      assert Bound(l, frames[k]);
      var f := frames[k];
      if f.LoopFrame? {
        assert f.itemVar != "" ==> f.itemVar in FrameNames(f);
        assert f.indexVar != "" ==> f.indexVar in FrameNames(f);
      }
    }
  }

  lemma {:induction false} TakenNotReserved(a: Scopes, frames: seq<Frame>)
    requires FramesOk(a, frames)
    ensures Taken(frames) !! Reserved
  {
    if frames != [] {
      TopIsOk(a, frames);
      PrefixOk(a, frames, |frames| - 1);
      TakenNotReserved(a, frames[..|frames| - 1]);
    }
  }

  /** Binding a pass on top of a stack whose other frames are bound. */
  lemma BindTop(a: Scopes, below: seq<Frame>, f: Frame, locals: map<string, Json>)
    requires f.LoopFrame? && FramesOk(a, below) && TopOk(a, below + [f]) && AllBound(locals, below)
    ensures AllBound(BindLocals(locals, f), below + [f])
  {
    hide FitAll;
    assert (below + [f])[..|below|] == below;
    TakenNotReserved(a, below);
    var l := BindLocals(locals, f);
    BoundElsewhere(locals, l, below, FrameNames(f) + {"iteration"});
    assert "iteration" in Reserved;
    assert f.itemVar != "" ==> f.itemVar in FrameNames(f);
    assert f.indexVar != "" ==> f.indexVar in FrameNames(f);
    assert Bound(l, f);
    forall k | 0 <= k < |below + [f]|
      ensures Bound(l, (below + [f])[k])
    {
      if k < |below| { assert Bound(l, below[k]); }
    }
  }

  // ------------------------------------------------------------------ routing keeps it

  lemma PopGood(a: Scopes, s: State)
    requires FramesOk(a, s.frames) && AllBound(s.env.locals, s.frames) && s.frames != []
    ensures FramesOk(a, Popped(s).frames) && AllBound(s.env.locals, Popped(s).frames)
    ensures AllBound(EraseLocals(s.env, Top(s)).locals, Popped(s).frames)
  {
    hide FitAll;
    var f := Top(s);
    var below := s.frames[..|s.frames| - 1];
    PrefixOk(a, s.frames, |s.frames| - 1);
    TopIsOk(a, s.frames);
    TakenNotReserved(a, below);
    assert "iteration" in Reserved;
    BoundElsewhere(s.env.locals, EraseLocals(s.env, f).locals, below, ErasedNames(f));
  }

  /** A top frame whose position alone changed. */
  lemma RepositionedTop(a: Scopes, below: seq<Frame>, g: Frame, k: int)
    requires TopOk(a, below + [g])
    ensures TopOk(a, below + [AtPosition(g, k)])
    ensures FrameNames(AtPosition(g, k)) == FrameNames(g) && FrameBinds(AtPosition(g, k)) == FrameBinds(g)
  {
    hide PassNames, LoopNames;
    NamesPush(below, g);
    NamesPush(below, AtPosition(g, k));
    assert (below + [AtPosition(g, k)])[..|below|] == below && (below + [g])[..|below|] == below;
  }

  lemma BoundMoved(l: map<string, Json>, frames: seq<Frame>, k: int)
    requires AllBound(l, frames) && frames != []
    ensures AllBound(l, frames[..|frames| - 1] + [AtPosition(frames[|frames| - 1], k)])
  {
    assert Bound(l, frames[|frames| - 1]);
  }

  lemma RepositionOk(a: Scopes, s: State, k: int)
    requires FramesOk(a, s.frames) && AllBound(s.env.locals, s.frames) && s.frames != []
    ensures FramesOk(a, WithTop(s, AtPosition(Top(s), k)).frames)
    ensures AllBound(s.env.locals, WithTop(s, AtPosition(Top(s), k)).frames)
    ensures Taken(WithTop(s, AtPosition(Top(s), k)).frames) == Taken(s.frames)
    ensures Readable(WithTop(s, AtPosition(Top(s), k)).frames) == Readable(s.frames)
    ensures TopOk(a, WithTop(s, AtPosition(Top(s), k)).frames)
  {
    hide TopOk, FrameNames, FrameBinds, AtPosition, Bound;
    var below := s.frames[..|s.frames| - 1];
    var f := AtPosition(Top(s), k);
    assert s.frames == below + [Top(s)];
    TopIsOk(a, s.frames);
    RepositionedTop(a, below, Top(s), k);
    NamesPush(below, Top(s));
    NamesPush(below, f);
    PrefixOk(a, s.frames, |s.frames| - 1);
    PushOk(a, below, f);
    BoundMoved(s.env.locals, s.frames, k);
  }

  lemma JumpGood(a: Scopes, s: State, target: Id)
    requires FramesOk(a, s.frames) && AllBound(s.env.locals, s.frames)
    requires Lands(a, s.frames, target)
    ensures Good(a, ResolveJump(s, target))
  {
    hide TopOk, Bound, AtPosition, BindLocals, Taken, Readable;
    var d := JumpDepth(s.frames, target);
    if target != "" && d > 0 {
      var s1 := s.(frames := s.frames[..d]);
      var k := IndexOf(s.frames[d - 1].ids, target);
      assert s.frames[..d][..d - 1] == s.frames[..d - 1];
      PrefixOk(a, s.frames, d);
      RepositionOk(a, s1, k);
      JumpFits(a, s1, target, k);
      var f := AtPosition(Top(s1), k);
      if f.LoopFrame? {
        PrefixOk(a, s.frames, d - 1);
        BindTop(a, s.frames[..d - 1], f, s.env.locals);
      }
    } else {
      NothingTaken();
    }
  }

  lemma NothingTaken()
    ensures Taken([]) == {} && Readable([]) == {}
  {
  }

  lemma JumpFits(a: Scopes, s: State, target: Id, k: int)
    requires s.frames != [] && TopOk(a, WithTop(s, AtPosition(Top(s), k)).frames) && target in Top(s).ids
    ensures Fits(a, target, WithTop(s, AtPosition(Top(s), k)).frames)
  {
    assert AtPosition(Top(s), k).ids == Top(s).ids;
  }

  /** Frames and locals agree; where the cursor stands is another matter. */
  ghost predicate Kept(a: Scopes, s: State) {
    FramesOk(a, s.frames) && AllBound(s.env.locals, s.frames)
  }

  ghost predicate Steady(a: Scopes, s: State) {
    s.finished || Good(a, s)
  }

  lemma {:induction false} AdvanceGood(w: Workflow, a: Scopes, o: Oracle, s: State, current: Id)
    requires Disciplined(w, a) && Kept(a, s)
    ensures Steady(a, Advance(w, o, s, current))
    decreases StackWeight(s.frames), 4
  {
    hide FinishBody, ResolveJump, AtPosition, TopOk, Bound, AllBound, FramesOk;
    if s.frames == [] {
      NothingTaken();
    } else {
      var f := Top(s);
      var k := IndexOf(f.ids, current);
      if Escapes(w, f, current) {
        JumpGood(a, s, w.index[current].next.value);
      } else if 0 <= k && k + 1 < |f.ids| {
        RepositionOk(a, s, k + 1);
        JumpFits(a, s, f.ids[k + 1], k + 1);
      } else {
        FinishGood(w, a, o, s, k >= 0);
      }
    }
  }

  lemma {:induction false} CloseGood(w: Workflow, a: Scopes, o: Oracle, s: State)
    requires Disciplined(w, a) && Kept(a, s) && s.frames != []
    ensures Steady(a, CloseFrame(w, o, s))
    ensures Steady(a, LeaveLoop(w, o, s, Top(s)))
    decreases StackWeight(s.frames), 1
  {
    hide Advance, Steady, FramesOk, AllBound;
    PopGood(a, s);
    WeightPrefix(s.frames, |s.frames| - 1);
    AdvanceGood(w, a, o, Popped(s).(env := EraseLocals(s.env, Top(s)), current := Top(s).node), Top(s).node);
  }

  lemma {:induction false} FinishGood(w: Workflow, a: Scopes, o: Oracle, s: State, atEnd: bool)
    requires Disciplined(w, a) && Kept(a, s) && s.frames != []
    ensures Steady(a, FinishBody(w, o, s, atEnd))
    decreases StackWeight(s.frames), 3
  {
    hide Advance, AdvanceTryPhase, NextIteration, FramesOk, AllBound, FitAll;
    var f := Top(s);
    WeightPrefix(s.frames, |s.frames| - 1);
    PopGood(a, s);
    match f
    case LoopFrame(_, _, _, _, _, _, _, _, _, _, _, _) =>
      NextGood(w, a, o, s, "");
    case TryFrame(_, _, _, _, _, _, _, _, _, _) =>
      PhaseGood(w, a, o, s);
      var t := AdvanceTryPhase(w, o, s);
      if !t.finished {
        AdvanceGood(w, a, o, t, f.node);
      }
    case BranchFrame(_, _, _, _, _) =>
    case BodyFrame(_, _, _, _, _) =>
      TopIsOk(a, s.frames);
      AdvanceGood(w, a, o, Popped(s), f.node);
  }

  lemma RephasedTop(a: Scopes, below: seq<Frame>, f: Frame, g: Frame)
    requires f.TryFrame? && g.TryFrame? && TopOk(a, below + [f]) && FitAll(a, g.ids, below + [f])
    requires g.catchIds == f.catchIds && g.finallyIds == f.finallyIds
    requires g.errorVar == f.errorVar && g.catchWhen == f.catchWhen
    ensures TopOk(a, below + [g]) && FitAll(a, g.ids, below + [g])
  {
    SameNames(below, f, g);
    hide Taken, Readable;
  }

  lemma SameNames(below: seq<Frame>, f: Frame, g: Frame)
    requires f.TryFrame? && g.TryFrame?
    ensures Taken(below + [g]) == Taken(below + [f]) && Readable(below + [g]) == Readable(below + [f])
  {
    hide Taken, Readable;
    NamesPush(below, f);
    NamesPush(below, g);
  }

  /** The top try frame in another phase, on ids it already vouches for. */
  lemma RephaseOk(a: Scopes, s: State, g: Frame)
    requires Kept(a, s) && s.frames != [] && Top(s).TryFrame? && g.TryFrame?
    requires g.catchIds == Top(s).catchIds && g.finallyIds == Top(s).finallyIds
    requires g.errorVar == Top(s).errorVar && g.catchWhen == Top(s).catchWhen
    requires FitAll(a, g.ids, s.frames)
    ensures Kept(a, WithTop(s, g)) && FitAll(a, g.ids, WithTop(s, g).frames)
    ensures Taken(WithTop(s, g).frames) == Taken(s.frames)
  {
    hide TopOk, FitAll, Taken, FramesOk;
    var below := s.frames[..|s.frames| - 1];
    assert s.frames == below + [Top(s)];
    TopIsOk(a, s.frames);
    RephasedTop(a, below, Top(s), g);
    SameNames(below, Top(s), g);
    PrefixOk(a, s.frames, |s.frames| - 1);
    PushOk(a, below, g);
  }

  lemma ErrorLocalGood(a: Scopes, s: State, j: Json)
    requires Kept(a, s)
    ensures AllBound(s.env.locals["error" := j], s.frames)
  {
    hide TopOk, Bound;
    TakenNotReserved(a, s.frames);
    assert "error" in Reserved;
    BoundElsewhere(s.env.locals, s.env.locals["error" := j], s.frames, {"error"});
  }

  lemma {:induction false} PhaseGood(w: Workflow, a: Scopes, o: Oracle, s: State)
    requires Disciplined(w, a) && Kept(a, s) && s.frames != [] && Top(s).TryFrame?
    ensures Steady(a, AdvanceTryPhase(w, o, s))
    decreases StackWeight(s.frames), 2
  {
    hide CloseFrame, ErrorJson, FramesOk, AllBound;
    var f := Top(s);
    if f.phase != InFinally && f.finallyIds != [] {
      TopIsOk(a, s.frames);
      RephaseOk(a, s, f.(phase := InFinally, ids := f.finallyIds, position := 0));
    } else if f.propagate.Some? {
      ErrorLocalGood(a, s, ErrorJson(f.propagate.value));
      CloseGood(w, a, o, s.(env := s.env.(pending := f.propagate,
                                        locals := s.env.locals["error" := ErrorJson(f.propagate.value)])));
    } else {
      CloseGood(w, a, o, s);
    }
  }

  /** The top loop frame in its next pass. */
  lemma NextPassTop(a: Scopes, below: seq<Frame>, f: Frame, g: Frame)
    requires f.LoopFrame? && TopOk(a, below + [f]) && f.index + 1 < f.total
    requires g == f.(index := f.index + 1, position := 0)
    ensures TopOk(a, below + [g]) && FitAll(a, f.ids, below + [g])
  {
    hide PassNames, LoopNames;
    NamesPush(below, f);
    NamesPush(below, g);
    assert (below + [g])[..|below|] == below && (below + [f])[..|below|] == below;
  }

  lemma EnterPassGood(a: Scopes, s: State, f: Frame)
    requires Kept(a, s) && s.frames != [] && f == Top(s) && f.LoopFrame?
    requires f.index + 1 < f.cap && f.index + 1 < f.total
    ensures Good(a, EnterPass(s, f))
  {
    hide BindLocals, AllBound, FramesOk, TopOk, Fits;
    var below := s.frames[..|s.frames| - 1];
    var g := f.(index := f.index + 1, position := 0);
    assert s.frames == below + [f];
    PopGood(a, s);
    TopIsOk(a, s.frames);
    NextPassTop(a, below, f, g);
    PushOk(a, below, g);
    BindTop(a, below, g, s.env.locals);
  }

  lemma {:induction false} PassGood(w: Workflow, a: Scopes, o: Oracle, s: State)
    requires Disciplined(w, a) && Kept(a, s) && s.frames != [] && Top(s).LoopFrame?
    ensures Steady(a, NextPass(w, o, s))
    decreases StackWeight(s.frames), 2, 0
  {
    hide LeaveLoop, EnterPass, FramesOk, AllBound, Good;
    var f := Top(s);
    var r := o.guard(f.node, ViewOf(s.env, f.index));
    CloseGood(w, a, o, s);
    CloseGood(w, a, o, s.(env := After(s.env, r)));
    if f.index + 1 < f.cap && f.index + 1 < f.total {
      EnterPassGood(a, s, f);
      EnterPassGood(a, s.(env := After(s.env, r)), f);
    }
  }

  lemma {:induction false} NextGood(w: Workflow, a: Scopes, o: Oracle, s: State, name: Id)
    requires Disciplined(w, a) && Kept(a, s)
    ensures NextIteration(w, o, s, name).Some? ==> Steady(a, NextIteration(w, o, s, name).value)
    decreases StackWeight(s.frames), 2, 1
  {
    hide NextPass, FramesOk, Bound;
    var d := LoopDepth(s.frames, name);
    if d > 0 {
      WeightPrefix(s.frames, d);
      PrefixOk(a, s.frames, d);
      PassGood(w, a, o, s.(frames := s.frames[..d]));
    }
  }

  lemma BreakGood(w: Workflow, a: Scopes, o: Oracle, s: State, name: Id)
    requires Disciplined(w, a) && Kept(a, s)
    ensures FinishLoop(w, o, s, name).Some? ==> Steady(a, FinishLoop(w, o, s, name).value)
  {
    hide CloseFrame, FramesOk, Bound;
    var d := LoopDepth(s.frames, name);
    if d > 0 {
      PrefixOk(a, s.frames, d);
      CloseGood(w, a, o, s.(frames := s.frames[..d]));
    }
  }

  lemma BindErrorGood(a: Scopes, s: State, name: string, e: Error)
    requires Kept(a, s) && name !in Taken(s.frames)
    ensures Kept(a, s.(env := BindError(s.env, name, e)))
  {
    hide TopOk, Bound, ErrorJson;
    TakenNotReserved(a, s.frames);
    assert "error" in Reserved;
    BoundElsewhere(s.env.locals, BindError(s.env, name, e).locals, s.frames, {"error", name});
  }

  lemma RecoverGood(w: Workflow, a: Scopes, o: Oracle, s: State, e: Error)
    requires Disciplined(w, a) && Kept(a, s) && s.frames != [] && Top(s).TryFrame? && Top(s).phase == InBody
    ensures Steady(a, RecoverInTry(w, o, s, e))
  {
    hide CloseFrame, BindError, FramesOk, AllBound;
    var f := Top(s);
    TopIsOk(a, s.frames);
    var routed := Routed(w, f, e.code);
    var handlers := if routed != "" then [routed] else f.catchIds;
    if handlers != [] {
      var g := f.(phase := InCatch, ids := handlers, position := 0);
      assert FitAll(a, handlers, s.frames);
      RephaseOk(a, s, g);
      BindErrorGood(a, WithTop(s, g), f.errorVar, e);
    } else if f.finallyIds != [] {
      RephaseOk(a, s, f.(phase := InFinally, ids := f.finallyIds, position := 0, propagate := Some(e)));
    } else {
      CloseGood(w, a, o, s.(env := s.env.(pending := Some(e))));
    }
  }

  lemma RaiseGood(w: Workflow, a: Scopes, o: Oracle, s: State, e: Error, blame: Id)
    requires Disciplined(w, a) && Kept(a, s)
    ensures Steady(a, Raise(w, o, s, e, blame))
  {
    hide ResolveJump, NextIteration, RecoverInTry, FramesOk, AllBound, ErrorJson;
    if HasHandler(w, s.current) {
      ErrorLocalGood(a, s, ErrorJson(e));
      JumpGood(a, s.(env := s.env.(locals := s.env.locals["error" := ErrorJson(e)])), w.index[s.current].onError.value);
    } else {
      var d := RecoverDepth(w, s.frames, e);
      if d > 0 && s.frames[d - 1].LoopFrame? {
        NextGood(w, a, o, s, "");
      } else if d > 0 {
        PrefixKept(a, s, d);
        RecoverGood(w, a, o, s.(frames := s.frames[..d]), e);
      }
    }
  }

  lemma PrefixKept(a: Scopes, s: State, d: nat)
    requires Kept(a, s) && d <= |s.frames|
    ensures Kept(a, s.(frames := s.frames[..d]))
  {
    hide Bound, FramesOk;
    PrefixOk(a, s.frames, d);
  }

  // ------------------------------------------------------------------ every round keeps it

  lemma EnterGood(a: Scopes, s: State, f: Frame)
    requires FramesOk(a, s.frames) && TopOk(a, s.frames + [f]) && f.ids != []
    requires AllBound(s.env.locals, s.frames + [f])
    ensures Good(a, EnterBody(s, f))
  {
    hide TopOk, ResolveJump, AllBound;
    PushOk(a, s.frames, f);
    assert f.ids[0] in f.ids;
    assert JumpDepth(s.frames + [f], f.ids[0]) == |s.frames| + 1;
    JumpGood(a, s.(frames := s.frames + [f]), f.ids[0]);
  }

  lemma BoundPush(locals: map<string, Json>, frames: seq<Frame>, f: Frame)
    requires AllBound(locals, frames) && Bound(locals, f)
    ensures AllBound(locals, frames + [f])
  {
    hide Bound;
    forall k | 0 <= k < |frames + [f]|
      ensures Bound(locals, (frames + [f])[k])
    {
      if k < |frames| { assert Bound(locals, frames[k]); }
    }
  }

  lemma TryFrameOk(a: Scopes, n: Node, frames: seq<Frame>)
    requires DisciplinedNode(a, n) && n.kind.Try? && Fits(a, n.id, frames)
    ensures TopOk(a, frames + [TryFrameFor(n)])
  {
    NamesPush(frames, TryFrameFor(n));
    assert (frames + [TryFrameFor(n)])[..|frames|] == frames;
  }

  lemma BodyFrameOk(a: Scopes, n: Node, taken: bool, frames: seq<Frame>)
    requires DisciplinedNode(a, n) && n.kind.Condition? && Fits(a, n.id, frames)
    ensures TopOk(a, frames + [BodyFrame(n.id, if taken then n.kind.thenBody else n.kind.elseBody, 0, ResumeTarget(n),
                                         taken)])
  {
    var f := BodyFrame(n.id, if taken then n.kind.thenBody else n.kind.elseBody, 0, ResumeTarget(n), taken);
    NamesPush(frames, f);
    assert (frames + [f])[..|frames|] == frames;
  }

  lemma LoopFrameOk(a: Scopes, n: Node, items: Option<seq<Json>>, frames: seq<Frame>)
    requires DisciplinedNode(a, n) && n.kind.Loop? && Fits(a, n.id, frames)
    requires items != Some([]) && (items.None? <==> a.guarded(n.id))
    ensures TopOk(a, frames + [LoopFrameFor(n, items)])
  {
    var f := LoopFrameFor(n, items);
    NamesPush(frames, f);
    assert (frames + [f])[..|frames|] == frames;
  }

  lemma ObeyGood(w: Workflow, a: Scopes, o: Oracle, s: State, n: Node, signal: Signal)
    requires Disciplined(w, a) && Kept(a, s) && (signal.JumpTo? ==> Lands(a, s.frames, signal.target))
    ensures Steady(a, Obey(w, o, s, n, signal))
  {
    hide Advance, ResolveJump, FinishLoop, NextIteration, FramesOk, AllBound;
    match signal
    case Continue => AdvanceGood(w, a, o, s, n.id);
    case JumpTo(target) => JumpGood(a, s, target);
    case LoopBreak(name) => BreakGood(w, a, o, s, name);
    case LoopContinue(name) => NextGood(w, a, o, s, name);
    case _ =>
  }

  lemma ForgetGood(a: Scopes, s: State, id: Id)
    requires Kept(a, s)
    ensures Kept(a, s.(env := ForgetAnswer(s.env, id)))
  {
    hide TopOk, Bound;
    TakenNotReserved(a, s.frames);
    assert "input" in Reserved && "event" in Reserved;
    BoundElsewhere(s.env.locals, ForgetAnswer(s.env, id).locals, s.frames, {"input", "event"});
  }

  lemma LeafGood(w: Workflow, a: Scopes, o: Oracle, s: State, n: Node)
    requires Disciplined(w, a) && Kept(a, s)
    requires var r := o.leaf(n.id, ViewOf(s.env, Iteration(s.frames))).result;
             r.Ok? && r.value.JumpTo? ==> Lands(a, s.frames, r.value.target)
    ensures Steady(a, StepLeaf(w, o, s, n))
  {
    hide Raise, Obey, FramesOk, AllBound;
    var r := o.leaf(n.id, ViewOf(s.env, Iteration(s.frames)));
    var s1 := s.(env := After(s.env, r));
    if r.result.Ok? {
      ForgetGood(a, s1, n.id);
      ObeyGood(w, a, o, s1.(env := ForgetAnswer(s1.env, n.id)), n, r.result.value);
    } else {
      RaiseGood(w, a, o, s1, r.result.error, n.id);
    }
  }

  lemma LoopGood(w: Workflow, a: Scopes, o: Oracle, s: State, n: Node)
    requires Disciplined(w, a) && WellBehaved(o, a) && Kept(a, s) && DisciplinedNode(a, n) && Fits(a, n.id, s.frames)
    requires n.kind.Loop? && n.kind.body != []
    ensures Steady(a, StepLoop(w, o, s, n))
  {
    hide Raise, Advance, EnterBody, FramesOk, AllBound, BindLocals, TopOk, Disciplined;
    var r := o.items(n.id, ViewOf(s.env, Iteration(s.frames)));
    var s1 := s.(env := After(s.env, r));
    if r.result.Err? {
      RaiseGood(w, a, o, s1, r.result.error, n.id);
    } else if r.result.value == Some([]) {
      AdvanceGood(w, a, o, s1, n.id);
    } else {
      var f := LoopFrameFor(n, r.result.value);
      LoopFrameOk(a, n, r.result.value, s.frames);
      BindTop(a, s.frames, f, s1.env.locals);
      EnterGood(a, s1.(env := BindIteration(s1.env, f)), f);
    }
  }

  lemma ConditionGood(w: Workflow, a: Scopes, o: Oracle, s: State, n: Node)
    requires Disciplined(w, a) && Kept(a, s) && DisciplinedNode(a, n) && Fits(a, n.id, s.frames)
    requires n.kind.Condition?
    ensures Steady(a, StepCondition(w, o, s, n))
  {
    hide Raise, Advance, EnterBody, ResolveJump, FramesOk, AllBound, TopOk, Disciplined;
    var r := o.branch(n.id, ViewOf(s.env, Iteration(s.frames)));
    var s1 := s.(env := After(s.env, r));
    if r.result.Err? {
      RaiseGood(w, a, o, s1, r.result.error, n.id);
    } else {
      var body := if r.result.value then n.kind.thenBody else n.kind.elseBody;
      var target := if r.result.value then n.kind.onTrue else n.kind.onFalse;
      if body != [] {
        var f := BodyFrame(n.id, body, 0, ResumeTarget(n), r.result.value);
        BodyFrameOk(a, n, r.result.value, s.frames);
        BoundPush(s1.env.locals, s.frames, f);
        EnterGood(a, s1, f);
      } else if target != "" {
        JumpGood(a, s1, target);
      } else {
        AdvanceGood(w, a, o, s1, n.id);
      }
    }
  }

  lemma NodeGood(w: Workflow, a: Scopes, o: Oracle, s: State, n: Node)
    requires WellIndexed(w) && Disciplined(w, a) && WellBehaved(o, a) && Kept(a, s) && Fits(a, n.id, s.frames)
    requires n.id in w.index && w.index[n.id] == n
    requires n.kind.Leaf? ==> var r := o.leaf(n.id, ViewOf(s.env, Iteration(s.frames))).result;
                              r.Ok? && r.value.JumpTo? ==> Lands(a, s.frames, r.value.target)
    ensures Steady(a, RunNode(w, o, s, n))
  {
    hide StepLeaf, StepLoop, StepCondition, EnterBody, FramesOk, AllBound, TopOk, WellBehaved;
    assert DisciplinedNode(a, n);
    match n.kind
    case Leaf(_, _) => LeafGood(w, a, o, s, n);
    case Loop(_, _, _, _, _) => LoopGood(w, a, o, s, n);
    case Try(_, _, _, _, _) =>
      TryFrameOk(a, n, s.frames);
      BoundPush(s.env.locals, s.frames, TryFrameFor(n));
      EnterGood(a, s, TryFrameFor(n));
    case Condition(_, _, _, _) => ConditionGood(w, a, o, s, n);
  }

  /** Every round keeps the locals equal to what the open frames stand for. */
  lemma StepGood(w: Workflow, a: Scopes, o: Oracle, s: State)
    requires WellIndexed(w) && Disciplined(w, a) && WellBehaved(o, a) && Good(a, s) && !s.finished
    requires RoundLands(w, a, o, s)
    ensures Steady(a, Step(w, o, s))
  {
    hide Raise, Stray, HandleError, RunNode, Advance, FramesOk, AllBound, WellBehaved, Disciplined;
    if s.env.pending.Some? {
      RaiseGood(w, a, o, s.(env := s.env.(pending := None)), s.env.pending.value, "");
    } else if s.cursor != "" && s.cursor !in w.index {
      RaiseGood(w, a, o, s.(cursor := ""), RoutingError(s.current), "");
      StrayIsRaise(w, o, s);
    } else if s.cursor != "" {
      var n := w.index[s.cursor];
      var s1 := s.(current := n.id, env := s.env.(visits := s.env.visits + 1));
      var s2 := s1.(env := s1.env.(visited := s1.env.visited + [n.id]));
      assert ViewOf(s2.env, Iteration(s2.frames)) == ViewOf(s.env, Iteration(s.frames));
      if s1.env.visits <= s1.env.budget {
        if n.enabled {
          NodeGood(w, a, o, s2, n);
        } else {
          AdvanceGood(w, a, o, s2, n.id);
        }
      }
    }
  }
}
