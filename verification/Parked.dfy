// What becomes of an error that a `finally` parked: once the cleanup is over the error is pending again, and
// control moves on outwards. It is raised where control comes to rest, and lost if control falls off the graph.

module Parked {
  import opened Json
  import opened Blueprint
  import opened Machine
  import opened MainLoop
  import opened FrameStack

  /** No edge leads to the empty string, and no open body holds it. */
  ghost predicate NamedEdges(w: Workflow) {
    forall id :: id in w.index ==> w.index[id].next != Some("")
  }

  predicate FrameNamed(f: Frame) {
    "" !in f.ids && (f.LoopFrame? ==> f.ids != []) && (f.TryFrame? ==> "" !in f.finallyIds)
  }

  predicate FramesNamed(frames: seq<Frame>) {
    forall k :: 0 <= k < |frames| ==> FrameNamed(frames[k])
  }

  /** Whether the guard decides about another pass of this loop. */
  predicate GuardDecides(w: Workflow, f: Frame)
    requires f.LoopFrame?
  {
    && f.index + 1 < f.cap && f.index + 1 < f.total && f.whileMode
    && f.node in w.index && w.index[f.node].kind.Loop?
  }

  /** The loop has no pass left: its limit, its length, or its guard says so. */
  predicate NoPassLeft(w: Workflow, o: Oracle, f: Frame, env: Env)
    requires f.LoopFrame?
  {
    || f.index + 1 >= f.cap || f.index + 1 >= f.total
    || (f.whileMode && (GuardDecides(w, f) ==> o.guard(f.node, ViewOf(env, f.index)).result == Ok(false)))
  }

  /** Control that is done with `owner`, a node of this frame's body, goes on outwards past the frame. */
  predicate Passes(w: Workflow, o: Oracle, f: Frame, env: Env, owner: Id) {
    && !Escapes(w, f, owner)
    && !(0 <= IndexOf(f.ids, owner) < |f.ids| - 1)
    && match f
       case LoopFrame(_, _, _, _, _, _, _, _, _, _, _, _) => NoPassLeft(w, o, f, env)
       case TryFrame(_, _, _, _, phase, _, finallyIds, _, _, _) => phase == InFinally || finallyIds == []
       case BodyFrame(_, _, _, resume, _) => resume == ""
       case BranchFrame(_, _, _, _, _) => false
  }

  /** The environment past a frame: a guard may have answered, and an error parked in the frame is pending. */
  function Past(w: Workflow, o: Oracle, f: Frame, env: Env): Env {
    match f
    case LoopFrame(node, _, _, _, _, _, index, _, _, _, _, _) =>
      EraseLocals(if GuardDecides(w, f) then After(env, o.guard(node, ViewOf(env, index))) else env, f)
    case TryFrame(_, _, _, _, _, _, _, _, _, propagate) =>
      EraseLocals(Unparked(env, propagate), f)
    case _ => env
  }

  function Unparked(env: Env, parked: Option<Error>): Env {
    if parked.Some? then env.(pending := parked, locals := env.locals["error" := ErrorJson(parked.value)]) else env
  }

  /** The number of frames left when control, done with `owner`, comes to rest. */
  function RestsAt(w: Workflow, o: Oracle, frames: seq<Frame>, env: Env, owner: Id): (d: nat)
    ensures d <= |frames|
  {
    if frames == [] then 0
    else
      var f := frames[|frames| - 1];
      if Passes(w, o, f, env, owner) then RestsAt(w, o, frames[..|frames| - 1], Past(w, o, f, env), f.node)
          else |frames|
  }

  /** Control, done with `owner`, falls off: past every frame to an owner without successor, or off a branch. */
  predicate FallsOff(w: Workflow, o: Oracle, frames: seq<Frame>, env: Env, owner: Id) {
    if frames == [] then !(owner in w.index && w.index[owner].next.Some?)
    else
      var f := frames[|frames| - 1];
      if f.BranchFrame? then !Escapes(w, f, owner) && owner in f.ids && IndexOf(f.ids, owner) == |f.ids| - 1
      else Passes(w, o, f, env, owner) && FallsOff(w, o, frames[..|frames| - 1], Past(w, o, f, env), f.node)
  }

  /** The error parked in the outermost of the frames from `d` up that hold one, or else `pending`. */
  function Outermost(frames: seq<Frame>, d: nat, pending: Option<Error>): Option<Error>
    requires d <= |frames|
    decreases |frames| - d
  {
    if d == |frames| then pending
    else if frames[d].TryFrame? && frames[d].propagate.Some? then frames[d].propagate
    else Outermost(frames, d + 1, pending)
  }

  lemma {:induction false} OutermostDrop(frames: seq<Frame>, d: nat, pending: Option<Error>)
    requires d < |frames|
    ensures var f := frames[|frames| - 1];
            Outermost(frames, d, pending) ==
            Outermost(frames[..|frames| - 1], d, if f.TryFrame? && f.propagate.Some? then f.propagate else pending)
    decreases |frames| - d
  {
    if d < |frames| - 1 {
      OutermostDrop(frames, d + 1, pending);
    }
  }

  lemma PastPending(w: Workflow, o: Oracle, f: Frame, env: Env)
    ensures Past(w, o, f, env).pending == if f.TryFrame? && f.propagate.Some? then f.propagate else env.pending
  {
    hide ErrorJson;
  }

  // ------------------------------------------------------------------ one frame

  /** The run goes on: nothing ended it but a guard that threw, and it stands at a node. */
  predicate Rests(t: State) {
    && t.ending != Live.(status := Completed)
    && (t.finished ==> t.ending.thrown.Some? || t.cursor == "") && (!t.finished ==> t.cursor != "")
  }

  lemma LoopPasses(w: Workflow, o: Oracle, s: State, atEnd: bool)
    requires s.frames != [] && Top(s).LoopFrame? && FrameNamed(Top(s)) && !s.finished && s.ending == Live
    ensures var f := Top(s);
            var t := FinishBody(w, o, s, atEnd);
            if NoPassLeft(w, o, f, s.env) then
              t == Advance(w, o, Popped(s).(env := Past(w, o, f, s.env), current := f.node), f.node)
            else t.env.pending == s.env.pending && Rests(t)
  {
    var f := Top(s);
    FinishIsPass(w, o, s, atEnd);
    hide FinishBody, Advance, EraseLocals, ViewOf, EnterPass;
    if GuardDecides(w, f) {
      var r := o.guard(f.node, ViewOf(s.env, f.index));
      var s1 := s.(env := After(s.env, r));
      PassStands(s1, f);
      assert Popped(s).(env := EraseLocals(s1.env, f), current := f.node) ==
             Popped(s1).(env := EraseLocals(s1.env, f), current := f.node);
    } else if f.index + 1 < f.cap && f.index + 1 < f.total {
      PassStands(s, f);
    }
  }

  lemma FinishIsPass(w: Workflow, o: Oracle, s: State, atEnd: bool)
    requires s.frames != [] && Top(s).LoopFrame?
    ensures FinishBody(w, o, s, atEnd) == NextPass(w, o, s)
  {
    hide NextPass;
    assert s.(frames := s.frames[..|s.frames|]) == s;
  }

  lemma PassStands(s: State, f: Frame)
    requires s.frames != [] && f == Top(s) && f.LoopFrame? && FrameNamed(f) && !s.finished && s.ending == Live
    requires f.index + 1 < f.cap && f.index + 1 < f.total
    ensures EnterPass(s, f).env.pending == s.env.pending && Rests(EnterPass(s, f))
  {
    hide BindLocals;
    assert f.ids[0] in f.ids;
  }

  lemma TryPasses(w: Workflow, o: Oracle, s: State, atEnd: bool)
    requires s.frames != [] && Top(s).TryFrame? && FrameNamed(Top(s)) && !s.finished && s.ending == Live
    ensures var f := Top(s);
            var u := Advance(w, o, Popped(s).(env := Past(w, o, f, s.env), current := f.node), f.node);
            var t := FinishBody(w, o, s, atEnd);
            if f.phase == InFinally || f.finallyIds == [] then
              AdvanceTryPhase(w, o, s) == u && (u.cursor != "" || u.finished ==> t == u)
            else t.env.pending == s.env.pending && Rests(t)
  {
    hide Advance, ErrorJson;
    var f := Top(s);
    if f.phase != InFinally && f.finallyIds != [] {
      assert f.finallyIds[0] in f.finallyIds;
    }
  }

  // ------------------------------------------------------------------ every stack

  /** What is to be shown of a state `t` that control reached from these frames, done with `owner`. */
  predicate Carried(w: Workflow, o: Oracle, frames: seq<Frame>, env: Env, owner: Id, t: State) {
    && (t.ending == Live.(status := Completed) <==> FallsOff(w, o, frames, env, owner))
    && (t.ending == Live.(status := Completed) ==> t.finished)
    && (t.ending != Live.(status := Completed) ==> Rests(t))
    && t.env.pending == Outermost(frames, RestsAt(w, o, frames, env, owner), env.pending)
  }

  /** Where control goes once it is done with a node, and which error is pending there. */
  lemma {:induction false} AdvanceCarries(w: Workflow, o: Oracle, s: State, owner: Id)
    requires NamedEdges(w) && FramesNamed(s.frames) && !s.finished && s.ending == Live
    ensures Carried(w, o, s.frames, s.env, owner, Advance(w, o, s, owner))
    decreases |s.frames|, 1
  {
    hide NamedEdges, FinishBody, AdvanceTryPhase, Past, NoPassLeft, ResolveJump, Passes, Rests, Carried;
    if s.frames == [] {
      GraphCarries(w, o, s, owner);
    } else if Passes(w, o, Top(s), s.env, owner) {
      FrameCarries(w, o, s, owner);
    } else {
      FrameHolds(w, o, s, owner);
    }
  }

  lemma GraphCarries(w: Workflow, o: Oracle, s: State, owner: Id)
    requires NamedEdges(w) && s.frames == [] && !s.finished && s.ending == Live
    ensures Carried(w, o, s.frames, s.env, owner, Advance(w, o, s, owner))
  {
  }

  lemma FrameHolds(w: Workflow, o: Oracle, s: State, owner: Id)
    requires NamedEdges(w) && FramesNamed(s.frames) && !s.finished && s.ending == Live
    requires s.frames != [] && !Passes(w, o, Top(s), s.env, owner)
    ensures Carried(w, o, s.frames, s.env, owner, Advance(w, o, s, owner))
  {
    hide FinishBody, Past, NoPassLeft, GuardDecides;
    var f := Top(s);
    var k := IndexOf(f.ids, owner);
    assert FrameNamed(f);
    if !Escapes(w, f, owner) && !(0 <= k < |f.ids| - 1) {
      FinishHolds(w, o, s, owner);
    }
  }

  lemma FinishHolds(w: Workflow, o: Oracle, s: State, owner: Id)
    requires FramesNamed(s.frames) && !s.finished && s.ending == Live
    requires s.frames != [] && !Passes(w, o, Top(s), s.env, owner)
    requires !Escapes(w, Top(s), owner) && !(0 <= IndexOf(Top(s).ids, owner) < |Top(s).ids| - 1)
    ensures Carried(w, o, s.frames, s.env, owner, FinishBody(w, o, s, IndexOf(Top(s).ids, owner) >= 0))
  {
    hide NextIteration, AdvanceTryPhase, Advance, Past, NoPassLeft;
    var f := Top(s);
    var atEnd := IndexOf(f.ids, owner) >= 0;
    assert FrameNamed(f);
    if f.LoopFrame? {
      LoopPasses(w, o, s, atEnd);
    } else if f.TryFrame? {
      TryPasses(w, o, s, atEnd);
    }
  }

  /** The state past the top frame, before control is done with its owner. */
  function Beyond(w: Workflow, o: Oracle, s: State): State
    requires s.frames != []
  {
    var env := Past(w, o, Top(s), s.env);
    if Top(s).BodyFrame? then Popped(s).(env := env) else Popped(s).(env := env, current := Top(s).node)
  }

  lemma FinishPasses(w: Workflow, o: Oracle, s: State, owner: Id)
    requires FramesNamed(s.frames) && !s.finished && s.ending == Live
    requires s.frames != [] && Passes(w, o, Top(s), s.env, owner)
    ensures var u := Advance(w, o, Beyond(w, o, s), Top(s).node);
            (u.cursor != "" || u.finished) ==> Advance(w, o, s, owner) == u
  {
    hide AdvanceTryPhase, Past, NoPassLeft, NextIteration;
    var f := Top(s);
    var atEnd := IndexOf(f.ids, owner) >= 0;
    assert FrameNamed(f);
    assert Advance(w, o, s, owner) == FinishBody(w, o, s, atEnd);
    hide Advance;
    match f
    case LoopFrame(_, _, _, _, _, _, _, _, _, _, _, _) => LoopPasses(w, o, s, atEnd);
    case TryFrame(_, _, _, _, _, _, _, _, _, _) => TryPasses(w, o, s, atEnd);
    case BodyFrame(_, _, _, _, _) => PastBody(w, o, f, s.env);
    case BranchFrame(_, _, _, _, _) =>
  }

  lemma {:induction false} FrameCarries(w: Workflow, o: Oracle, s: State, owner: Id)
    requires NamedEdges(w) && FramesNamed(s.frames) && !s.finished && s.ending == Live
    requires s.frames != [] && Passes(w, o, Top(s), s.env, owner)
    ensures Carried(w, o, s.frames, s.env, owner, Advance(w, o, s, owner))
    decreases |s.frames|, 0
  {
    hide NamedEdges, Past, NoPassLeft, Advance;
    var f := Top(s);
    var below := s.frames[..|s.frames| - 1];
    var env := Past(w, o, f, s.env);
    assert FramesNamed(below);
    AdvanceCarries(w, o, Beyond(w, o, s), f.node);
    PastPending(w, o, f, s.env);
    OutermostDrop(s.frames, RestsAt(w, o, below, env, f.node), s.env.pending);
    FinishPasses(w, o, s, owner);
    hide FinishBody, Outermost;
  }

  lemma PastBody(w: Workflow, o: Oracle, f: Frame, env: Env)
    requires f.BodyFrame?
    ensures Past(w, o, f, env) == env
  {
  }

  // ------------------------------------------------------------------ a cleanup that ends

  /**
   * The cleanup of a try with a parked error has ended, on any stack. The error is lost and the session completes
   * exactly when control falls off the graph: the try and every owner around it come last in a body that is
   * left for good, down to a node without a successor. Otherwise an error is pending where control comes to
   * rest and is raised in the next round, unless a loop guard on the way threw one of its own. It is the parked
   * error, or that of the outermost try in its cleanup that control passed on the way.
   */
  lemma ParkedErrorLostIff(w: Workflow, o: Oracle, s: State)
    requires WellIndexed(w) && NamedEdges(w) && FramesNamed(s.frames) && !s.finished && s.ending == Live
    requires s.frames != [] && Top(s).TryFrame? && Top(s).phase == InFinally && Top(s).propagate.Some?
    ensures var f := Top(s);
            var below := s.frames[..|s.frames| - 1];
            var env := Past(w, o, f, s.env);
            var t := AdvanceTryPhase(w, o, s);
            var e := Outermost(below, RestsAt(w, o, below, env, f.node), f.propagate);
            && e.Some?
            && (t.finished && t.ending == Live.(status := Completed) <==> FallsOff(w, o, below, env, f.node))
            && (!t.finished ==> Step(w, o, t) == Raise(w, o, t.(env := t.env.(pending := None)), e.value, ""))
            && (t.finished && t.ending != Live.(status := Completed) ==> t.ending.thrown.Some? || t.cursor == "")
  {
    hide FinishBody, Advance, Past, FallsOff, RestsAt, Outermost, Raise, NamedEdges;
    var f := Top(s);
    assert FrameNamed(f);
    TryPasses(w, o, s, true);
    PastPending(w, o, f, s.env);
    var s1 := Popped(s).(env := Past(w, o, f, s.env), current := f.node);
    AdvanceCarries(w, o, s1, f.node);
    OutermostSome(s1.frames, RestsAt(w, o, s1.frames, s1.env, f.node), f.propagate);
  }

  lemma {:induction false} OutermostSome(frames: seq<Frame>, d: nat, pending: Option<Error>)
    requires d <= |frames| && pending.Some?
    ensures Outermost(frames, d, pending).Some?
    decreases |frames| - d
  {
    if d < |frames| && !(frames[d].TryFrame? && frames[d].propagate.Some?) {
      OutermostSome(frames, d + 1, pending);
    }
  }

  /** One try in its cleanup, without a successor: an input at which the parked error is lost. */
  lemma ParkedErrorCanBeLost(w: Workflow, o: Oracle, s: State, e: Error)
    requires WellIndexed(w) && NamedEdges(w) && FramesNamed(s.frames) && !s.finished && s.ending == Live
    requires |s.frames| == 1 && Top(s).TryFrame? && Top(s).phase == InFinally && Top(s).propagate == Some(e)
    requires Top(s).node in w.index && w.index[Top(s).node].next == None
    ensures AdvanceTryPhase(w, o, s).finished && AdvanceTryPhase(w, o, s).ending == Live.(status := Completed)
  {
    hide Past, AdvanceTryPhase;
    ParkedErrorLostIff(w, o, s);
  }

  // ------------------------------------------------------------------ no way past a cleanup

  /** A try that has a cleanup and has not come to it yet. */
  predicate Owes(f: Frame) {
    f.TryFrame? && f.phase != InFinally && f.finallyIds != []
  }

  predicate InCleanup(t: State, k: nat) {
    k < |t.frames| && t.frames[k].TryFrame? && t.frames[k].phase == InFinally &&
        t.frames[k].ids == t.frames[k].finallyIds
  }

  /** Frame `k` is still open, with its cleanup to come or under way. */
  predicate StillOwed(t: State, k: nat) {
    (k < |t.frames| && Owes(t.frames[k])) || InCleanup(t, k)
  }

  lemma OwedAfter(a: seq<Frame>, t: State, k: nat)
    requires k < |a| && Owes(a[k]) && k < |t.frames| && Evolves(a, t.frames)
    ensures StillOwed(t, k)
  {
    EvolvesKeeps(a, t.frames, k);
  }

  /** From depth `k` up no open body has a node with an edge out of it, and no frame is that of a branch. */
  predicate Sealed(w: Workflow, frames: seq<Frame>, k: nat) {
    && (forall j, id :: k <= j < |frames| && id in frames[j].ids ==> !Escapes(w, frames[j], id))
    && (forall j :: k <= j < |frames| ==> !frames[j].BranchFrame?)
  }

  /** What is needed of the graph and the stack to follow control outwards to frame `k`, a try that owes a cleanup. */
  ghost predicate Guarding(w: Workflow, frames: seq<Frame>, k: nat) {
    NamedEdges(w) && FramesNamed(frames) && Sealed(w, frames, k) && k < |frames| && Owes(frames[k])
  }

  lemma GuardingCut(w: Workflow, frames: seq<Frame>, k: nat, d: nat)
    requires Guarding(w, frames, k) && k < d <= |frames|
    ensures Guarding(w, frames[..d], k)
  {
    hide Escapes, FrameNamed, NamedEdges;
  }

  lemma GuardingTop(w: Workflow, frames: seq<Frame>, k: nat, owner: Id)
    requires Guarding(w, frames, k)
    ensures !Escapes(w, frames[|frames| - 1], owner) && !frames[|frames| - 1].BranchFrame?
    ensures FrameNamed(frames[|frames| - 1])
  {
    hide FrameNamed;
  }

  /** The run goes on with frame `k` open, unless a loop guard threw. */
  predicate Holds(t: State, k: nat) {
    if t.finished then t.ending.thrown.Some? else |t.frames| > k
  }

  /** Control at rest in a frame drops that frame only to follow the resume edge of a body. */
  lemma RestLength(w: Workflow, o: Oracle, s: State, owner: Id, k: nat)
    requires FramesNamed(s.frames) && !s.finished && s.ending == Live && s.frames != [] && !Top(s).BranchFrame?
    requires !Passes(w, o, Top(s), s.env, owner) && !Escapes(w, Top(s), owner)
    requires k < |s.frames| && Owes(s.frames[k])
    ensures Holds(Advance(w, o, s, owner), k)
  {
    hide Past, Advance, EraseLocals, ViewOf, BindLocals, ErrorJson, FinishBody;
    var f := Top(s);
    AdvanceIs(w, o, s, owner);
    assert FrameNamed(f);
    if !(0 <= IndexOf(f.ids, owner) < |f.ids| - 1) {
      FinishLength(w, o, s, owner, IndexOf(f.ids, owner) >= 0, k);
    }
  }

  lemma AdvanceIs(w: Workflow, o: Oracle, s: State, owner: Id)
    requires s.frames != [] && !Escapes(w, Top(s), owner)
    ensures var f := Top(s);
            var k := IndexOf(f.ids, owner);
            Advance(w, o, s, owner) ==
              if 0 <= k && k + 1 < |f.ids| then WithTop(s, AtPosition(f, k + 1)).(cursor := f.ids[k + 1])
              else FinishBody(w, o, s, k >= 0)
  {
    hide FinishBody;
  }

  lemma FinishLength(w: Workflow, o: Oracle, s: State, owner: Id, atEnd: bool, k: nat)
    requires s.frames != [] && FrameNamed(Top(s)) && !s.finished && !Passes(w, o, Top(s), s.env, owner)
    requires !Escapes(w, Top(s), owner) && !(0 <= IndexOf(Top(s).ids, owner) < |Top(s).ids| - 1)
    requires !Top(s).BranchFrame? && k < |s.frames| && Owes(s.frames[k])
    ensures Holds(FinishBody(w, o, s, atEnd), k)
  {
    hide Advance, EraseLocals, ViewOf, BindLocals, ErrorJson, NextIteration;
    var f := Top(s);
    match f
    case LoopFrame(_, _, _, _, _, _, _, _, _, _, _, _) => FinishIsPass(w, o, s, atEnd);
    case TryFrame(_, _, _, _, _, _, _, _, _, _) => assert f.finallyIds[0] in f.finallyIds;
    case _ =>
  }

  /** Control that goes on outwards does not pass a try that owes its cleanup. */
  lemma {:induction false} AdvanceStops(w: Workflow, o: Oracle, s: State, owner: Id, k: nat)
    requires Guarding(w, s.frames, k) && !s.finished && s.ending == Live
    ensures Holds(Advance(w, o, s, owner), k)
    decreases |s.frames|
  {
    hide Advance, FinishBody, Past, NamedEdges, Sealed, NoPassLeft, Escapes;
    var f := Top(s);
    GuardingTop(w, s.frames, k, owner);
    if Passes(w, o, f, s.env, owner) {
      GuardingCut(w, s.frames, k, |s.frames| - 1);
      AdvanceStops(w, o, Beyond(w, o, s), f.node, k);
      AdvanceCarries(w, o, Beyond(w, o, s), f.node);
      FinishPasses(w, o, s, owner);
    } else {
      RestLength(w, o, s, owner, k);
    }
  }

  /** A loop inside the try that ends lets control go on as far as the try. */
  lemma CloseStops(w: Workflow, o: Oracle, s: State, k: nat)
    requires Guarding(w, s.frames, k) && !s.finished && s.ending == Live && k < |s.frames| - 1
    ensures Holds(CloseFrame(w, o, s), k) && Holds(LeaveLoop(w, o, s, Top(s)), k)
  {
    hide Advance, Guarding, EraseLocals;
    GuardingCut(w, s.frames, k, |s.frames| - 1);
    AdvanceStops(w, o, Popped(s).(env := EraseLocals(s.env, Top(s)), current := Top(s).node), Top(s).node, k);
  }

  lemma PassStops(w: Workflow, o: Oracle, s: State, k: nat)
    requires Guarding(w, s.frames, k) && !s.finished && s.ending == Live && k < |s.frames| - 1 && Top(s).LoopFrame?
    ensures Holds(NextPass(w, o, s), k)
  {
    hide LeaveLoop, Guarding, ViewOf, BindIteration;
    var f := Top(s);
    CloseStops(w, o, s, k);
    CloseStops(w, o, s.(env := After(s.env, o.guard(f.node, ViewOf(s.env, f.index)))), k);
  }

  lemma LoopInside(frames: seq<Frame>, k: nat, name: Id)
    requires k < |frames| && Owes(frames[k]) && LoopDepth(frames, name) > k
    ensures LoopDepth(frames, name) > k + 1
  {
  }

  lemma NextStops(w: Workflow, o: Oracle, s: State, name: Id, k: nat)
    requires Guarding(w, s.frames, k) && !s.finished && s.ending == Live && LoopDepth(s.frames, name) > k
    ensures Holds(NextIteration(w, o, s, name).value, k)
    ensures Holds(FinishLoop(w, o, s, name).value, k)
  {
    hide NextPass, CloseFrame, Holds;
    var d := LoopDepth(s.frames, name);
    LoopInside(s.frames, k, name);
    GuardingCut(w, s.frames, k, d);
    hide Guarding;
    PassStops(w, o, s.(frames := s.frames[..d]), k);
    CloseStops(w, o, s.(frames := s.frames[..d]), k);
  }

  lemma RecoverStops(w: Workflow, o: Oracle, s: State, e: Error, k: nat)
    requires Guarding(w, s.frames, k) && !s.finished && s.ending == Live && k < |s.frames| - 1
    requires Top(s).TryFrame? && Top(s).phase == InBody
    ensures Holds(RecoverInTry(w, o, s, e), k)
  {
    hide CloseFrame, Guarding, BindError, Routed;
    CloseStops(w, o, s.(env := s.env.(pending := Some(e))), k);
  }

  // ------------------------------------------------------------------ errors and cleanups

  /**
   * The error does not reach past frame `k`: it is handled by a frame from there up, or the innermost loop, which
   * goes on when a loop further out skips errors, is one from there up, or the node's own handler stands there.
   */
  predicate Spared(w: Workflow, frames: seq<Frame>, current: Id, e: Error, k: nat) {
    if HasHandler(w, current) then JumpDepth(frames, w.index[current].onError.value) > k
    else
      var d := RecoverDepth(w, frames, e);
      d > k || (d > 0 && frames[d - 1].LoopFrame? && LoopDepth(frames, "") > k)
  }

  lemma SparedHolds(w: Workflow, o: Oracle, s: State, e: Error, blame: Id, k: nat)
    requires Guarding(w, s.frames, k) && !s.finished && s.ending == Live && Spared(w, s.frames, s.current, e, k)
    ensures Holds(Raise(w, o, s, e, blame), k)
  {
    hide NextIteration, RecoverInTry, BindIteration, Guarding, ErrorJson, AtPosition;
    if !HasHandler(w, s.current) {
      var d := RecoverDepth(w, s.frames, e);
      if s.frames[d - 1].LoopFrame? {
        assert IsLoopFor(s.frames[d - 1], "");
        NextStops(w, o, s, "", k);
      } else if d > k + 1 {
        GuardingCut(w, s.frames, k, d);
        RecoverStops(w, o, s.(frames := s.frames[..d]), e, k);
      } else {
        GuardedRecovers(w, o, s, e, k);
      }
    }
  }

  /** The try itself takes the error: to its catch, or to its cleanup with the error parked. */
  lemma GuardedRecovers(w: Workflow, o: Oracle, s: State, e: Error, k: nat)
    requires Guarding(w, s.frames, k) && !HasHandler(w, s.current) && RecoverDepth(w, s.frames, e) == k + 1
    ensures var r := HandleError(w, o, s, e);
            && r.Some? && r.value.finished == s.finished && |r.value.frames| == k + 1
            && r.value.frames[..k] == s.frames[..k] && Handling(w, s.frames[k], e, r.value.frames[k])
            && r.value.cursor == r.value.frames[k].ids[0]
  {
    hide BindError, NextIteration, Routed;
    NearestTryHandles(w, o, s, e);
  }

  lemma UnsparedDrops(w: Workflow, o: Oracle, s: State, e: Error, blame: Id, k: nat)
    requires k < |s.frames| && Owes(s.frames[k]) && !Spared(w, s.frames, s.current, e, k)
    ensures var t := Raise(w, o, s, e, blame); |t.frames| <= k || (t.finished && t.ending.failure.Some?)
  {
    hide NextPass, RecoverInTry, Unwinds, ErrorJson, BindIteration, AtPosition;
    if !HasHandler(w, s.current) {
      var d := RecoverDepth(w, s.frames, e);
      if d > 0 && s.frames[d - 1].LoopFrame? {
        var l := LoopDepth(s.frames, "");
        assert IsLoopFor(s.frames[d - 1], "");
        PassUnwinds(w, o, s.(frames := s.frames[..l]));
        UnwindsLength(s.frames[..l], NextPass(w, o, s.(frames := s.frames[..l])).frames);
      } else if d > 0 {
        RecoverUnwinds(w, o, s.(frames := s.frames[..d]), e);
        UnwindsLength(s.frames[..d], RecoverInTry(w, o, s.(frames := s.frames[..d]), e).frames);
      }
    }
  }

  lemma UnwindsLength(a: seq<Frame>, b: seq<Frame>)
    requires Unwinds(a, b)
    ensures |b| <= |a|
  {
  }

  /**
   * When an error skips a cleanup. Raised anywhere inside a try that owes one, it leaves the try open, with its
   * cleanup to come or under way, exactly when it is spared; otherwise the try is dropped, or the run fails, and
   * the cleanup never runs. If the try itself is the one to recover, it is in its body and goes to its catch, or to
   * its cleanup with the error parked.
   */
  lemma CleanupSkippedIff(w: Workflow, o: Oracle, s: State, e: Error, blame: Id, k: nat)
    requires Guarding(w, s.frames, k) && !s.finished && s.ending == Live
    ensures var t := Raise(w, o, s, e, blame);
            if Spared(w, s.frames, s.current, e, k) then
              if t.finished then t.ending.thrown.Some? else StillOwed(t, k)
            else |t.frames| <= k || (t.finished && t.ending.failure.Some?)
    ensures !HasHandler(w, s.current) && RecoverDepth(w, s.frames, e) == k + 1 ==>
              var t := Raise(w, o, s, e, blame);
              && !t.finished && |t.frames| == k + 1 && t.frames[..k] == s.frames[..k]
              && Handling(w, s.frames[k], e, t.frames[k]) && t.cursor == t.frames[k].ids[0]
  {
    hide HandleError, Spared, RecoverDepth, HasHandler, Handling, Unwinds;
    var t := Raise(w, o, s, e, blame);
    if Spared(w, s.frames, s.current, e, k) {
      SparedHolds(w, o, s, e, blame, k);
      if !t.finished {
        RaiseUnwinds(w, o, s, e, blame);
        OwedAfter(s.frames, t, k);
      }
    } else {
      UnsparedDrops(w, o, s, e, blame, k);
    }
    if !HasHandler(w, s.current) && RecoverDepth(w, s.frames, e) == k + 1 {
      GuardedRecovers(w, o, s, e, k);
    }
  }

  // ------------------------------------------------------------------ whole runs

  /** The error is spared, or nothing takes it and the run fails. */
  predicate Unhurt(w: Workflow, frames: seq<Frame>, current: Id, e: Error, k: nat) {
    Spared(w, frames, current, e, k) || (!HasHandler(w, current) && RecoverDepth(w, frames, e) == 0)
  }

  predicate LoopAbove(frames: seq<Frame>, name: Id, k: nat) {
    LoopDepth(frames, name) == 0 || LoopDepth(frames, name) > k
  }

  predicate TargetAbove(frames: seq<Frame>, target: Id, k: nat) {
    target == "" || JumpDepth(frames, target) > k
  }

  /** What comes of running this node does not reach frame `k` past the frames above it. */
  predicate NodeContained(w: Workflow, o: Oracle, s: State, n: Node, k: nat) {
    var v := ViewOf(s.env, Iteration(s.frames));
    match n.kind
    case Leaf(_, _) =>
      (match o.leaf(n.id, v).result
       case Err(e) => Unhurt(w, s.frames, n.id, e, k)
       case Ok(signal) =>
         && (signal.JumpTo? ==> TargetAbove(s.frames, signal.target, k))
         && (signal.LoopBreak? || signal.LoopContinue? ==> LoopAbove(s.frames, signal.loop, k)))
    case Loop(_, _, _, _, _) =>
      var r := o.items(n.id, v).result;
      r.Err? ==> Unhurt(w, s.frames, n.id, r.error, k)
    case Try(_, _, _, _, _) => true
    case Condition(onTrue, onFalse, a, b) =>
      var r := o.branch(n.id, v).result;
      if r.Err? then Unhurt(w, s.frames, n.id, r.error, k)
      else (if r.value then a else b) == [] ==> TargetAbove(s.frames, if r.value then onTrue else onFalse, k)
  }

  /** No error, jump, break or continue of this round reaches past the frames above frame `k`. */
  predicate Contained(w: Workflow, o: Oracle, s: State, k: nat) {
    if s.env.pending.Some? then Unhurt(w, s.frames, s.current, s.env.pending.value, k)
    else if s.cursor == "" then true
    else if s.cursor !in w.index then Unhurt(w, s.frames, s.current, RoutingError(s.current), k)
    else
      var n := w.index[s.cursor];
      s.env.visits < s.env.budget && n.enabled ==> NodeContained(w, o, s, n, k)
  }

  /** The round ends the run, or frame `k` stays open. */
  predicate Stays(t: State, k: nat) {
    t.finished || |t.frames| > k
  }

  lemma RaiseStays(w: Workflow, o: Oracle, s: State, e: Error, blame: Id, k: nat)
    requires Guarding(w, s.frames, k) && !s.finished && s.ending == Live && Unhurt(w, s.frames, s.current, e, k)
    ensures Stays(Raise(w, o, s, e, blame), k)
  {
    hide Guarding, NextIteration, RecoverInTry, ResolveJump, RecoverDepth, Spared;
    if Spared(w, s.frames, s.current, e, k) {
      hide Raise;
      SparedHolds(w, o, s, e, blame, k);
    }
  }

  lemma JumpStays(s: State, target: Id, k: nat)
    requires k < |s.frames| && TargetAbove(s.frames, target, k)
    ensures Stays(ResolveJump(s, target), k)
  {
    hide AtPosition, BindIteration;
  }

  lemma ObeyStays(w: Workflow, o: Oracle, s: State, n: Node, signal: Signal, k: nat)
    requires Guarding(w, s.frames, k) && !s.finished && s.ending == Live
    requires signal.JumpTo? ==> TargetAbove(s.frames, signal.target, k)
    requires signal.LoopBreak? || signal.LoopContinue? ==> LoopAbove(s.frames, signal.loop, k)
    ensures Stays(Obey(w, o, s, n, signal), k)
  {
    GuardingOpen(w, s.frames, k);
    hide Guarding, Advance, ResolveJump, FinishLoop, NextIteration, TargetAbove;
    match signal
    case Continue => AdvanceStops(w, o, s, n.id, k);
    case JumpTo(target) => JumpStays(s, target, k);
    case LoopBreak(name) => if LoopDepth(s.frames, name) > 0 { NextStops(w, o, s, name, k); }
    case LoopContinue(name) => if LoopDepth(s.frames, name) > 0 { NextStops(w, o, s, name, k); }
    case _ =>
  }

  lemma GuardingOpen(w: Workflow, frames: seq<Frame>, k: nat)
    requires Guarding(w, frames, k)
    ensures k < |frames| && Owes(frames[k])
  {
  }

  lemma EnterStays(s: State, f: Frame, k: nat)
    requires f.ids != [] && f.ids[0] != "" && k < |s.frames|
    ensures Stays(EnterBody(s, f), k)
  {
    hide BindIteration;
    assert f.ids[0] in f.ids;
    assert JumpDepth(s.frames + [f], f.ids[0]) == |s.frames| + 1;
  }

  lemma NodeStays(w: Workflow, o: Oracle, s: State, n: Node, k: nat)
    requires WellIndexed(w) && NamedBodies(w) && Guarding(w, s.frames, k) && !s.finished && s.ending == Live
    requires n.id in w.index && w.index[n.id] == n && s.current == n.id && NodeContained(w, o, s, n, k)
    ensures Stays(RunNode(w, o, s, n), k)
  {
    GuardingOpen(w, s.frames, k);
    hide Advance, EnterBody, Raise, Obey, ResolveJump, Guarding, BindLocals, ForgetAnswer, Unhurt, TargetAbove,
        LoopAbove,
      Stays;
    var v := ViewOf(s.env, Iteration(s.frames));
    match n.kind
    case Leaf(_, _) =>
      var r := o.leaf(n.id, v);
      var s1 := s.(env := After(s.env, r));
      if r.result.Ok? {
        ObeyStays(w, o, s1.(env := ForgetAnswer(s1.env, n.id)), n, r.result.value, k);
      } else {
        RaiseStays(w, o, s1, r.result.error, n.id, k);
      }
    case Loop(_, _, _, _, _) => LoopStays(w, o, s, n, k);
    case Try(_, _, _, _, _) => EnterStays(s, TryFrameFor(n), k);
    case Condition(_, _, _, _) => ConditionStays(w, o, s, n, k);
  }

  lemma LoopStays(w: Workflow, o: Oracle, s: State, n: Node, k: nat)
    requires WellIndexed(w) && NamedBodies(w) && Guarding(w, s.frames, k) && !s.finished && s.ending == Live
    requires n.id in w.index && w.index[n.id] == n && s.current == n.id && NodeContained(w, o, s, n, k) && n.kind.Loop?
    ensures n.kind.body != [] && Stays(StepLoop(w, o, s, n), k)
  {
    GuardingOpen(w, s.frames, k);
    hide Advance, EnterBody, Raise, Guarding, BindLocals, Unhurt;
    var r := o.items(n.id, ViewOf(s.env, Iteration(s.frames)));
    var s1 := s.(env := After(s.env, r));
    if r.result.Err? {
      RaiseStays(w, o, s1, r.result.error, n.id, k);
    } else {
      AdvanceStops(w, o, s1, n.id, k);
      var f := LoopFrameFor(n, r.result.value);
      EnterStays(s1.(env := BindIteration(s1.env, f)), f, k);
    }
  }

  lemma ConditionStays(w: Workflow, o: Oracle, s: State, n: Node, k: nat)
    requires WellIndexed(w) && NamedBodies(w) && Guarding(w, s.frames, k) && !s.finished && s.ending == Live
    requires n.id in w.index && w.index[n.id] == n && s.current == n.id && NodeContained(w, o, s, n, k)
    requires n.kind.Condition?
    ensures Stays(StepCondition(w, o, s, n), k)
  {
    GuardingOpen(w, s.frames, k);
    hide Advance, EnterBody, Raise, ResolveJump, Guarding, Unhurt, TargetAbove;
    var r := o.branch(n.id, ViewOf(s.env, Iteration(s.frames)));
    var s1 := s.(env := After(s.env, r));
    if r.result.Err? {
      RaiseStays(w, o, s1, r.result.error, n.id, k);
    } else {
      AdvanceStops(w, o, s1, n.id, k);
      var body := if r.result.value then n.kind.thenBody else n.kind.elseBody;
      if body != [] {
        EnterStays(s1, BodyFrame(n.id, body, 0, ResumeTarget(n), r.result.value), k);
      } else {
        JumpStays(s1, if r.result.value then n.kind.onTrue else n.kind.onFalse, k);
      }
    }
  }

  lemma StepStays(w: Workflow, o: Oracle, s: State, k: nat)
    requires WellIndexed(w) && NamedBodies(w) && Guarding(w, s.frames, k) && !s.finished && s.ending == Live
    requires Contained(w, o, s, k)
    ensures Stays(Step(w, o, s), k)
  {
    hide Advance, RunNode, Raise, HandleError, NamedBodies, Guarding, Unhurt;
    if s.env.pending.Some? {
      RaiseStays(w, o, s.(env := s.env.(pending := None)), s.env.pending.value, "", k);
    } else if s.cursor != "" && s.cursor !in w.index {
      RaiseStays(w, o, s.(cursor := ""), RoutingError(s.current), "", k);
      StrayIsRaise(w, o, s);
    } else if s.cursor != "" {
      var n := w.index[s.cursor];
      var s1 := s.(current := n.id, env := s.env.(visits := s.env.visits + 1));
      var s2 := s1.(env := s1.env.(visited := s1.env.visited + [n.id]));
      assert ViewOf(s2.env, Iteration(s2.frames)) == ViewOf(s.env, Iteration(s.frames));
      AdvanceStops(w, o, s2, n.id, k);
      if n.enabled && s.env.visits < s.env.budget {
        NodeStays(w, o, s2, n, k);
      }
    }
  }

  /** In the next `n` rounds nothing reaches past the frames above frame `k`, which are as inline bodies make them. */
  ghost predicate RoundsContained(w: Workflow, o: Oracle, s: State, n: nat, k: nat)
    requires WellIndexed(w)
  {
    forall m: nat :: m < n && !StepN(w, o, s, m).finished ==> RoundContained(w, o, StepN(w, o, s, m), k)
  }

  predicate RoundContained(w: Workflow, o: Oracle, s: State, k: nat) {
    s.ending == Live && FramesNamed(s.frames) && Sealed(w, s.frames, k) && Contained(w, o, s, k)
  }

  lemma RoundsContainedOn(w: Workflow, o: Oracle, s: State, n: nat, k: nat)
    requires WellIndexed(w) && !s.finished && RoundsContained(w, o, s, n + 1, k)
    ensures RoundContained(w, o, s, k) && RoundsContained(w, o, Step(w, o, s), n, k)
  {
    hide Step, RoundContained;
    assert StepN(w, o, s, 0) == s;
    forall m: nat | m < n && !StepN(w, o, Step(w, o, s), m).finished
      ensures RoundContained(w, o, StepN(w, o, Step(w, o, s), m), k)
    {
      assert StepN(w, o, s, m + 1) == StepN(w, o, Step(w, o, s), m);
    }
  }

  /** The run is in the cleanup of frame `k` after some of these rounds. */
  ghost predicate CleansUp(w: Workflow, o: Oracle, s: State, n: nat, k: nat)
    requires WellIndexed(w)
  {
    exists m: nat :: m <= n && InCleanup(StepN(w, o, s, m), k)
  }

  /**
   * No way past a cleanup: whatever errors, jumps, breaks and continues happen inside a try, as long as none reaches
   * past it the try stays open, with its cleanup still to come, until the cleanup starts or the run ends. That happens
   * once, as phases never go back.
   */
  lemma {:induction false} CleanupComesFirst(w: Workflow, o: Oracle, s: State, n: nat, k: nat)
    requires WellIndexed(w) && NamedEdges(w) && NamedBodies(w)
    requires k < |s.frames| && Owes(s.frames[k]) && RoundsContained(w, o, s, n, k)
    ensures var t := StepN(w, o, s, n);
            t.finished || (k < |t.frames| && Owes(t.frames[k])) || CleansUp(w, o, s, n, k)
    decreases n
  {
    hide Step, NamedEdges, NamedBodies, Sealed, FramesNamed, Contained, WellIndexed, Evolves, RoundsContained;
    if n > 0 && !s.finished {
      RoundsContainedOn(w, o, s, n - 1, k);
      var t := Step(w, o, s);
      StepStays(w, o, s, k);
      if !t.finished {
        StepEvolves(w, o, s);
        OwedAfter(s.frames, t, k);
        if Owes(t.frames[k]) {
          CleanupComesFirst(w, o, t, n - 1, k);
          if CleansUp(w, o, t, n - 1, k) {
            var m: nat :| m <= n - 1 && InCleanup(StepN(w, o, t, m), k);
            assert StepN(w, o, s, m + 1) == StepN(w, o, t, m);
          }
        } else {
          assert StepN(w, o, s, 1) == StepN(w, o, t, 0) == t;
          assert InCleanup(StepN(w, o, s, 1), k);
        }
      }
    }
  }
}
