// Suspending, storing and resuming a session is invisible to the rest of the run: a resumed run
// visits what the uninterrupted one would, as long as nodes read loop variables that are in scope.

module Resume {
  import opened Json
  import opened Blueprint
  import opened Machine
  import opened MainLoop
  import opened Bindings
  import opened Checkpoint

  // ------------------------------------------------------------------ states that differ in dead locals only

  predicate Agree(l1: map<string, Json>, l2: map<string, Json>, names: set<string>) {
    forall x :: x in names ==> (x in l1 <==> x in l2) && (x in l1 ==> l1[x] == l2[x])
  }

  /** Same control state, same context, same budget left, and the same values for every name in scope. */
  predicate Related(a: Scopes, s: State, t: State) {
    && s.frames == t.frames && s.cursor == t.cursor && s.current == t.current
    && s.finished == t.finished && s.ending == t.ending
    && s.env.vars == t.env.vars && s.env.world == t.env.world
    && s.env.pending == t.env.pending && s.env.resumeNode == t.env.resumeNode
    && s.env.budget - s.env.visits == t.env.budget - t.env.visits
    && Agree(s.env.locals, t.env.locals, Readable(s.frames) + a.locals)
  }

  predicate SameView(v1: View, v2: View, names: set<string>) {
    v1.vars == v2.vars && v1.world == v2.world && v1.iteration == v2.iteration && Agree(v1.locals, v2.locals, names)
  }

  /** Tasks and expressions read no local but the loop variables they are entitled to, and the pending answer. */
  ghost predicate ReadsScope(o: Oracle, a: Scopes) {
    && (forall id: Id, v1: View, v2: View :: SameView(v1, v2, a.needs(id) + a.locals) ==>
          && o.leaf(id, v1) == o.leaf(id, v2) && o.branch(id, v1) == o.branch(id, v2)
          && o.items(id, v1) == o.items(id, v2))
    && (forall id: Id, v1: View, v2: View :: SameView(v1, v2, a.guardNeeds(id) + a.locals) ==>
          o.guard(id, v1) == o.guard(id, v2))
  }

  ghost predicate Setting(w: Workflow, a: Scopes, o: Oracle) {
    Disciplined(w, a) && ReadsScope(o, a)
  }

  lemma AgreeBind(l1: map<string, Json>, l2: map<string, Json>, names: set<string>, f: Frame)
    requires Agree(l1, l2, names) && f.LoopFrame?
    ensures Agree(BindLocals(l1, f), BindLocals(l2, f), names)
  {
  }

  lemma {:induction false} ReadablePrefix(frames: seq<Frame>, d: nat)
    requires d <= |frames|
    ensures Readable(frames[..d]) <= Readable(frames)
  {
    if d < |frames| {
      ReadablePrefix(frames[..|frames| - 1], d);
      assert frames[..|frames| - 1][..d] == frames[..d];
    } else {
      assert frames[..d] == frames;
    }
  }

  lemma RelPrefix(a: Scopes, s: State, t: State, d: nat)
    requires Related(a, s, t) && d <= |s.frames|
    ensures Related(a, s.(frames := s.frames[..d]), t.(frames := t.frames[..d]))
  {
    hide Readable;
    ReadablePrefix(s.frames, d);
  }

  lemma RelErase(a: Scopes, s: State, t: State, f: Frame, current: Id)
    requires Related(a, s, t) && s.frames != []
    ensures Related(a, Popped(s), Popped(t))
    ensures Related(a, Popped(s).(env := EraseLocals(s.env, f), current := current),
                    Popped(t).(env := EraseLocals(t.env, f), current := current))
  {
    hide Readable, ErasedNames;
    ReadablePrefix(s.frames, |s.frames| - 1);
  }

  lemma RelJump(a: Scopes, s: State, t: State, target: Id)
    requires Related(a, s, t)
    ensures Related(a, ResolveJump(s, target), ResolveJump(t, target))
  {
    hide Readable, AtPosition, BindLocals, IndexOf;
    var d := JumpDepth(s.frames, target);
    if target != "" && d > 0 {
      var f := AtPosition(s.frames[d - 1], IndexOf(s.frames[d - 1].ids, target));
      ReadablePrefix(s.frames, d);
      assert s.frames[..d] == s.frames[..d - 1] + [s.frames[d - 1]];
      NamesPush(s.frames[..d - 1], s.frames[d - 1]);
      NamesPush(s.frames[..d - 1], f);
      SameBinds(s.frames[d - 1], IndexOf(s.frames[d - 1].ids, target));
      if f.LoopFrame? {
        AgreeBind(s.env.locals, t.env.locals, Readable(s.frames[..d - 1] + [f]) + a.locals, f);
      }
    } else if target != "" {
      NothingTaken();
    }
  }

  lemma SameBinds(f: Frame, k: int)
    ensures FrameBinds(AtPosition(f, k)) == FrameBinds(f)
  {
  }

  lemma RelTop(a: Scopes, s: State, t: State, g: Frame, cursor: Id)
    requires Related(a, s, t) && s.frames != [] && FrameBinds(g) == FrameBinds(Top(s))
    ensures Related(a, WithTop(s, g).(cursor := cursor), WithTop(t, g).(cursor := cursor))
    ensures g.LoopFrame? ==>
              Related(a, WithTop(s, g).(env := BindIteration(s.env, g), cursor := cursor),
                      WithTop(t, g).(env := BindIteration(t.env, g), cursor := cursor))
  {
    hide BindLocals, FrameBinds;
    var below := s.frames[..|s.frames| - 1];
    assert s.frames == below + [Top(s)];
    NamesPush(below, Top(s));
    NamesPush(below, g);
    if g.LoopFrame? {
      AgreeBind(s.env.locals, t.env.locals, Readable(s.frames) + a.locals, g);
    }
  }

  // ------------------------------------------------------------------ routing treats related states alike

  lemma {:induction false} RelAdvance(w: Workflow, a: Scopes, o: Oracle, s: State, t: State, current: Id)
    requires Setting(w, a, o) && Kept(a, s) && Related(a, s, t)
    ensures Related(a, Advance(w, o, s, current), Advance(w, o, t, current))
    decreases StackWeight(s.frames), 4
  {
    hide FinishBody, ResolveJump, AtPosition, FramesOk, AllBound, Readable, Agree, Setting;
    if s.frames != [] {
      var f := Top(s);
      var k := IndexOf(f.ids, current);
      if Escapes(w, f, current) {
        RelJump(a, s, t, w.index[current].next.value);
      } else if 0 <= k && k + 1 < |f.ids| {
        SameBinds(f, k + 1);
        RelTop(a, s, t, AtPosition(f, k + 1), f.ids[k + 1]);
      } else {
        RelFinish(w, a, o, s, t, k >= 0);
      }
    }
  }

  lemma {:induction false} RelClose(w: Workflow, a: Scopes, o: Oracle, s: State, t: State)
    requires Setting(w, a, o) && Kept(a, s) && Related(a, s, t) && s.frames != []
    ensures Related(a, CloseFrame(w, o, s), CloseFrame(w, o, t))
    ensures Related(a, LeaveLoop(w, o, s, Top(s)), LeaveLoop(w, o, t, Top(t)))
    decreases StackWeight(s.frames), 1
  {
    hide Advance, FramesOk, AllBound, Agree, Readable, Setting;
    PopGood(a, s);
    WeightPrefix(s.frames, |s.frames| - 1);
    RelErase(a, s, t, Top(s), Top(s).node);
    RelAdvance(w, a, o, Popped(s).(env := EraseLocals(s.env, Top(s)), current := Top(s).node),
               Popped(t).(env := EraseLocals(t.env, Top(s)), current := Top(s).node), Top(s).node);
  }

  lemma {:induction false} RelFinish(w: Workflow, a: Scopes, o: Oracle, s: State, t: State, atEnd: bool)
    requires Setting(w, a, o) && Kept(a, s) && Related(a, s, t) && s.frames != []
    ensures Related(a, FinishBody(w, o, s, atEnd), FinishBody(w, o, t, atEnd))
    decreases StackWeight(s.frames), 3
  {
    hide Advance, AdvanceTryPhase, NextIteration, FramesOk, AllBound, Agree, Readable, Setting, TopOk, FitAll;
    var f := Top(s);
    WeightPrefix(s.frames, |s.frames| - 1);
    PopGood(a, s);
    RelErase(a, s, t, f, f.node);
    match f
    case LoopFrame(_, _, _, _, _, _, _, _, _, _, _, _) =>
      RelNext(w, a, o, s, t, "");
    case TryFrame(_, _, _, _, _, _, _, _, _, _) =>
      RelPhase(w, a, o, s, t);
      SettingDisciplined(w, a, o);
      PhaseGood(w, a, o, s);
      var s1, t1 := AdvanceTryPhase(w, o, s), AdvanceTryPhase(w, o, t);
      if !s1.finished {
        RelAdvance(w, a, o, s1, t1, f.node);
      }
    case BranchFrame(_, _, _, _, _) =>
    case BodyFrame(_, _, _, _, _) =>
      RelAdvance(w, a, o, Popped(s), Popped(t), f.node);
  }

  lemma SettingDisciplined(w: Workflow, a: Scopes, o: Oracle)
    requires Setting(w, a, o)
    ensures Disciplined(w, a)
  {
  }

  lemma RelErrorLocal(a: Scopes, s: State, t: State, pending: Option<Error>, j: Json)
    requires Related(a, s, t)
    ensures Related(a, s.(env := s.env.(pending := pending, locals := s.env.locals["error" := j])),
                    t.(env := t.env.(pending := pending, locals := t.env.locals["error" := j])))
  {
    hide Readable;
  }

  lemma {:induction false} RelPhase(w: Workflow, a: Scopes, o: Oracle, s: State, t: State)
    requires Setting(w, a, o) && Kept(a, s) && Related(a, s, t) && s.frames != [] && Top(s).TryFrame?
    ensures Related(a, AdvanceTryPhase(w, o, s), AdvanceTryPhase(w, o, t))
    decreases StackWeight(s.frames), 2
  {
    hide CloseFrame, ErrorJson, FramesOk, AllBound, Agree, Readable, Setting;
    var f := Top(s);
    if f.phase != InFinally && f.finallyIds != [] {
      RelTop(a, s, t, f.(phase := InFinally, ids := f.finallyIds, position := 0), f.finallyIds[0]);
    } else if f.propagate.Some? {
      var j := ErrorJson(f.propagate.value);
      ErrorLocalGood(a, s, j);
      RelErrorLocal(a, s, t, f.propagate, j);
      RelClose(w, a, o, s.(env := s.env.(pending := f.propagate, locals := s.env.locals["error" := j])),
               t.(env := t.env.(pending := f.propagate, locals := t.env.locals["error" := j])));
    } else {
      RelClose(w, a, o, s, t);
    }
  }

  lemma SameGuard(w: Workflow, a: Scopes, o: Oracle, s: State, t: State)
    requires Setting(w, a, o) && Kept(a, s) && Related(a, s, t) && s.frames != [] && Top(s).LoopFrame?
    ensures var f := Top(s);
            o.guard(f.node, ViewOf(s.env, f.index)) == o.guard(f.node, ViewOf(t.env, f.index))
  {
    hide Readable, Disciplined;
    TopIsOk(a, s.frames);
    var f := Top(s);
    assert SameView(ViewOf(s.env, f.index), ViewOf(t.env, f.index), a.guardNeeds(f.node) + a.locals);
  }

  lemma KeptAfter<T>(a: Scopes, s: State, r: Reply<T>)
    requires Kept(a, s)
    ensures Kept(a, s.(env := After(s.env, r)))
  {
    hide FramesOk, AllBound;
  }

  /** Whether the top loop asks its guard before another pass. */
  predicate AsksGuard(w: Workflow, f: Frame) {
    && f.LoopFrame? && f.index + 1 < f.cap && f.index + 1 < f.total && f.whileMode
    && f.node in w.index && w.index[f.node].kind.Loop?
  }

  lemma {:induction false} RelGuard(w: Workflow, a: Scopes, o: Oracle, s: State, t: State)
    requires Setting(w, a, o) && Kept(a, s) && Related(a, s, t) && s.frames != [] && AsksGuard(w, Top(s))
    ensures Related(a, NextPass(w, o, s), NextPass(w, o, t))
    decreases StackWeight(s.frames), 2, 0
  {
    hide LeaveLoop, Halt, ViewOf, Kept, EnterPass, Related, Setting;
    var f := Top(s);
    var r := o.guard(f.node, ViewOf(s.env, f.index));
    SameGuard(w, a, o, s, t);
    RelAfter(a, s, t, r, Live.(thrown := if r.result.Err? then Some(r.result.error) else None));
    var s1, t1 := s.(env := After(s.env, r)), t.(env := After(t.env, r));
    KeptAfter(a, s, r);
    RelClose(w, a, o, s1, t1);
    RelEnterPass(a, s1, t1, f);
  }

  lemma {:induction false} RelPass(w: Workflow, a: Scopes, o: Oracle, s: State, t: State)
    requires Setting(w, a, o) && Kept(a, s) && Related(a, s, t) && s.frames != [] && Top(s).LoopFrame?
    ensures Related(a, NextPass(w, o, s), NextPass(w, o, t))
    decreases StackWeight(s.frames), 2, 1
  {
    hide LeaveLoop, Kept, EnterPass, Related, Setting;
    var f := Top(s);
    RelatedFrames(a, s, t);
    if AsksGuard(w, f) {
      RelGuard(w, a, o, s, t);
    } else {
      RelClose(w, a, o, s, t);
      if f.index + 1 < f.cap && f.index + 1 < f.total {
        RelEnterPass(a, s, t, f);
      }
    }
  }

  lemma RelEnterPass(a: Scopes, s: State, t: State, f: Frame)
    requires Related(a, s, t) && s.frames != [] && f == Top(s) && f.LoopFrame?
    requires f.index + 1 < f.cap && f.index + 1 < f.total
    ensures Related(a, EnterPass(s, f), EnterPass(t, f))
  {
    hide Related, BindIteration;
    RelTop(a, s, t, f.(index := f.index + 1, position := 0), if f.ids == [] then "" else f.ids[0]);
    RelatedFrames(a, s, t);
  }

  lemma RelAfter<T>(a: Scopes, s: State, t: State, r: Reply<T>, ending: Ending)
    requires Related(a, s, t)
    ensures s.frames == t.frames
    ensures Related(a, s.(env := After(s.env, r)), t.(env := After(t.env, r)))
    ensures Related(a, Halt(s.(env := After(s.env, r)), ending), Halt(t.(env := After(t.env, r)), ending))
  {
    hide Readable, Agree;
  }

  lemma RelPending(a: Scopes, s: State, t: State, pending: Option<Error>)
    requires Related(a, s, t)
    ensures Related(a, s.(env := s.env.(pending := pending)), t.(env := t.env.(pending := pending)))
  {
    hide Readable, Agree;
  }

  lemma RelatedFrames(a: Scopes, s: State, t: State)
    requires Related(a, s, t)
    ensures s.frames == t.frames
  {
  }

  lemma {:induction false} RelNext(w: Workflow, a: Scopes, o: Oracle, s: State, t: State, name: Id)
    requires Setting(w, a, o) && Kept(a, s) && Related(a, s, t)
    ensures NextIteration(w, o, s, name).Some? == NextIteration(w, o, t, name).Some?
    ensures NextIteration(w, o, s, name).Some? ==>
              Related(a, NextIteration(w, o, s, name).value, NextIteration(w, o, t, name).value)
    decreases StackWeight(s.frames), 2, 2
  {
    hide NextPass, FramesOk, AllBound, Agree, Readable, Setting;
    var d := LoopDepth(s.frames, name);
    if d > 0 {
      WeightPrefix(s.frames, d);
      PrefixKept(a, s, d);
      RelPrefix(a, s, t, d);
      RelPass(w, a, o, s.(frames := s.frames[..d]), t.(frames := t.frames[..d]));
    }
  }

  lemma RelBreak(w: Workflow, a: Scopes, o: Oracle, s: State, t: State, name: Id)
    requires Setting(w, a, o) && Kept(a, s) && Related(a, s, t)
    ensures FinishLoop(w, o, s, name).Some? == FinishLoop(w, o, t, name).Some?
    ensures FinishLoop(w, o, s, name).Some? ==>
              Related(a, FinishLoop(w, o, s, name).value, FinishLoop(w, o, t, name).value)
  {
    hide CloseFrame, FramesOk, AllBound, Agree, Readable, Setting;
    var d := LoopDepth(s.frames, name);
    if d > 0 {
      PrefixKept(a, s, d);
      RelPrefix(a, s, t, d);
      RelClose(w, a, o, s.(frames := s.frames[..d]), t.(frames := t.frames[..d]));
    }
  }

  lemma RelBindError(a: Scopes, s: State, t: State, name: string, e: Error)
    requires Related(a, s, t)
    ensures Related(a, s.(env := BindError(s.env, name, e)), t.(env := BindError(t.env, name, e)))
  {
    hide Readable, ErrorJson;
  }

  lemma RelRecover(w: Workflow, a: Scopes, o: Oracle, s: State, t: State, e: Error)
    requires Setting(w, a, o) && Kept(a, s) && Related(a, s, t)
    requires s.frames != [] && Top(s).TryFrame? && Top(s).phase == InBody
    ensures Related(a, RecoverInTry(w, o, s, e), RecoverInTry(w, o, t, e))
  {
    hide CloseFrame, BindError, FramesOk, AllBound, Related, Setting, Routed;
    RelatedFrames(a, s, t);
    RelPending(a, s, t, Some(e));
    var f := Top(s);
    var routed := Routed(w, f, e.code);
    var handlers := if routed != "" then [routed] else f.catchIds;
    if handlers != [] {
      var g := f.(phase := InCatch, ids := handlers, position := 0);
      RelTop(a, s, t, g, handlers[0]);
      RelBindError(a, WithTop(s, g).(cursor := handlers[0]), WithTop(t, g).(cursor := handlers[0]), f.errorVar, e);
    } else if f.finallyIds != [] {
      RelTop(a, s, t, f.(phase := InFinally, ids := f.finallyIds, position := 0, propagate := Some(e)),
             f.finallyIds[0]);
    } else {
      RelClose(w, a, o, s.(env := s.env.(pending := Some(e))), t.(env := t.env.(pending := Some(e))));
    }
  }

  lemma RelRaise(w: Workflow, a: Scopes, o: Oracle, s: State, t: State, e: Error, blame: Id)
    requires Setting(w, a, o) && Kept(a, s) && Related(a, s, t)
    ensures Related(a, Raise(w, o, s, e, blame), Raise(w, o, t, e, blame))
  {
    hide ResolveJump, NextIteration, RecoverInTry, FramesOk, AllBound, Agree, Readable, Setting, ErrorJson;
    if HasHandler(w, s.current) {
      RelErrorLocal(a, s, t, s.env.pending, ErrorJson(e));
      RelJump(a, s.(env := s.env.(locals := s.env.locals["error" := ErrorJson(e)])),
              t.(env := t.env.(locals := t.env.locals["error" := ErrorJson(e)])), w.index[s.current].onError.value);
    } else {
      var d := RecoverDepth(w, s.frames, e);
      if d > 0 && s.frames[d - 1].LoopFrame? {
        RelNext(w, a, o, s, t, "");
      } else if d > 0 {
        PrefixKept(a, s, d);
        RelPrefix(a, s, t, d);
        RelRecover(w, a, o, s.(frames := s.frames[..d]), t.(frames := t.frames[..d]), e);
      }
    }
  }

  // ------------------------------------------------------------------ nodes and rounds

  lemma RelEnter(a: Scopes, s: State, t: State, f: Frame)
    requires Related(a, s, t) && f.ids != []
    requires Agree(s.env.locals, t.env.locals, Readable(s.frames + [f]) + a.locals)
    ensures Related(a, EnterBody(s, f), EnterBody(t, f))
  {
    hide Readable, ResolveJump, Agree;
    RelJump(a, s.(frames := s.frames + [f]), t.(frames := t.frames + [f]), f.ids[0]);
  }

  /** The names a fresh pass binds agree afterwards, whatever they were before. */
  lemma FreshPassAgrees(a: Scopes, frames: seq<Frame>, f: Frame, l1: map<string, Json>, l2: map<string, Json>)
    requires f.LoopFrame? && TopOk(a, frames + [f]) && Agree(l1, l2, Readable(frames) + a.locals)
    ensures Agree(BindLocals(l1, f), BindLocals(l2, f), Readable(frames + [f]) + a.locals)
  {
    TopBindsItem(a, frames, f);
    hide TopOk;
    NamesPush(frames, f);
    AgreeBind(l1, l2, Readable(frames) + a.locals, f);
  }

  lemma TopBindsItem(a: Scopes, frames: seq<Frame>, f: Frame)
    requires f.LoopFrame? && TopOk(a, frames + [f])
    ensures !f.whileMode ==> 0 <= f.index < |f.items|
  {
  }

  lemma PlainFrameAgrees(a: Scopes, frames: seq<Frame>, f: Frame, l1: map<string, Json>, l2: map<string, Json>)
    requires !f.LoopFrame? && Agree(l1, l2, Readable(frames) + a.locals)
    ensures Agree(l1, l2, Readable(frames + [f]) + a.locals)
  {
    NamesPush(frames, f);
  }

  lemma SameAnswers(w: Workflow, a: Scopes, o: Oracle, s: State, t: State, id: Id)
    requires Setting(w, a, o) && Related(a, s, t) && Fits(a, id, s.frames)
    ensures var v1 := ViewOf(s.env, Iteration(s.frames));
            var v2 := ViewOf(t.env, Iteration(t.frames));
            && o.leaf(id, v1) == o.leaf(id, v2) && o.branch(id, v1) == o.branch(id, v2)
            && o.items(id, v1) == o.items(id, v2)
  {
    hide Readable, Disciplined;
    assert SameView(ViewOf(s.env, Iteration(s.frames)), ViewOf(t.env, Iteration(t.frames)), a.needs(id) + a.locals);
  }

  lemma RelForget(a: Scopes, s: State, t: State, id: Id)
    requires Related(a, s, t)
    ensures Related(a, s.(env := ForgetAnswer(s.env, id)), t.(env := ForgetAnswer(t.env, id)))
  {
    hide Readable;
  }

  lemma RelObey(w: Workflow, a: Scopes, o: Oracle, s: State, t: State, n: Node, signal: Signal)
    requires Setting(w, a, o) && Kept(a, s) && Related(a, s, t)
    ensures Related(a, Obey(w, o, s, n, signal), Obey(w, o, t, n, signal))
  {
    hide Advance, ResolveJump, FinishLoop, NextIteration, FramesOk, AllBound, Agree, Readable, Setting;
    match signal
    case Continue => RelAdvance(w, a, o, s, t, n.id);
    case JumpTo(target) => RelJump(a, s, t, target);
    case LoopBreak(name) => RelBreak(w, a, o, s, t, name);
    case LoopContinue(name) => RelNext(w, a, o, s, t, name);
    case _ =>
  }

  lemma RelLeaf(w: Workflow, a: Scopes, o: Oracle, s: State, t: State, n: Node)
    requires Setting(w, a, o) && Kept(a, s) && Related(a, s, t) && Fits(a, n.id, s.frames)
    ensures Related(a, StepLeaf(w, o, s, n), StepLeaf(w, o, t, n))
  {
    hide Raise, Obey, FramesOk, AllBound, Agree, Readable, Setting, ForgetAnswer, Fits;
    SameAnswers(w, a, o, s, t, n.id);
    var r := o.leaf(n.id, ViewOf(s.env, Iteration(s.frames)));
    var s1, t1 := s.(env := After(s.env, r)), t.(env := After(t.env, r));
    if r.result.Ok? {
      ForgetGood(a, s1, n.id);
      RelForget(a, s1, t1, n.id);
      RelObey(w, a, o, s1.(env := ForgetAnswer(s1.env, n.id)), t1.(env := ForgetAnswer(t1.env, n.id)), n,
              r.result.value);
    } else {
      RelRaise(w, a, o, s1, t1, r.result.error, n.id);
    }
  }

  lemma RelLoop(w: Workflow, a: Scopes, o: Oracle, s: State, t: State, n: Node)
    requires Setting(w, a, o) && WellBehaved(o, a) && Kept(a, s) && Related(a, s, t) && Fits(a, n.id, s.frames)
    requires n.kind.Loop? && n.kind.body != [] && DisciplinedNode(a, n)
    ensures Related(a, StepLoop(w, o, s, n), StepLoop(w, o, t, n))
  {
    hide Raise, Advance, EnterBody, FramesOk, AllBound, Agree, Readable, Setting, BindLocals, TopOk, Iteration, Fits;
    SameAnswers(w, a, o, s, t, n.id);
    var r := o.items(n.id, ViewOf(s.env, Iteration(s.frames)));
    var s1, t1 := s.(env := After(s.env, r)), t.(env := After(t.env, r));
    if r.result.Err? {
      RelRaise(w, a, o, s1, t1, r.result.error, n.id);
    } else if r.result.value == Some([]) {
      RelAdvance(w, a, o, s1, t1, n.id);
    } else {
      var f := LoopFrameFor(n, r.result.value);
      LoopFrameOk(a, n, r.result.value, s.frames);
      FreshPassAgrees(a, s.frames, f, s1.env.locals, t1.env.locals);
      AgreeBind(s1.env.locals, t1.env.locals, Readable(s.frames) + a.locals, f);
      RelEnter(a, s1.(env := BindIteration(s1.env, f)), t1.(env := BindIteration(t1.env, f)), f);
    }
  }

  lemma RelCondition(w: Workflow, a: Scopes, o: Oracle, s: State, t: State, n: Node)
    requires Setting(w, a, o) && Kept(a, s) && Related(a, s, t) && Fits(a, n.id, s.frames) && n.kind.Condition?
    ensures Related(a, StepCondition(w, o, s, n), StepCondition(w, o, t, n))
  {
    hide Raise, Advance, EnterBody, ResolveJump, FramesOk, AllBound, Agree, Readable, Setting, Iteration, Fits;
    SameAnswers(w, a, o, s, t, n.id);
    var r := o.branch(n.id, ViewOf(s.env, Iteration(s.frames)));
    var s1, t1 := s.(env := After(s.env, r)), t.(env := After(t.env, r));
    if r.result.Err? {
      RelRaise(w, a, o, s1, t1, r.result.error, n.id);
    } else {
      var body := if r.result.value then n.kind.thenBody else n.kind.elseBody;
      RelAdvance(w, a, o, s1, t1, n.id);
      RelJump(a, s1, t1, if r.result.value then n.kind.onTrue else n.kind.onFalse);
      if body != [] {
        var f := BodyFrame(n.id, body, 0, ResumeTarget(n), r.result.value);
        PlainFrameAgrees(a, s.frames, f, s1.env.locals, t1.env.locals);
        RelEnter(a, s1, t1, f);
      }
    }
  }

  lemma RelNode(w: Workflow, a: Scopes, o: Oracle, s: State, t: State, n: Node)
    requires WellIndexed(w) && Setting(w, a, o) && WellBehaved(o, a) && Kept(a, s) && Related(a, s, t)
    requires Fits(a, n.id, s.frames) && n.id in w.index && w.index[n.id] == n
    ensures Related(a, RunNode(w, o, s, n), RunNode(w, o, t, n))
  {
    assert DisciplinedNode(a, n);
    hide StepLeaf, StepLoop, StepCondition, EnterBody, FramesOk, AllBound, Agree, Readable, Setting, WellBehaved, Fits;
    match n.kind
    case Leaf(_, _) => RelLeaf(w, a, o, s, t, n);
    case Loop(_, _, _, _, _) => RelLoop(w, a, o, s, t, n);
    case Try(_, _, _, _, _) =>
      PlainFrameAgrees(a, s.frames, TryFrameFor(n), s.env.locals, t.env.locals);
      RelEnter(a, s, t, TryFrameFor(n));
    case Condition(_, _, _, _) => RelCondition(w, a, o, s, t, n);
  }

  lemma RelStray(w: Workflow, a: Scopes, o: Oracle, s: State, t: State)
    requires Setting(w, a, o) && Kept(a, s) && Related(a, s, t)
    ensures Related(a, Stray(w, o, s), Stray(w, o, t))
  {
    hide Raise, FramesOk, AllBound, Agree, Readable, Setting, ResolveJump, NextIteration, RecoverInTry, ErrorJson;
    RelRaise(w, a, o, s.(cursor := ""), t.(cursor := ""), RoutingError(s.current), "");
    StrayIsRaise(w, o, s);
    StrayIsRaise(w, o, t);
    hide Stray;
  }

  /** Related states take related rounds, and visit the same nodes. */
  lemma RelStep(w: Workflow, a: Scopes, o: Oracle, s: State, t: State)
    requires WellIndexed(w) && Setting(w, a, o) && WellBehaved(o, a) && Good(a, s) && Related(a, s, t) && !s.finished
    ensures Related(a, Step(w, o, s), Step(w, o, t))
    ensures exists more :: Step(w, o, s).env.visited == s.env.visited + more &&
                           Step(w, o, t).env.visited == t.env.visited + more
  {
    hide Raise, Stray, RunNode, Advance, FramesOk, AllBound, WellBehaved, Setting, Agree, Readable;
    if s.env.pending.Some? || s.cursor !in w.index {
      assert Step(w, o, s).env.visited == s.env.visited + [];
      assert Step(w, o, t).env.visited == t.env.visited + [];
    }
    if s.env.pending.Some? {
      RelRaise(w, a, o, s.(env := s.env.(pending := None)), t.(env := t.env.(pending := None)), s.env.pending.value,
               "");
    } else if s.cursor != "" && s.cursor !in w.index {
      RelStray(w, a, o, s, t);
    } else if s.cursor != "" {
      var n := w.index[s.cursor];
      var s1 := s.(current := n.id, env := s.env.(visits := s.env.visits + 1));
      var t1 := t.(current := n.id, env := t.env.(visits := t.env.visits + 1));
      var s2 := s1.(env := s1.env.(visited := s1.env.visited + [n.id]));
      var t2 := t1.(env := t1.env.(visited := t1.env.visited + [n.id]));
      if s1.env.visits <= s1.env.budget {
        if n.enabled {
          RelNode(w, a, o, s2, t2, n);
        } else {
          RelAdvance(w, a, o, s2, t2, n.id);
        }
      } else {
        assert Step(w, o, s).env.visited == s.env.visited + [];
        assert Step(w, o, t).env.visited == t.env.visited + [];
      }
    }
  }

  /** Related states run to related endings and visit the same nodes in the same order from here on. */
  lemma {:induction false} RelDrive(w: Workflow, a: Scopes, o: Oracle, s: State, t: State)
    requires WellIndexed(w) && HandlersExist(w) && Setting(w, a, o) && WellBehaved(o, a)
    requires Steady(a, s) && RunLands(w, a, o, s) && Related(a, s, t)
    ensures Related(a, Drive(w, o, s), Drive(w, o, t))
    ensures exists more :: Drive(w, o, s).env.visited == s.env.visited + more &&
                           Drive(w, o, t).env.visited == t.env.visited + more
    decreases !s.finished, Fuel(s), StackWeight(s.frames), Unsettled(w, s)
  {
    hide Step, Good, Setting, WellBehaved, Agree, Readable, WellIndexed, HandlersExist, RunLands, RoundLands;
    if s.finished {
      assert s.env.visited == s.env.visited + [] && t.env.visited == t.env.visited + [];
    } else {
      RelStep(w, a, o, s, t);
      RunLandsOn(w, a, o, s);
      SteadyStep(w, a, o, s);
      StepDescends(w, o, s);
      var s1, t1 := Step(w, o, s), Step(w, o, t);
      RelDrive(w, a, o, s1, t1);
      var m1 :| s1.env.visited == s.env.visited + m1 && t1.env.visited == t.env.visited + m1;
      var m2 :| Drive(w, o, s1).env.visited == s1.env.visited + m2 &&
                Drive(w, o, t1).env.visited == t1.env.visited + m2;
      assert s.env.visited + (m1 + m2) == (s.env.visited + m1) + m2;
      assert t.env.visited + (m1 + m2) == (t.env.visited + m1) + m2;
    }
  }

  lemma SteadyStep(w: Workflow, a: Scopes, o: Oracle, s: State)
    requires WellIndexed(w) && Setting(w, a, o) && WellBehaved(o, a) && Good(a, s) && !s.finished
    requires RoundLands(w, a, o, s)
    ensures Steady(a, Step(w, o, s))
  {
    hide Step, Good, WellBehaved, WellIndexed, RoundLands;
    StepGood(w, a, o, s);
  }

  // ------------------------------------------------------------------ checkpoints

  datatype Stored = Stored(cursor: Id, vars: map<string, Json>, frames: Json, visits: nat, request: SuspendRequest)

  /** How the outside world writes an answer into the context: a dotted path, or every field of an object. */
  datatype Writer = Writer(put: (map<string, Json>, string, Json) -> map<string, Json>,
                           putAll: (map<string, Json>, map<string, Json>) -> map<string, Json>)

  /** What a resumed session gets: `Null` for a timer tick, or a prompt timeout. */
  datatype Answer = Answer(input: Json, timedOut: bool)

  function StoredOf(h: State): Stored
    requires h.ending.suspend.Some?
  {
    Stored(h.cursor, h.env.vars, FramesToJson(h.frames), h.env.visits, h.ending.suspend.value)
  }

  function Rebind(frames: seq<Frame>): map<string, Json> {
    if frames == [] then map[]
    else
      var l := Rebind(frames[..|frames| - 1]);
      var f := frames[|frames| - 1];
      if f.LoopFrame? then BindLocals(l, f) else l
  }

  function Known(w: Workflow, id: Id, fallback: Id): Id {
    if id == "" || id !in w.index then fallback else id
  }

  /** An omitted reply to a prompt (an empty object) is no reply. */
  predicate HasInput(answer: Answer, reason: string) {
    answer.input != Null && !(answer.input == Obj(map[]) && reason == "input")
  }

  function TimeoutError(r: SuspendRequest): Error {
    Error("TIMEOUT", "no input received within the configured prompt timeout", r.node, r.payload)
  }

  /** The state with the answer delivered to it, standing where a woken session stands. */
  function Deliver(w: Workflow, u: Writer, s: State, r: SuspendRequest, stored: Id, answer: Answer): State {
    if answer.timedOut then
      s.(cursor := Known(w, r.node, stored), env := s.env.(pending := Some(TimeoutError(r))))
    else if !HasInput(answer, r.reason) then s.(cursor := stored)
    else if r.reason == "input" then
      s.(cursor := Known(w, r.node, stored),
         env := s.env.(vars := if r.inputVar != "" then u.put(s.env.vars, r.inputVar, answer.input) else s.env.vars,
                       locals := s.env.locals["input" := answer.input], resumeNode := r.node))
    else
      s.(cursor := stored,
         env := s.env.(vars := if answer.input.Obj? then u.putAll(s.env.vars, answer.input.fields) else s.env.vars,
                       locals := s.env.locals[if r.reason == "" then "event" else r.reason := answer.input]))
  }

  function Awake(w: Workflow, s: State): State {
    if s.cursor == "" || s.cursor !in w.index then Halt(s, Live.(status := Completed))
    else s.(current := s.cursor)
  }

  /** A session rebuilt from its checkpoint, in this process or another one. */
  function Resumed(w: Workflow, u: Writer, c: Stored, answer: Answer, budget: nat, world: int): State {
    var frames := FramesFromJson(c.frames);
    var env := Env(c.vars, Rebind(frames), world, c.visits, budget, [], None, "");
    Awake(w, Deliver(w, u, State(frames, "", "", env, false, Live), c.request, c.cursor, answer))
  }

  /** The same session had it never left memory: the suspended state goes on with the answer. */
  function Reopened(w: Workflow, u: Writer, h: State, answer: Answer): State
    requires h.ending.suspend.Some?
  {
    var live := State(h.frames, "", "", h.env.(resumeNode := ""), false, Live);
    Awake(w, Deliver(w, u, live, h.ending.suspend.value, h.cursor, answer))
  }

  // ------------------------------------------------------------------ resuming is invisible

  /** Re-binding the open loops bottom-up gives every name in scope the value it had. */
  lemma {:induction false} RebindAgrees(a: Scopes, frames: seq<Frame>, locals: map<string, Json>)
    requires FramesOk(a, frames) && AllBound(locals, frames)
    ensures Agree(locals, Rebind(frames), Readable(frames))
    ensures AllBound(Rebind(frames), frames)
    ensures "input" !in Rebind(frames)
  {
    hide TopOk;
    if frames != [] {
      var below, f := frames[..|frames| - 1], frames[|frames| - 1];
      PrefixOk(a, frames, |frames| - 1);
      RebindAgrees(a, below, locals);
      assert frames == below + [f];
      TopIsOk(a, frames);
      assert Bound(locals, f);
      if f.LoopFrame? {
        BindTop(a, below, f, Rebind(below));
        RebindTop(a, below, f, locals, Rebind(below));
      } else {
        BoundPush(Rebind(below), below, f);
      }
    }
  }

  lemma RebindTop(a: Scopes, below: seq<Frame>, f: Frame, locals: map<string, Json>, l: map<string, Json>)
    requires f.LoopFrame? && TopOk(a, below + [f]) && Bound(locals, f) && Agree(locals, l, Readable(below))
    requires "input" !in l && FramesOk(a, below)
    ensures Agree(locals, BindLocals(l, f), Readable(below + [f])) && "input" !in BindLocals(l, f)
  {
    hide FitAll, FramesOk;
    NamesPush(below, f);
    ReadableTaken(below);
    TakenNotReserved(a, below);
    assert (below + [f])[..|below|] == below;
    assert "input" in Reserved && "iteration" in Reserved;
    assert f.itemVar != "" ==> f.itemVar in LoopNames(f.itemVar, f.indexVar);
    assert f.indexVar != "" ==> f.indexVar in LoopNames(f.itemVar, f.indexVar);
  }

  lemma {:induction false} ReadableTaken(frames: seq<Frame>)
    ensures Readable(frames) <= Taken(frames)
  {
    if frames != [] {
      ReadableTaken(frames[..|frames| - 1]);
    }
  }

  lemma RelDeliver(a: Scopes, w: Workflow, u: Writer, s: State, t: State, r: SuspendRequest, stored: Id, answer: Answer)
    requires Related(a, s, t)
    ensures Related(a, Awake(w, Deliver(w, u, s, r, stored, answer)), Awake(w, Deliver(w, u, t, r, stored, answer)))
  {
    hide Readable, Agree, Known, TimeoutError, HasInput, Awake;
    RelLocal(a, s, t, "input", answer.input);
    RelLocal(a, s, t, if r.reason == "" then "event" else r.reason, answer.input);
    RelAwake(a, w, Deliver(w, u, s, r, stored, answer), Deliver(w, u, t, r, stored, answer));
  }

  lemma RelAwake(a: Scopes, w: Workflow, s: State, t: State)
    requires Related(a, s, t)
    ensures Related(a, Awake(w, s), Awake(w, t))
  {
    hide Readable, Agree;
  }

  lemma RelLocal(a: Scopes, s: State, t: State, key: string, j: Json)
    requires Related(a, s, t)
    ensures Agree(s.env.locals[key := j], t.env.locals[key := j], Readable(s.frames) + a.locals)
  {
    hide Readable;
  }

  /** The local an answer is handed over in, if it is. */
  function Delivered(r: SuspendRequest, answer: Answer): set<string> {
    if answer.timedOut || !HasInput(answer, r.reason) then {}
    else if r.reason == "input" then {"input"}
    else {if r.reason == "" then "event" else r.reason}
  }

  /** The locals every node may read are those the frames alone bring back, but for the answer itself. */
  predicate Restored(a: Scopes, h: State, answer: Answer)
    requires h.ending.suspend.Some?
  {
    Agree(h.env.locals, Rebind(h.frames), a.locals - Delivered(h.ending.suspend.value, answer))
  }

  ghost predicate SameBut(l: map<string, Json>, m: map<string, Json>, names: set<string>) {
    forall x :: x !in names ==> (x in l <==> x in m) && (x in l ==> l[x] == m[x])
  }

  lemma AgreeThrough(l1: map<string, Json>, m1: map<string, Json>, l2: map<string, Json>, m2: map<string, Json>,
                     x: string, names: set<string>)
    requires SameBut(l1, m1, names) && SameBut(l2, m2, names) && x !in names
    ensures Seen(l1, x) == Seen(m1, x) && Seen(l2, x) == Seen(m2, x)
  {
  }

  lemma SeenApart(l: map<string, Json>, m: map<string, Json>, names: set<string>) returns (x: string)
    requires !Agree(l, m, names)
    ensures x in names && Seen(l, x) != Seen(m, x)
  {
    x :| x in names && !((x in l <==> x in m) && (x in l ==> l[x] == m[x]));
  }

  lemma SeenAlike(l: map<string, Json>, m: map<string, Json>, names: set<string>, x: string)
    requires Agree(l, m, names) && x in names
    ensures Seen(l, x) == Seen(m, x)
  {
  }

  /** What a task finds under a name. */
  function Seen(locals: map<string, Json>, x: string): Json {
    if x in locals then Arr([locals[x]]) else Null
  }

  lemma DeliveredLocals(w: Workflow, u: Writer, s: State, r: SuspendRequest, stored: Id, answer: Answer)
    ensures var l := Awake(w, Deliver(w, u, s, r, stored, answer)).env.locals;
            && (forall x :: x in Delivered(r, answer) ==> x in l && l[x] == answer.input)
            && SameBut(l, s.env.locals, Delivered(r, answer))
    ensures Awake(w, Deliver(w, u, s, r, stored, answer)).frames == s.frames
    ensures Awake(w, Deliver(w, u, s, r, stored, answer)).env.visited == s.env.visited
  {
    hide Known, TimeoutError;
  }

  /** The rebuilt session before its answer. */
  function Rebuilt(h: State, budget: nat, world: int): State {
    State(h.frames, "", "", Env(h.env.vars, Rebind(h.frames), world, h.env.visits, budget, [], None, ""), false, Live)
  }

  lemma RebuiltFromCheckpoint(w: Workflow, u: Writer, h: State, answer: Answer)
    requires h.ending.suspend.Some? && forall k :: 0 <= k < |h.frames| ==> FitsInt(h.frames[k])
    ensures Resumed(w, u, StoredOf(h), answer, h.env.budget, h.env.world) ==
            Awake(w, Deliver(w, u, Rebuilt(h, h.env.budget, h.env.world), h.ending.suspend.value, h.cursor, answer))
  {
    hide FramesToJson, FramesFromJson, Rebind, Known, HasInput;
    FramesRoundTrip(h.frames);
  }

  function StillOpen(h: State): State {
    State(h.frames, "", "", h.env.(resumeNode := ""), false, Live)
  }

  lemma BeforeTheAnswer(a: Scopes, h: State, names: set<string>)
    requires Kept(a, h) && h.env.pending.None? && Agree(h.env.locals, Rebind(h.frames), names)
    ensures Related(a.(locals := names), StillOpen(h), Rebuilt(h, h.env.budget, h.env.world))
  {
    hide FramesOk, AllBound, Readable, Rebind;
    RebindAgrees(a, h.frames, h.env.locals);
  }

  lemma RelWiden(a: Scopes, s: State, t: State, names: set<string>)
    requires Related(a.(locals := a.locals - names), s, t) && Agree(s.env.locals, t.env.locals, names)
    ensures Related(a, s, t)
  {
    hide Readable;
  }

  lemma ReopenedLocals(w: Workflow, u: Writer, h: State, answer: Answer)
    requires h.ending.suspend.Some? && forall k :: 0 <= k < |h.frames| ==> FitsInt(h.frames[k])
    ensures var x := Reopened(w, u, h, answer);
            var y := Resumed(w, u, StoredOf(h), answer, h.env.budget, h.env.world);
            var names := Delivered(h.ending.suspend.value, answer);
            && Agree(x.env.locals, y.env.locals, names)
            && SameBut(x.env.locals, h.env.locals, names) && SameBut(y.env.locals, Rebind(h.frames), names)
            && x.frames == h.frames == y.frames && x.env.visited == h.env.visited && y.env.visited == []
  {
    RebuiltFromCheckpoint(w, u, h, answer);
    var r := h.ending.suspend.value;
    assert Reopened(w, u, h, answer) == Awake(w, Deliver(w, u, StillOpen(h), r, h.cursor, answer));
    DeliveredLocals(w, u, StillOpen(h), r, h.cursor, answer);
    DeliveredLocals(w, u, Rebuilt(h, h.env.budget, h.env.world), r, h.cursor, answer);
    hide Resumed, Reopened, Awake, Deliver, Delivered, StoredOf, Rebind;
  }

  /**
   * Suspend, store, load, resume: the rebuilt state is the uninterrupted one, up to locals nobody may read,
   * exactly when the frames bring back every other local that may be read.
   */
  lemma ResumedIsReopened(w: Workflow, u: Writer, a: Scopes, h: State, answer: Answer)
    requires h.ending.suspend.Some? && Kept(a, h) && h.env.pending.None?
    requires forall k :: 0 <= k < |h.frames| ==> FitsInt(h.frames[k])
    ensures Related(a, Reopened(w, u, h, answer), Resumed(w, u, StoredOf(h), answer, h.env.budget, h.env.world))
            <==> Restored(a, h, answer)
    ensures Resumed(w, u, StoredOf(h), answer, h.env.budget, h.env.world).env.visited == []
    ensures Reopened(w, u, h, answer).env.visited == h.env.visited
  {
    ReopenedLocals(w, u, h, answer);
    RebuiltFromCheckpoint(w, u, h, answer);
    var r := h.ending.suspend.value;
    var x, y := Reopened(w, u, h, answer), Resumed(w, u, StoredOf(h), answer, h.env.budget, h.env.world);
    assert x == Awake(w, Deliver(w, u, StillOpen(h), r, h.cursor, answer));
    hide Resumed, Reopened, Awake, Deliver, Delivered, StoredOf, Rebind, Kept, Readable, SameBut, Seen, Agree;
    var names := a.locals - Delivered(r, answer);
    if Restored(a, h, answer) {
      hide Related;
      BeforeTheAnswer(a, h, names);
      RelDeliver(a.(locals := names), w, u, StillOpen(h), Rebuilt(h, h.env.budget, h.env.world), r, h.cursor, answer);
      RelWiden(a, x, y, Delivered(r, answer));
    } else {
      var k := SeenApart(h.env.locals, Rebind(h.frames), names);
      AgreeThrough(x.env.locals, h.env.locals, y.env.locals, Rebind(h.frames), k, Delivered(r, answer));
      if Related(a, x, y) {
        SeenAlike(x.env.locals, y.env.locals, Readable(x.frames) + a.locals, k);
      }
    }
  }

  /** The state in which the node under the cursor runs. */
  function Entered(s: State): State {
    s.(current := s.cursor, env := s.env.(visits := s.env.visits + 1, visited := s.env.visited + [s.cursor]))
  }

  /** The next round runs an enabled leaf, within budget. */
  predicate AtTask(w: Workflow, s: State) {
    && !s.finished && s.env.pending.None? && s.cursor in w.index && s.env.visits < s.env.budget
    && w.index[s.cursor].enabled && w.index[s.cursor].kind.Leaf?
  }

  /** The next round runs an enabled leaf, within budget, and it asks to suspend. */
  ghost predicate Suspends(w: Workflow, o: Oracle, s: State) {
    && AtTask(w, s)
    && var r := o.leaf(s.cursor, ViewOf(s.env, Iteration(s.frames))).result; r.Ok? && r.value.Suspend?
  }

  lemma SuspensionKeeps(w: Workflow, a: Scopes, o: Oracle, s: State, n: Node, request: SuspendRequest)
    requires WellBehaved(o, a) && DisciplinedNode(a, n) && n.kind.Leaf? && Kept(a, s) && Fits(a, n.id, s.frames)
    requires o.leaf(n.id, ViewOf(s.env, Iteration(s.frames))).result == Ok(Suspend(request))
    requires request.resumeNode == "" || Fits(a, request.resumeNode, s.frames)
    ensures var h := StepLeaf(w, o, s, n);
            Kept(a, h) && CursorOk(a, h) && h.frames == s.frames && h.finished && h.ending == SuspendEnding(request) &&
            request.node == n.id && request.reason in ["input", "timer", "event"] && h.env.pending == s.env.pending
  {
    hide FramesOk, AllBound, Readable, Taken, ForgetAnswer;
    var r := o.leaf(n.id, ViewOf(s.env, Iteration(s.frames)));
    var s1 := s.(env := After(s.env, r));
    ForgetGood(a, s1, n.id);
    ForgetKeepsPending(s1.env, n.id);
  }

  lemma ForgetKeepsPending(env: Env, id: Id)
    ensures ForgetAnswer(env, id).pending == env.pending
  {
  }

  lemma DeliverGood(w: Workflow, u: Writer, a: Scopes, h: State, answer: Answer)
    requires h.ending.suspend.Some? && Kept(a, h) && CursorOk(a, h)
    requires Fits(a, h.ending.suspend.value.node, h.frames)
    requires h.ending.suspend.value.reason in ["input", "timer", "event"]
    ensures Steady(a, Reopened(w, u, h, answer))
  {
    hide TopOk, Bound, Readable;
    var r := h.ending.suspend.value;
    TakenNotReserved(a, h.frames);
    assert "input" in Reserved && "timer" in Reserved && "event" in Reserved;
    var live := State(h.frames, "", "", h.env.(resumeNode := ""), false, Live);
    var s := Deliver(w, u, live, r, h.cursor, answer);
    BoundElsewhere(h.env.locals, s.env.locals, h.frames, {"input", "timer", "event"});
  }

  /** From here on the resumed session runs to the ending and the context of the one that got the answer at once. */
  ghost predicate Invisible(w: Workflow, u: Writer, a: Scopes, o: Oracle, h: State, answer: Answer)
    requires WellIndexed(w) && HandlersExist(w) && h.ending.suspend.Some?
  {
    var resumed := Drive(w, o, Resumed(w, u, StoredOf(h), answer, h.env.budget, h.env.world));
    var straight := Drive(w, o, Reopened(w, u, h, answer));
    Related(a, straight, resumed) && straight.env.visited == h.env.visited + resumed.env.visited
  }

  /** A suspended session as the discipline leaves it: bindings intact, nothing pending, a place to wake up at. */
  ghost predicate Dormant(a: Scopes, h: State) {
    && h.ending.suspend.Some? && Kept(a, h) && CursorOk(a, h) && h.env.pending.None?
    && h.ending.suspend.value.reason in ["input", "timer", "event"]
    && Fits(a, h.ending.suspend.value.node, h.frames)
    && forall k :: 0 <= k < |h.frames| ==> FitsInt(h.frames[k])
  }

  /**
   * Resuming is invisible. A session suspends at any nesting depth, is stored as JSON, and is rebuilt with an
   * answer (a prompt reply, a timer tick, an event, or a timeout). If the locals that nodes may read besides
   * loop variables are those the frames bring back, and no jump asks for loop variables that are not there, it
   * runs to the same ending with the same context, visiting the same nodes in the same order, as the session
   * that got the answer at once.
   */
  lemma ResumeIsInvisible(w: Workflow, u: Writer, a: Scopes, o: Oracle, s: State, answer: Answer)
    requires WellIndexed(w) && HandlersExist(w) && Setting(w, a, o) && WellBehaved(o, a)
    requires Good(a, s) && Suspends(w, o, s) && RoundLands(w, a, o, s)
    requires forall k :: 0 <= k < |s.frames| ==> FitsInt(s.frames[k])
    ensures Dormant(a, Step(w, o, s))
    ensures Restored(a, Step(w, o, s), answer) && RunLands(w, a, o, Reopened(w, u, Step(w, o, s), answer)) ==>
              Invisible(w, u, a, o, Step(w, o, s), answer)
  {
    hide Step, Good, Setting, WellBehaved, Kept, Restored, Invisible, CursorOk, Fits, RoundLands, RunLands, Reopened;
    SuspensionIsGood(w, a, o, s);
    if Restored(a, Step(w, o, s), answer) && RunLands(w, a, o, Reopened(w, u, Step(w, o, s), answer)) {
      ResumeFrom(w, u, a, o, Step(w, o, s), answer);
    }
  }

  lemma ResumeFrom(w: Workflow, u: Writer, a: Scopes, o: Oracle, h: State, answer: Answer)
    requires WellIndexed(w) && HandlersExist(w) && Setting(w, a, o) && WellBehaved(o, a)
    requires Dormant(a, h) && Restored(a, h, answer) && RunLands(w, a, o, Reopened(w, u, h, answer))
    ensures Invisible(w, u, a, o, h, answer)
  {
    hide Drive, RunLands, Good, Setting, WellBehaved, Related, FramesOk, AllBound, StoredOf, Resumed, Reopened,
      Restored;
    DeliverGood(w, u, a, h, answer);
    ResumedIsReopened(w, u, a, h, answer);
    RelDrive(w, a, o, Reopened(w, u, h, answer), Resumed(w, u, StoredOf(h), answer, h.env.budget, h.env.world));
  }

  lemma SuspensionIsGood(w: Workflow, a: Scopes, o: Oracle, s: State)
    requires WellIndexed(w) && Setting(w, a, o) && WellBehaved(o, a) && Good(a, s) && Suspends(w, o, s)
    requires RoundLands(w, a, o, s)
    ensures var h := Step(w, o, s);
            && h.finished && h.ending.suspend.Some? && Kept(a, h) && CursorOk(a, h) && h.env.pending.None?
            && h.ending.suspend.value.reason in ["input", "timer", "event"]
            && Fits(a, h.ending.suspend.value.node, h.frames) && h.frames == s.frames
  {
    hide FramesOk, AllBound, StepLeaf, WellBehaved, Taken, Readable;
    var n := w.index[s.cursor];
    assert DisciplinedNode(a, n);
    assert WellIndexed(w) && n.id == s.cursor;
    var r := o.leaf(s.cursor, ViewOf(s.env, Iteration(s.frames))).result;
    assert ViewOf(Entered(s).env, Iteration(s.frames)) == ViewOf(s.env, Iteration(s.frames));
    SuspensionKeeps(w, a, o, Entered(s), n, r.value.request);
    LeafStep(w, o, s);
  }

  lemma LeafStep(w: Workflow, o: Oracle, s: State)
    requires WellIndexed(w) && !s.finished && s.env.pending.None? && s.cursor in w.index
    requires s.env.visits < s.env.budget && w.index[s.cursor].enabled && w.index[s.cursor].kind.Leaf?
    ensures Step(w, o, s) == StepLeaf(w, o, Entered(s), w.index[s.cursor])
  {
    hide StepLeaf;
  }

  // ------------------------------------------------------------------ and when it is not

  /** Tasks that end the session with what they find in one local. */
  function Teller(a: Scopes, x: string): Oracle {
    Oracle((id, v: View) => Reply(Ok(Terminate("success", None, Seen(v.locals, x))), v.vars, v.world),
           (id, v: View) => Reply(Ok(false), v.vars, v.world),
           (id, v: View) => Reply(Ok(if a.guarded(id) then None else Some([])), v.vars, v.world),
           (id, v: View) => Reply(Ok(false), v.vars, v.world))
  }

  /** Tasks that read what they are entitled to, in a run whose jumps find what their targets need. */
  ghost predicate Fair(w: Workflow, a: Scopes, o: Oracle, s: State)
    requires WellIndexed(w)
  {
    ReadsScope(o, a) && WellBehaved(o, a) && RunLands(w, a, o, s)
  }

  lemma TellerIsFair(a: Scopes, x: string)
    requires x in a.locals
    ensures ReadsScope(Teller(a, x), a) && WellBehaved(Teller(a, x), a)
  {
  }

  lemma TellerLands(w: Workflow, a: Scopes, x: string, s: State)
    requires WellIndexed(w)
    ensures RunLands(w, a, Teller(a, x), s)
  {
    hide StepN;
  }

  lemma TellerTells(w: Workflow, a: Scopes, x: string, s: State)
    requires WellIndexed(w) && HandlersExist(w) && AtTask(w, s)
    ensures Drive(w, Teller(a, x), s).ending == Live.(status := Terminated, payload := Seen(s.env.locals, x))
  {
    var o := Teller(a, x);
    LeafStep(w, o, s);
    var t := Step(w, o, s);
    assert o.leaf(s.cursor, ViewOf(Entered(s).env, Iteration(s.frames))).result ==
           Ok(Terminate("success", None, Seen(s.env.locals, x)));
    assert t.finished && t.ending == Live.(status := Terminated, payload := Seen(s.env.locals, x));
  }

  lemma SameStand(w: Workflow, u: Writer, h: State, answer: Answer)
    requires h.ending.suspend.Some? && h.env.pending.None? && forall k :: 0 <= k < |h.frames| ==> FitsInt(h.frames[k])
    requires AtTask(w, Reopened(w, u, h, answer))
    ensures AtTask(w, Resumed(w, u, StoredOf(h), answer, h.env.budget, h.env.world))
  {
    hide FramesToJson, FramesFromJson, Rebind, FitsInt;
    RebuiltFromCheckpoint(w, u, h, answer);
    hide Resumed, StoredOf;
  }

  /** Where the frames do not bring a readable local back, a task that reads it ends the two runs differently. */
  lemma DisagreementShows(w: Workflow, u: Writer, a: Scopes, h: State, answer: Answer) returns (o: Oracle)
    requires WellIndexed(w) && HandlersExist(w) && Dormant(a, h)
    requires AtTask(w, Reopened(w, u, h, answer)) && !Restored(a, h, answer)
    ensures Fair(w, a, o, Reopened(w, u, h, answer))
    ensures Drive(w, o, Reopened(w, u, h, answer)).ending !=
            Drive(w, o, Resumed(w, u, StoredOf(h), answer, h.env.budget, h.env.world)).ending
  {
    hide Teller, Drive, ReadsScope, WellBehaved, RunLands, Reopened, Resumed, AtTask, Rebind, Agree, Seen, SameBut,
      Kept, CursorOk, Fits, FitsInt, Delivered, StoredOf;
    var names := Delivered(h.ending.suspend.value, answer);
    var x := SeenApart(h.env.locals, Rebind(h.frames), a.locals - names);
    o := Teller(a, x);
    SameStand(w, u, h, answer);
    ReopenedLocals(w, u, h, answer);
    AgreeThrough(Reopened(w, u, h, answer).env.locals, h.env.locals,
                 Resumed(w, u, StoredOf(h), answer, h.env.budget, h.env.world).env.locals, Rebind(h.frames), x, names);
    TellerIsFair(a, x);
    TellerLands(w, a, x, Reopened(w, u, h, answer));
    TellerTells(w, a, x, Reopened(w, u, h, answer));
    TellerTells(w, a, x, Resumed(w, u, StoredOf(h), answer, h.env.budget, h.env.world));
  }

  /**
   * Exactly when resuming is invisible: a session that wakes up at a task goes on as if it had never stopped,
   * whatever its tasks do, if and only if the frames bring back every local that tasks may read.
   */
  lemma InvisibleIffRestored(w: Workflow, u: Writer, a: Scopes, h: State, answer: Answer)
    requires WellIndexed(w) && HandlersExist(w) && Disciplined(w, a) && Dormant(a, h)
    requires AtTask(w, Reopened(w, u, h, answer))
    ensures Restored(a, h, answer) <==>
            forall o: Oracle :: Fair(w, a, o, Reopened(w, u, h, answer)) ==> Invisible(w, u, a, o, h, answer)
  {
    hide Drive, Resumed, Reopened, Restored, Kept, CursorOk, Fits, FitsInt, Disciplined, ReadsScope, WellBehaved,
      AtTask, RunLands;
    if Restored(a, h, answer) {
      forall o: Oracle | Fair(w, a, o, Reopened(w, u, h, answer))
        ensures Invisible(w, u, a, o, h, answer)
      {
        ResumeFrom(w, u, a, o, h, answer);
      }
    } else {
      var o := DisagreementShows(w, u, a, h, answer);
      assert !Invisible(w, u, a, o, h, answer);
    }
  }

  /** Of the locals, frames bring back loop variables and `iteration` only. */
  lemma {:induction false} OnlyLoopNames(a: Scopes, frames: seq<Frame>, x: string)
    requires FramesOk(a, frames) && x !in Readable(frames) && x != "iteration"
    ensures x !in Rebind(frames)
  {
    hide FitAll;
    if frames != [] {
      PrefixOk(a, frames, |frames| - 1);
      TopIsOk(a, frames);
      OnlyLoopNames(a, frames[..|frames| - 1], x);
    }
  }

  function InnermostIndex(frames: seq<Frame>): Option<int> {
    if frames == [] then None
    else if frames[|frames| - 1].LoopFrame? then Some(frames[|frames| - 1].index)
    else InnermostIndex(frames[..|frames| - 1])
  }

  /** The pass of the innermost loop comes back as `iteration`, even where closing a try in that pass had erased it. */
  lemma {:induction false} IterationComesBack(a: Scopes, frames: seq<Frame>)
    requires FramesOk(a, frames)
    ensures Seen(Rebind(frames), "iteration") ==
            if InnermostIndex(frames).Some? then Arr([Num(InnermostIndex(frames).value)]) else Null
  {
    hide TopOk;
    if frames != [] {
      PrefixOk(a, frames, |frames| - 1);
      IterationComesBack(a, frames[..|frames| - 1]);
    }
  }

  /** Any other local is forgotten: it is as before the suspension exactly when it was unset or is the answer. */
  lemma OtherLocalsForgotten(a: Scopes, h: State, answer: Answer)
    requires Dormant(a, h) && a.locals !! Readable(h.frames) && "iteration" !in a.locals
    ensures Restored(a, h, answer) <==>
            h.env.locals.Keys !! a.locals - Delivered(h.ending.suspend.value, answer)
  {
    hide Rebind, FramesOk, Readable, Delivered, AllBound, Fits;
    forall x | x in a.locals
      ensures x !in Rebind(h.frames)
    {
      OnlyLoopNames(a, h.frames, x);
    }
  }

  lemma SuspendedLeafKeepsError(w: Workflow, o: Oracle, s: State)
    requires WellIndexed(w) && Suspends(w, o, s) && "error" in s.env.locals
    ensures "error" in Step(w, o, s).env.locals && Step(w, o, s).frames == s.frames
  {
    LeafStep(w, o, s);
    assert ViewOf(Entered(s).env, Iteration(s.frames)) == ViewOf(s.env, Iteration(s.frames));
  }

  /**
   * An input that shows it: an error is caught by a try whose handler starts with a task that suspends. Had it
   * stayed in memory, the handler would still find the local `error` afterwards; the resumed session does not.
   */
  lemma CaughtErrorIsForgotten(w: Workflow, u: Writer, a: Scopes, o: Oracle, s: State, e: Error, answer: Answer)
    requires WellIndexed(w) && Setting(w, a, o) && WellBehaved(o, a)
    requires Kept(a, s) && s.frames != [] && Top(s).TryFrame? && Top(s).phase == InBody && !s.finished
    requires Routed(w, Top(s), e.code) == "" && Top(s).catchIds != []
    requires Suspends(w, o, RecoverInTry(w, o, s, e)) && RoundLands(w, a, o, RecoverInTry(w, o, s, e))
    requires forall k :: 0 <= k < |s.frames| ==> FitsInt(s.frames[k])
    ensures var h := Step(w, o, RecoverInTry(w, o, s, e));
            && h.ending.suspend.Some?
            && "error" in Reopened(w, u, h, answer).env.locals
            && "error" !in Resumed(w, u, StoredOf(h), answer, h.env.budget, h.env.world).env.locals
  {
    var t := RecoverInTry(w, o, s, e);
    CatchBindsError(w, o, s, e);
    hide RecoverInTry, Step, Setting, WellBehaved, FramesOk, AllBound, Suspends, TopOk, FitsInt, Fits, RoundLands;
    SettingDisciplined(w, a, o);
    RecoverGood(w, a, o, s, e);
    SuspensionIsGood(w, a, o, t);
    SuspendedLeafKeepsError(w, o, t);
    ErrorStaysAway(w, u, a, Step(w, o, t), answer);
  }

  lemma CatchBindsError(w: Workflow, o: Oracle, s: State, e: Error)
    requires s.frames != [] && Top(s).TryFrame? && Top(s).phase == InBody && !s.finished
    requires Routed(w, Top(s), e.code) == "" && Top(s).catchIds != []
    requires forall k :: 0 <= k < |s.frames| ==> FitsInt(s.frames[k])
    ensures var t := RecoverInTry(w, o, s, e);
            !t.finished && "error" in t.env.locals && forall k :: 0 <= k < |t.frames| ==> FitsInt(t.frames[k])
  {
  }

  lemma ErrorStaysAway(w: Workflow, u: Writer, a: Scopes, h: State, answer: Answer)
    requires h.ending.suspend.Some? && h.ending.suspend.value.reason in ["input", "timer", "event"]
    requires FramesOk(a, h.frames) && "error" in h.env.locals
    requires forall k :: 0 <= k < |h.frames| ==> FitsInt(h.frames[k])
    ensures "error" in Reopened(w, u, h, answer).env.locals
    ensures "error" !in Resumed(w, u, StoredOf(h), answer, h.env.budget, h.env.world).env.locals
  {
    hide Resumed, Reopened, Rebind, StoredOf, FramesOk, FitsInt, Readable, Taken;
    ReopenedLocals(w, u, h, answer);
    TakenNotReserved(a, h.frames);
    ReadableTaken(h.frames);
    assert "error" in Reserved;
    OnlyLoopNames(a, h.frames, "error");
    var names := Delivered(h.ending.suspend.value, answer);
    assert "error" !in names;
  }

  // ------------------------------------------------------------------ what the answer changes

  /** A prompt that changes nothing itself asks in this round, and is to be re-entered with the reply. */
  ghost predicate Prompts(w: Workflow, o: Oracle, s: State) {
    && Suspends(w, o, s)
    && var r := o.leaf(s.cursor, ViewOf(s.env, Iteration(s.frames)));
       && r.vars == s.env.vars && r.world == s.env.world
       && r.result.value.request.reason == "input" && r.result.value.request.node == s.cursor
  }

  /**
   * A session given its reply at once stands where it stood before the prompt, with the reply among its locals
   * and in its prompt variable: only the visit of the prompt, and an older reply to another node, are different.
   */
  lemma AnsweredPrompt(w: Workflow, u: Writer, o: Oracle, s: State, answer: Answer)
    requires WellIndexed(w) && Prompts(w, o, s) && s.cursor != "" && s.env.resumeNode != s.cursor && s.ending == Live
    requires !answer.timedOut && HasInput(answer, "input")
    ensures Step(w, o, s).ending.suspend.Some?
    ensures var h := Step(w, o, s);
            var request := h.ending.suspend.value;
            Reopened(w, u, h, answer) == s.(
              current := s.cursor,
              env := s.env.(
                vars := if request.inputVar != "" then u.put(s.env.vars, request.inputVar, answer.input)
                        else s.env.vars,
                locals := s.env.locals["input" := answer.input],
                resumeNode := s.cursor,
                visits := s.env.visits + 1, visited := s.env.visited + [s.cursor]))
  {
    LeafStep(w, o, s);
    assert ViewOf(Entered(s).env, Iteration(s.frames)) == ViewOf(s.env, Iteration(s.frames));
  }

  // ------------------------------------------------------------------ waking up nowhere

  /**
   * A session that waits for a timer or an event goes on after waking exactly if it was given a node to go on with that
   * exists. Otherwise it completes, and whatever loops and tries were open are dropped.
   */
  lemma WakesIff(w: Workflow, u: Writer, o: Oracle, s: State, answer: Answer)
    requires WellIndexed(w) && Suspends(w, o, s) && !answer.timedOut
    requires o.leaf(s.cursor, ViewOf(s.env, Iteration(s.frames))).result.value.request.reason != "input"
    requires forall k :: 0 <= k < |s.frames| ==> FitsInt(s.frames[k])
    ensures var h := Step(w, o, s);
            h.ending.suspend.Some? &&
            var y := Resumed(w, u, StoredOf(h), answer, h.env.budget, h.env.world);
            && (y.finished <==> ResumeCursor(w.index[s.cursor], h.ending.suspend.value) !in w.index)
            && (y.finished ==> y.ending == Live.(status := Completed) && y.frames == s.frames)
  {
    LeafStep(w, o, s);
    assert ViewOf(Entered(s).env, Iteration(s.frames)) == ViewOf(s.env, Iteration(s.frames));
    var h := Step(w, o, s);
    var request := o.leaf(s.cursor, ViewOf(s.env, Iteration(s.frames))).result.value.request;
    assert h.cursor == ResumeCursor(w.index[s.cursor], request) && h.frames == s.frames;
    assert h.ending == SuspendEnding(request);
    hide Step, Resumed, StoredOf, Rebind, FramesToJson, FramesFromJson, Known, ResumeCursor, Suspends;
    RebuiltFromCheckpoint(w, u, h, answer);
  }
}
