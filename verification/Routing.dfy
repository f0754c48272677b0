// Where control goes, said in the fields of nodes and frames alone: out of a body over an explicit edge, to the
// next sibling, out of a body that has run out, to a jump's target, and to the handler an error code names.

module Routing {
  import opened Json
  import opened Blueprint
  import opened Machine
  import opened MainLoop

  // ------------------------------------------------------------------ jumps

  /** Frame `k` holds the target, and no frame above it does. */
  predicate HeldAt(frames: seq<Frame>, target: Id, k: nat) {
    && k < |frames| && target in frames[k].ids
    && forall j :: k < j < |frames| ==> target !in frames[j].ids
  }

  /** The variables of this pass of a loop, and nothing else, differ from `before`. */
  ghost predicate PassBound(before: map<string, Json>, f: Frame, after: map<string, Json>)
    requires f.LoopFrame?
  {
    && "iteration" in after && after["iteration"] == Num(f.index)
    && (f.indexVar != "" && f.indexVar != "iteration" ==> f.indexVar in after && after[f.indexVar] == Num(f.index))
    && (0 <= f.index < |f.items| && f.itemVar !in {"", f.indexVar, "iteration"} ==>
          f.itemVar in after && after[f.itemVar] == f.items[f.index])
    && forall x :: x !in {f.itemVar, f.indexVar, "iteration"} ==>
         (x in after <==> x in before) && (x in after ==> after[x] == before[x])
  }

  /**
   * Control stands at `target`. The frames left are those up to the innermost that holds it, stepped to its
   * first position there and, if it is a loop, with the variables of its pass bound; they are none if no frame
   * holds it. The empty target leaves all frames alone.
   */
  ghost predicate StandsAt(s: State, target: Id, t: State) {
    && t.cursor == target && t.finished == s.finished && t.current == s.current && t.ending == s.ending
    && t.env == s.env.(locals := t.env.locals)
    && (target == "" ==> t.frames == s.frames && t.env == s.env)
    && (target != "" && (forall k :: 0 <= k < |s.frames| ==> target !in s.frames[k].ids) ==>
          t.frames == [] && t.env == s.env)
    && forall k: nat :: target != "" && HeldAt(s.frames, target, k) ==> Stepped(s, k, target, t)
  }

  /** Frame `k` is on top, stepped to the target. */
  ghost predicate Stepped(s: State, k: nat, target: Id, t: State)
    requires k < |s.frames|
  {
    && |t.frames| == k + 1 && t.frames[..k] == s.frames[..k]
    && t.frames[k] == s.frames[k].(position := t.frames[k].position)
    && 0 <= t.frames[k].position < |s.frames[k].ids| && s.frames[k].ids[t.frames[k].position] == target
    && target !in s.frames[k].ids[..t.frames[k].position]
    && if s.frames[k].LoopFrame? then PassBound(s.env.locals, s.frames[k], t.env.locals) else t.env == s.env
  }

  lemma BindsPass(locals: map<string, Json>, f: Frame)
    requires f.LoopFrame?
    ensures PassBound(locals, f, BindLocals(locals, f))
  {
  }

  lemma HeldIsDepth(frames: seq<Frame>, target: Id, k: nat)
    ensures HeldAt(frames, target, k) <==> JumpDepth(frames, target) == k + 1
  {
    hide JumpDepth;
  }

  lemma JumpStands(s: State, target: Id)
    ensures StandsAt(s, target, ResolveJump(s, target))
  {
    forall k: nat | target != "" && HeldAt(s.frames, target, k)
      ensures Stepped(s, k, target, ResolveJump(s, target))
    {
      HeldIsDepth(s.frames, target, k);
      JumpedFrame(s, target, k);
    }
    hide JumpDepth, Stepped, BindLocals, AtPosition, IndexOf;
  }

  lemma JumpedFrame(s: State, target: Id, k: nat)
    requires target != "" && JumpDepth(s.frames, target) == k + 1
    ensures Stepped(s, k, target, ResolveJump(s, target))
  {
    hide JumpDepth, BindLocals, PassBound;
    var f := s.frames[k].(position := IndexOf(s.frames[k].ids, target));
    assert f == AtPosition(s.frames[k], IndexOf(s.frames[k].ids, target));
    if f.LoopFrame? {
      BindsPass(s.env.locals, f);
      SamePass(s.env.locals, s.frames[k], f, BindLocals(s.env.locals, f));
    }
  }

  lemma SamePass(before: map<string, Json>, f: Frame, g: Frame, after: map<string, Json>)
    requires f.LoopFrame? && g.LoopFrame? && g.index == f.index && g.items == f.items
    requires g.itemVar == f.itemVar && g.indexVar == f.indexVar
    ensures PassBound(before, g, after) <==> PassBound(before, f, after)
  {
  }

  // ------------------------------------------------------------------ after a node

  /** The node names a successor. */
  predicate LeadsTo(w: Workflow, id: Id, target: Id) {
    id in w.index && w.index[id].next == Some(target)
  }

  /** An explicit edge out of the open body is taken: the body is left, whatever frames that closes. */
  lemma EdgeLeavesBody(w: Workflow, o: Oracle, s: State, id: Id, target: Id)
    requires s.frames != [] && id in Top(s).ids && LeadsTo(w, id, target) && target !in Top(s).ids
    ensures StandsAt(s, target, Advance(w, o, s, id))
  {
    hide ResolveJump, StandsAt;
    JumpStands(s, target);
  }

  /** Any other node of the body that is not its last is followed by its sibling, and only the position moves. */
  lemma SiblingFollows(w: Workflow, o: Oracle, s: State, k: nat)
    requires s.frames != [] && k + 1 < |Top(s).ids| && Top(s).ids[k] !in Top(s).ids[..k]
    requires forall target :: LeadsTo(w, Top(s).ids[k], target) ==> target in Top(s).ids
    ensures Advance(w, o, s, Top(s).ids[k]) ==
            s.(cursor := Top(s).ids[k + 1],
               frames := s.frames[..|s.frames| - 1] + [Top(s).(position := k + 1)])
  {
    var id := Top(s).ids[k];
    if id in w.index && w.index[id].next.Some? {
      assert LeadsTo(w, id, w.index[id].next.value);
    }
    FirstIndex(Top(s).ids, k);
    hide FinishBody, ResolveJump;
  }

  /** Control passes to the next sibling exactly when the node has no edge out of the body. */
  lemma SiblingIff(w: Workflow, o: Oracle, s: State, k: nat)
    requires s.frames != [] && k + 1 < |Top(s).ids| && Top(s).ids[k] !in Top(s).ids[..k]
    ensures Advance(w, o, s, Top(s).ids[k]).cursor == Top(s).ids[k + 1] <==>
            forall target :: LeadsTo(w, Top(s).ids[k], target) ==> target in Top(s).ids
  {
    hide Advance;
    var id := Top(s).ids[k];
    if target :| LeadsTo(w, id, target) && target !in Top(s).ids {
      EdgeLeavesBody(w, o, s, id, target);
    } else {
      SiblingFollows(w, o, s, k);
    }
  }

  lemma FirstIndex(ids: seq<Id>, k: nat)
    requires k < |ids| && ids[k] !in ids[..k]
    ensures IndexOf(ids, ids[k]) == k
  {
  }

  /** With nothing open the edge of the node is followed; a node without one ends the run. */
  lemma TopLevelEdge(w: Workflow, o: Oracle, s: State, id: Id)
    requires s.frames == []
    ensures forall target :: LeadsTo(w, id, target) ==> Advance(w, o, s, id) == s.(cursor := target)
    ensures (forall target :: !LeadsTo(w, id, target)) ==>
              var t := Advance(w, o, s, id);
              && t.finished && t.cursor == "" && t.frames == [] && t.env == s.env
              && (s.ending == Live ==> t.ending == Live.(status := Completed))
  {
    if id in w.index && w.index[id].next.Some? {
      assert LeadsTo(w, id, w.index[id].next.value);
    }
  }

  /** The body of the top frame is done with this node: it is the last, or control has come back from a frame above. */
  ghost predicate RunOut(w: Workflow, s: State, id: Id) {
    && s.frames != []
    && (id in Top(s).ids ==> id == Top(s).ids[|Top(s).ids| - 1] && id !in Top(s).ids[..|Top(s).ids| - 1])
    && forall target :: LeadsTo(w, id, target) && id in Top(s).ids ==> target in Top(s).ids
  }

  lemma RunOutFinishes(w: Workflow, o: Oracle, s: State, id: Id)
    requires RunOut(w, s, id)
    ensures Advance(w, o, s, id) == FinishBody(w, o, s, id in Top(s).ids)
  {
    var f := Top(s);
    if id in f.ids {
      FirstIndex(f.ids, |f.ids| - 1);
    }
    if id in w.index && w.index[id].next.Some? {
      assert LeadsTo(w, id, w.index[id].next.value);
    }
    hide FinishBody, ResolveJump;
  }

  /** A branch body that runs out goes on at its resume target, or behind the condition that opened it. */
  lemma BodyRunsOut(w: Workflow, o: Oracle, s: State, id: Id)
    requires RunOut(w, s, id) && Top(s).BodyFrame?
    ensures var below := s.(frames := s.frames[..|s.frames| - 1]);
            Advance(w, o, s, id) ==
            if Top(s).resume != "" then below.(cursor := Top(s).resume) else Advance(w, o, below, Top(s).node)
  {
    RunOutFinishes(w, o, s, id);
    WeightPrefix(s.frames, |s.frames| - 1);
    hide Advance;
  }

  /** A branch of a parallel section that runs out completes; one that is left without having run out just stops. */
  lemma BranchRunsOut(w: Workflow, o: Oracle, s: State, id: Id)
    requires RunOut(w, s, id) && Top(s).BranchFrame? && s.ending == Live
    ensures Advance(w, o, s, id) ==
            s.(cursor := "", finished := true,
               ending := if id in Top(s).ids then Live.(status := Completed) else Live)
  {
    RunOutFinishes(w, o, s, id);
    hide Advance;
  }

  /** The state in which a closed frame is left behind: its variables are gone and its owner was current. */
  function Behind(s: State): State
    requires s.frames != []
  {
    var f := Top(s);
    var gone := if f.LoopFrame? then {"iteration", f.itemVar, f.indexVar} - {""} else {"iteration"};
    s.(frames := s.frames[..|s.frames| - 1], current := f.node, env := s.env.(locals := s.env.locals - gone))
  }

  lemma BehindIsClosed(w: Workflow, o: Oracle, s: State)
    requires s.frames != []
    ensures CloseFrame(w, o, s) == Advance(w, o, Behind(s), Top(s).node)
    ensures LeaveLoop(w, o, s, Top(s)) == Advance(w, o, Behind(s), Top(s).node)
  {
    var f := Top(s);
    assert ErasedNames(f) == if f.LoopFrame? then {"iteration", f.itemVar, f.indexVar} - {""} else {"iteration"};
    WeightPrefix(s.frames, |s.frames| - 1);
    hide Advance, ErasedNames;
  }

  /** What the guard of a `while` loop sees between two passes. */
  function AtGuard(s: State): View
    requires s.frames != [] && Top(s).LoopFrame?
  {
    View(s.env.vars, s.env.locals, s.env.world, Top(s).index)
  }

  /** The loop makes its next pass: first node of the body, index one up, the variables of the pass bound. */
  ghost predicate NextPassBegun(s: State, t: State)
    requires s.frames != [] && Top(s).LoopFrame? && Top(s).ids != []
  {
    var f := Top(s);
    && t.frames == s.frames[..|s.frames| - 1] + [f.(index := f.index + 1, position := 0)]
    && t.cursor == f.ids[0] && t.finished == s.finished && t.current == s.current && t.ending == s.ending
    && t.env == s.env.(locals := t.env.locals)
    && PassBound(s.env.locals, f.(index := f.index + 1), t.env.locals)
  }

  lemma PassBegins(s: State)
    requires s.frames != [] && Top(s).LoopFrame? && Top(s).ids != []
    requires Top(s).index + 1 < Top(s).cap && Top(s).index + 1 < Top(s).total
    ensures NextPassBegun(s, EnterPass(s, Top(s)))
  {
    var f := Top(s);
    var g := f.(index := f.index + 1, position := 0);
    BindsPass(s.env.locals, g);
    assert PassBound(s.env.locals, f.(index := f.index + 1), BindLocals(s.env.locals, g));
    hide BindLocals, PassBound;
  }

  /** A loop body that runs out: another pass while limit, length and guard allow it, else past the loop. */
  lemma LoopRunsOut(w: Workflow, o: Oracle, s: State, id: Id)
    requires RunOut(w, s, id) && Top(s).LoopFrame? && Top(s).ids != []
    ensures NextPass(w, o, s) == Advance(w, o, s, id)
    ensures var f := Top(s);
            var t := Advance(w, o, s, id);
            if f.index + 1 >= f.cap || f.index + 1 >= f.total then t == Advance(w, o, Behind(s), f.node)
            else if !f.whileMode then NextPassBegun(s, t)
            else if !(f.node in w.index && w.index[f.node].kind.Loop?) then t == Advance(w, o, Behind(s), f.node)
            else
              var r := o.guard(f.node, AtGuard(s));
              var asked := s.(env := s.env.(vars := r.vars, world := r.world));
              match r.result
              case Err(e) => t == asked.(finished := true, ending := Live.(thrown := Some(e)))
              case Ok(holds) => if holds then NextPassBegun(asked, t) else t == Advance(w, o, Behind(asked), f.node)
  {
    RunOutFinishes(w, o, s, id);
    OwnLoopFirst(w, o, s);
    PassDecides(w, o, s);
    hide Advance, NextPass, NextPassBegun, NextIteration;
  }

  lemma OwnLoopFirst(w: Workflow, o: Oracle, s: State)
    requires s.frames != [] && Top(s).LoopFrame?
    ensures NextIteration(w, o, s, "") == Some(NextPass(w, o, s))
  {
    hide NextPass;
    assert s.frames[..|s.frames|] == s.frames;
    assert IsLoopFor(Top(s), "");
    assert LoopDepth(s.frames, "") == |s.frames|;
  }

  lemma PassDecides(w: Workflow, o: Oracle, s: State)
    requires s.frames != [] && Top(s).LoopFrame? && Top(s).ids != []
    ensures var f := Top(s);
            var t := NextPass(w, o, s);
            if f.index + 1 >= f.cap || f.index + 1 >= f.total then t == Advance(w, o, Behind(s), f.node)
            else if !f.whileMode then NextPassBegun(s, t)
            else if !(f.node in w.index && w.index[f.node].kind.Loop?) then t == Advance(w, o, Behind(s), f.node)
            else
              var r := o.guard(f.node, AtGuard(s));
              var asked := s.(env := s.env.(vars := r.vars, world := r.world));
              match r.result
              case Err(e) => t == asked.(finished := true, ending := Live.(thrown := Some(e)))
              case Ok(holds) => if holds then NextPassBegun(asked, t) else t == Advance(w, o, Behind(asked), f.node)
  {
    var f := Top(s);
    var r := o.guard(f.node, AtGuard(s));
    var asked := s.(env := s.env.(vars := r.vars, world := r.world));
    assert asked == s.(env := After(s.env, o.guard(f.node, ViewOf(s.env, f.index))));
    BehindIsClosed(w, o, s);
    BehindIsClosed(w, o, asked);
    if f.index + 1 < f.cap && f.index + 1 < f.total {
      PassBegins(s);
      PassBegins(asked);
    }
    hide Advance, LeaveLoop, EnterPass, NextPassBegun, Behind;
  }
}
