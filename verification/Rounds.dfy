// What a round of the main loop does at each kind of node, said in the fields of the node, the open frames and
// the answer given: where control stands next, which frame is opened, and how a run ends.

module Rounds {
  import opened Json
  import opened Blueprint
  import opened Machine
  import opened MainLoop
  import opened Routing

  // ------------------------------------------------------------------ a node begins

  /** An enabled node of this kind is about to run. */
  predicate About(w: Workflow, s: State) {
    && !s.finished && s.env.pending.None? && s.cursor in w.index && s.env.visits < s.env.budget
    && w.index[s.cursor].enabled
  }

  /** What the node sees: the context, the locals, the outside world, and the pass of the loop right around it. */
  function Sight(s: State): View {
    View(s.env.vars, s.env.locals, s.env.world, if s.frames != [] && Top(s).LoopFrame? then Top(s).index else -1)
  }

  /** The node is counted and current, and has left its mark on the context and the outside world. */
  function Ran<T>(s: State, r: Reply<T>): State {
    s.(current := s.cursor,
       env := s.env.(vars := r.vars, world := r.world, visits := s.env.visits + 1,
                     visited := s.env.visited + [s.cursor]))
  }

  /** The reply to a prompt is forgotten once the node it was for has answered. */
  function Forgetful(s: State): State {
    if s.env.resumeNode != "" && s.env.resumeNode == s.current then
      s.(env := s.env.(resumeNode := "", locals := s.env.locals - {"input", "event"}))
    else s
  }

  lemma RanKeeps(s: State, r: Reply<Signal>)
    ensures var t := Forgetful(Ran(s, r));
            && t.frames == s.frames && t.current == s.cursor && t.cursor == s.cursor
            && t.finished == s.finished && t.ending == s.ending
  {
  }

  lemma NodeRuns(w: Workflow, o: Oracle, s: State)
    requires WellIndexed(w) && About(w, s)
    ensures var at := s.(current := s.cursor, env := s.env.(visits := s.env.visits + 1,
                                                            visited := s.env.visited + [s.cursor]));
            && Step(w, o, s) == RunNode(w, o, at, w.index[s.cursor])
            && ViewOf(at.env, Iteration(at.frames)) == Sight(s) && w.index[s.cursor].id == s.cursor
  {
    hide RunNode;
  }

  /** A disabled node is counted and passed over. */
  lemma DisabledIsPassed(w: Workflow, o: Oracle, s: State)
    requires WellIndexed(w) && !s.finished && s.env.pending.None? && s.cursor in w.index
    requires s.env.visits < s.env.budget && !w.index[s.cursor].enabled
    ensures Step(w, o, s) ==
            Advance(w, o, s.(current := s.cursor, env := s.env.(visits := s.env.visits + 1,
                                                                visited := s.env.visited + [s.cursor])), s.cursor)
  {
    hide Advance;
  }

  /** The node that is one too many ends the run without being visited. */
  lemma BudgetEnds(w: Workflow, o: Oracle, s: State)
    requires WellIndexed(w) && !s.finished && s.env.pending.None? && s.cursor in w.index
    requires s.env.visits >= s.env.budget
    ensures var t := Step(w, o, s);
            && t.finished && t.ending.status == Failed && t.ending.failure.Some? && t.frames == s.frames
            && t.ending.failure.value.code == "LIMIT_EXCEEDED" && t.ending.failure.value.node == s.cursor
            && t.env == s.env.(visits := s.env.visits + 1)
  {
  }

  // ------------------------------------------------------------------ tasks

  lemma TaskRuns(w: Workflow, o: Oracle, s: State)
    requires WellIndexed(w) && About(w, s) && w.index[s.cursor].kind.Leaf?
    ensures var r := o.leaf(s.cursor, Sight(s));
            Step(w, o, s) ==
            if r.result.Err? then Raise(w, o, Ran(s, r), r.result.error, s.cursor)
            else Obey(w, o, Forgetful(Ran(s, r)), w.index[s.cursor], r.result.value)
  {
    NodeRuns(w, o, s);
    hide Raise, Obey, Step, ViewOf;
  }

  /** A task that goes on: control passes on from its node. */
  lemma TaskContinues(w: Workflow, o: Oracle, s: State)
    requires WellIndexed(w) && About(w, s) && w.index[s.cursor].kind.Leaf?
    requires o.leaf(s.cursor, Sight(s)).result == Ok(Continue)
    ensures Step(w, o, s) == Advance(w, o, Forgetful(Ran(s, o.leaf(s.cursor, Sight(s)))), s.cursor)
  {
    TaskRuns(w, o, s);
    hide Step, Advance;
  }

  /** Its edge out of the open body is taken. */
  lemma TaskLeavesBody(w: Workflow, o: Oracle, s: State, target: Id)
    requires WellIndexed(w) && About(w, s) && w.index[s.cursor].kind.Leaf?
    requires o.leaf(s.cursor, Sight(s)).result == Ok(Continue)
    requires s.frames != [] && s.cursor in Top(s).ids && LeadsTo(w, s.cursor, target) && target !in Top(s).ids
    ensures StandsAt(Forgetful(Ran(s, o.leaf(s.cursor, Sight(s)))), target, Step(w, o, s))
    ensures Step(w, o, s).cursor == target
    ensures (forall k :: 0 <= k < |s.frames| ==> target == "" || target !in s.frames[k].ids) && target != "" ==>
              Step(w, o, s).frames == []
    ensures forall k: nat :: target != "" && HeldAt(s.frames, target, k) ==>
              |Step(w, o, s).frames| == k + 1 && Step(w, o, s).frames[..k] == s.frames[..k]
  {
    TaskContinues(w, o, s);
    var s1 := Forgetful(Ran(s, o.leaf(s.cursor, Sight(s))));
    RanKeeps(s, o.leaf(s.cursor, Sight(s)));
    EdgeLeavesBody(w, o, s1, s.cursor, target);
    StandsIn(s1, target, Step(w, o, s));
    hide Step, Advance, Ran, Forgetful, Sight, StandsAt, About, WellIndexed, HeldAt;
  }

  lemma StandsIn(s: State, target: Id, t: State)
    requires StandsAt(s, target, t)
    ensures t.cursor == target
    ensures target != "" && (forall k :: 0 <= k < |s.frames| ==> target !in s.frames[k].ids) ==> t.frames == []
    ensures forall k: nat :: target != "" && HeldAt(s.frames, target, k) ==>
              |t.frames| == k + 1 && t.frames[..k] == s.frames[..k]
  {
    hide PassBound;
  }

  /** Any other node that is not the last of the body is followed by its sibling. */
  lemma TaskHasSibling(w: Workflow, o: Oracle, s: State, k: nat)
    requires WellIndexed(w) && About(w, s) && w.index[s.cursor].kind.Leaf?
    requires o.leaf(s.cursor, Sight(s)).result == Ok(Continue)
    requires s.frames != [] && k + 1 < |Top(s).ids| && Top(s).ids[k] == s.cursor && s.cursor !in Top(s).ids[..k]
    requires forall target :: LeadsTo(w, s.cursor, target) ==> target in Top(s).ids
    ensures Step(w, o, s).cursor == Top(s).ids[k + 1]
    ensures Step(w, o, s).frames == s.frames[..|s.frames| - 1] + [Top(s).(position := k + 1)]
  {
    TaskContinues(w, o, s);
    RanKeeps(s, o.leaf(s.cursor, Sight(s)));
    SiblingFollows(w, o, Forgetful(Ran(s, o.leaf(s.cursor, Sight(s)))), k);
    hide Step, Advance, Ran, Forgetful, Sight, About, WellIndexed;
  }

  lemma TaskJumps(w: Workflow, o: Oracle, s: State, target: Id)
    requires WellIndexed(w) && About(w, s) && w.index[s.cursor].kind.Leaf?
    requires o.leaf(s.cursor, Sight(s)).result == Ok(JumpTo(target))
    ensures StandsAt(Forgetful(Ran(s, o.leaf(s.cursor, Sight(s)))), target, Step(w, o, s))
  {
    TaskRuns(w, o, s);
    JumpStands(Forgetful(Ran(s, o.leaf(s.cursor, Sight(s)))), target);
    hide Step, ResolveJump, StandsAt;
  }

  /**
   * A task that suspends ends this part of the run, with everything open as it is. The session waits for input or
   * for something else, as the request says; it is picked up where the request says, else at the prompt itself,
   * else behind the task, else at a task that polls a condition, else nowhere.
   */
  lemma TaskSuspends(w: Workflow, o: Oracle, s: State, request: SuspendRequest)
    requires WellIndexed(w) && About(w, s) && w.index[s.cursor].kind.Leaf?
    requires o.leaf(s.cursor, Sight(s)).result == Ok(Suspend(request))
    ensures var t := Step(w, o, s);
            && t.finished && t.frames == s.frames
            && t.env == Forgetful(Ran(s, o.leaf(s.cursor, Sight(s)))).env
            && t.ending.suspend == Some(request) && t.ending.failure.None? && t.ending.thrown.None?
            && (request.reason == "input" ==> t.ending.status == AwaitingInput)
            && (request.reason != "input" ==> t.ending.status == Suspended)
            && (request.resumeNode != "" ==> t.cursor == request.resumeNode)
            && (request.resumeNode == "" && request.reason == "input" ==> t.cursor == s.cursor)
            && (request.resumeNode == "" && request.reason != "input" ==>
                  if exists next :: next != "" && LeadsTo(w, s.cursor, next) then LeadsTo(w, s.cursor, t.cursor)
                  else t.cursor == if request.reason == "timer" && request.awaitCondition then s.cursor else "")
  {
    TaskRuns(w, o, s);
    hide Step;
    if w.index[s.cursor].next.Some? {
      assert LeadsTo(w, s.cursor, w.index[s.cursor].next.value);
    }
  }

  /** A task that terminates ends the run: with success, or failed under its own error code or the general one. */
  lemma TaskTerminates(w: Workflow, o: Oracle, s: State, status: string, code: Option<string>, payload: Json)
    requires WellIndexed(w) && About(w, s) && w.index[s.cursor].kind.Leaf?
    requires o.leaf(s.cursor, Sight(s)).result == Ok(Terminate(status, code, payload))
    ensures var t := Step(w, o, s);
            && t.finished && t.frames == s.frames && t.ending.payload == payload
            && t.ending.suspend.None? && t.ending.thrown.None?
            && (status == "success" ==> t.ending.status == Terminated && t.ending.failure.None?)
            && (status != "success" ==>
                  && t.ending.status == Failed && t.ending.failure.Some? && t.ending.failure.value.node == s.cursor
                  && (code.Some? ==> t.ending.failure.value.code == code.value)
                  && (code.None? ==> t.ending.failure.value.code == "WORKFLOW_FAILED"))
  {
    TaskRuns(w, o, s);
    hide Step;
  }

  /** Frame `k` is the loop that is named, or the innermost one if no name is given. */
  predicate LoopAt(frames: seq<Frame>, name: Id, k: nat) {
    && k < |frames| && frames[k].LoopFrame? && (name == "" || frames[k].node == name)
    && forall j :: k < j < |frames| && frames[j].LoopFrame? ==> name != "" && frames[j].node != name
  }

  lemma LoopIsDepth(frames: seq<Frame>, name: Id, k: nat)
    ensures LoopAt(frames, name, k) <==> LoopDepth(frames, name) == k + 1
  {
    hide LoopDepth;
  }

  lemma NoLoopNoDepth(frames: seq<Frame>, name: Id)
    requires forall k: nat :: !LoopAt(frames, name, k)
    ensures LoopDepth(frames, name) == 0
  {
    var d := LoopDepth(frames, name);
    if d > 0 {
      LoopIsDepth(frames, name, d - 1);
    }
  }

  /** `break` leaves that loop and everything opened inside it; without such a loop the run fails. */
  lemma TaskBreaks(w: Workflow, o: Oracle, s: State, name: Id)
    requires WellIndexed(w) && About(w, s) && w.index[s.cursor].kind.Leaf?
    requires o.leaf(s.cursor, Sight(s)).result == Ok(LoopBreak(name))
    ensures var s1 := Forgetful(Ran(s, o.leaf(s.cursor, Sight(s))));
            forall k: nat :: LoopAt(s.frames, name, k) ==>
              Step(w, o, s) == Advance(w, o, Behind(s1.(frames := s.frames[..k + 1])), s.frames[k].node)
    ensures (forall k: nat :: !LoopAt(s.frames, name, k)) ==>
              Misplaced(Forgetful(Ran(s, o.leaf(s.cursor, Sight(s)))), s.cursor, Step(w, o, s))
  {
    var s1 := Forgetful(Ran(s, o.leaf(s.cursor, Sight(s))));
    TaskRuns(w, o, s);
    RanKeeps(s, o.leaf(s.cursor, Sight(s)));
    BreakObeyed(w, o, s1, w.index[s.cursor], name);
    hide Step, Advance, Obey, Behind, Ran, Forgetful, Sight, LoopAt, Misplaced;
  }

  lemma BreakObeyed(w: Workflow, o: Oracle, s: State, n: Node, name: Id)
    ensures forall k: nat :: LoopAt(s.frames, name, k) ==>
              Obey(w, o, s, n, LoopBreak(name)) ==
              Advance(w, o, Behind(s.(frames := s.frames[..k + 1])), s.frames[k].node)
    ensures (forall k: nat :: !LoopAt(s.frames, name, k)) ==>
              Misplaced(s, n.id, Obey(w, o, s, n, LoopBreak(name)))
  {
    SignalObeyed(w, o, s, n, name);
    if forall k: nat :: !LoopAt(s.frames, name, k) {
      NoLoopNoDepth(s.frames, name);
      assert FinishLoop(w, o, s, name).None?;
    }
    forall k: nat | LoopAt(s.frames, name, k)
      ensures FinishLoop(w, o, s, name) ==
              Some(Advance(w, o, Behind(s.(frames := s.frames[..k + 1])), s.frames[k].node))
    {
      LoopFinishes(w, o, s, name, k);
    }
    hide *;
  }

  /** What the two loop signals do, with a loop of that name open or without. */
  lemma SignalObeyed(w: Workflow, o: Oracle, s: State, n: Node, name: Id)
    ensures var t := Obey(w, o, s, n, LoopBreak(name));
            && (FinishLoop(w, o, s, name).Some? ==> t == FinishLoop(w, o, s, name).value)
            && (FinishLoop(w, o, s, name).None? ==> Misplaced(s, n.id, t))
    ensures var t := Obey(w, o, s, n, LoopContinue(name));
            && (NextIteration(w, o, s, name).Some? ==> t == NextIteration(w, o, s, name).value)
            && (NextIteration(w, o, s, name).None? ==> Misplaced(s, n.id, t))
  {
    hide FinishLoop, NextIteration;
  }

  lemma LoopFinishes(w: Workflow, o: Oracle, s: State, name: Id, k: nat)
    requires LoopAt(s.frames, name, k)
    ensures FinishLoop(w, o, s, name) ==
            Some(Advance(w, o, Behind(s.(frames := s.frames[..k + 1])), s.frames[k].node))
  {
    LoopIsDepth(s.frames, name, k);
    BehindIsClosed(w, o, s.(frames := s.frames[..k + 1]));
    hide LoopDepth, CloseFrame, Advance, Behind;
  }

  /** `continue` drops what was opened inside that loop and lets the loop decide about its next pass. */
  lemma TaskSkipsAhead(w: Workflow, o: Oracle, s: State, name: Id)
    requires WellIndexed(w) && About(w, s) && w.index[s.cursor].kind.Leaf?
    requires o.leaf(s.cursor, Sight(s)).result == Ok(LoopContinue(name))
    ensures var s1 := Forgetful(Ran(s, o.leaf(s.cursor, Sight(s))));
            forall k: nat :: LoopAt(s.frames, name, k) ==>
              Step(w, o, s) == NextPass(w, o, s1.(frames := s.frames[..k + 1]))
    ensures (forall k: nat :: !LoopAt(s.frames, name, k)) ==>
              Misplaced(Forgetful(Ran(s, o.leaf(s.cursor, Sight(s)))), s.cursor, Step(w, o, s))
  {
    var s1 := Forgetful(Ran(s, o.leaf(s.cursor, Sight(s))));
    TaskRuns(w, o, s);
    RanKeeps(s, o.leaf(s.cursor, Sight(s)));
    ContinueObeyed(w, o, s1, w.index[s.cursor], name);
    hide Step, NextPass, Obey, Ran, Forgetful, Sight, LoopAt, Misplaced;
  }

  lemma ContinueObeyed(w: Workflow, o: Oracle, s: State, n: Node, name: Id)
    ensures forall k: nat :: LoopAt(s.frames, name, k) ==>
              Obey(w, o, s, n, LoopContinue(name)) == NextPass(w, o, s.(frames := s.frames[..k + 1]))
    ensures (forall k: nat :: !LoopAt(s.frames, name, k)) ==>
              Misplaced(s, n.id, Obey(w, o, s, n, LoopContinue(name)))
  {
    SignalObeyed(w, o, s, n, name);
    if forall k: nat :: !LoopAt(s.frames, name, k) {
      NoLoopNoDepth(s.frames, name);
      assert NextIteration(w, o, s, name).None?;
    }
    forall k: nat | LoopAt(s.frames, name, k)
      ensures NextIteration(w, o, s, name) == Some(NextPass(w, o, s.(frames := s.frames[..k + 1])))
    {
      LoopIsDepth(s.frames, name, k);
    }
    hide *;
  }

  /** A loop signal outside such a loop fails the run at the node. */
  predicate Misplaced(s: State, id: Id, t: State) {
    && t.finished && t.frames == s.frames && t.env == s.env && t.ending.status == Failed && t.ending.failure.Some?
    && t.ending.failure.value.code == "ROUTING_ERROR" && t.ending.failure.value.node == id
  }

  // ------------------------------------------------------------------ conditions, loops and tries

  /** A frame is opened on top and control stands at its first node. */
  lemma BodyEntered(s: State, f: Frame)
    requires f.ids != [] && f.ids[0] != "" && f.position == 0
    ensures EnterBody(s, f).cursor == f.ids[0] && EnterBody(s, f).frames == s.frames + [f]
    ensures !f.LoopFrame? ==> EnterBody(s, f) == s.(frames := s.frames + [f], cursor := f.ids[0])
    ensures f.LoopFrame? && s.env == BindIteration(s.env, f) ==>
              EnterBody(s, f) == s.(frames := s.frames + [f], cursor := f.ids[0])
  {
    assert JumpDepth(s.frames + [f], f.ids[0]) == |s.frames| + 1;
    assert (s.frames + [f])[..|s.frames|] == s.frames;
    assert IndexOf(f.ids, f.ids[0]) == 0;
    assert AtPosition(f, 0) == f;
    hide BindIteration, JumpDepth;
  }

  /**
   * A condition opens the body of the branch it takes; if that body is empty, control goes to the target of this
   * branch, and if there is none, past the condition.
   */
  lemma ConditionTakes(w: Workflow, o: Oracle, s: State)
    requires WellIndexed(w) && About(w, s) && w.index[s.cursor].kind.Condition?
    requires o.branch(s.cursor, Sight(s)).result.Ok?
    ensures var r := o.branch(s.cursor, Sight(s));
            var n := w.index[s.cursor];
            var s1 := Ran(s, r);
            var t := Step(w, o, s);
            if r.result.value then
              && (n.kind.thenBody != [] && n.kind.thenBody[0] != "" ==> TookBody(s1, n, n.kind.thenBody, true, t))
              && (n.kind.thenBody == [] && n.kind.onTrue != "" ==> StandsAt(s1, n.kind.onTrue, t))
              && (n.kind.thenBody == [] && n.kind.onTrue == "" ==> t == Advance(w, o, s1, s.cursor))
            else
              && (n.kind.elseBody != [] && n.kind.elseBody[0] != "" ==> TookBody(s1, n, n.kind.elseBody, false, t))
              && (n.kind.elseBody == [] && n.kind.onFalse != "" ==> StandsAt(s1, n.kind.onFalse, t))
              && (n.kind.elseBody == [] && n.kind.onFalse == "" ==> t == Advance(w, o, s1, s.cursor))
  {
    var r := o.branch(s.cursor, Sight(s));
    var n := w.index[s.cursor];
    var s1 := Ran(s, r);
    ConditionStep(w, o, s);
    JumpStands(s1, n.kind.onTrue);
    JumpStands(s1, n.kind.onFalse);
    BodyTaken(s1, n, n.kind.thenBody, true);
    BodyTaken(s1, n, n.kind.elseBody, false);
    hide Step, Advance, ResolveJump, StandsAt, EnterBody, TookBody, Ran, Sight;
  }

  lemma ConditionStep(w: Workflow, o: Oracle, s: State)
    requires WellIndexed(w) && About(w, s) && w.index[s.cursor].kind.Condition?
    requires o.branch(s.cursor, Sight(s)).result.Ok?
    ensures var r := o.branch(s.cursor, Sight(s));
            var n := w.index[s.cursor];
            var body := if r.result.value then n.kind.thenBody else n.kind.elseBody;
            var target := if r.result.value then n.kind.onTrue else n.kind.onFalse;
            Step(w, o, s) ==
            if body != [] then EnterBody(Ran(s, r), BodyFrame(n.id, body, 0, ResumeTarget(n), r.result.value))
            else if target != "" then ResolveJump(Ran(s, r), target)
            else Advance(w, o, Ran(s, r), s.cursor)
  {
    NodeRuns(w, o, s);
    hide Step, Advance, ResolveJump, EnterBody, ViewOf;
  }

  lemma BodyTaken(s: State, n: Node, body: seq<Id>, taken: bool)
    ensures body != [] && body[0] != "" ==>
              TookBody(s, n, body, taken, EnterBody(s, BodyFrame(n.id, body, 0, ResumeTarget(n), taken)))
  {
    if body != [] && body[0] != "" {
      BodyEntered(s, BodyFrame(n.id, body, 0, ResumeTarget(n), taken));
    }
    hide EnterBody;
  }

  predicate TookBody(s: State, n: Node, body: seq<Id>, taken: bool, t: State)
    requires body != []
  {
    t == s.(frames := s.frames + [BodyFrame(n.id, body, 0, if n.next.Some? then n.next.value else "", taken)],
            cursor := body[0])
  }

  /** A try opens its body, with its handlers, its routes and its cleanup in the frame. */
  lemma TryOpens(w: Workflow, o: Oracle, s: State)
    requires WellIndexed(w) && About(w, s) && w.index[s.cursor].kind.Try? && w.index[s.cursor].kind.tryBody[0] != ""
    ensures var n := w.index[s.cursor];
            var t := Step(w, o, s);
            && t.cursor == n.kind.tryBody[0] && t.current == s.cursor && !t.finished
            && t.env == s.env.(visits := s.env.visits + 1, visited := s.env.visited + [s.cursor])
            && t.frames == s.frames + [TryFrame(s.cursor, n.kind.tryBody, 0,
                                                if n.next.Some? then n.next.value else "", InBody,
                                                n.kind.catchBody, n.kind.finallyBody, n.kind.errorVar,
                                                n.kind.catchWhen, None)]
  {
    NodeRuns(w, o, s);
    var n := w.index[s.cursor];
    BodyEntered(s.(current := s.cursor, env := s.env.(visits := s.env.visits + 1,
                                                      visited := s.env.visited + [s.cursor])), TryFrameFor(n));
    hide Step, EnterBody;
  }

  /** A loop over nothing is passed over; any other begins its first pass, at most `maxIterations` of them to come. */
  lemma LoopOpens(w: Workflow, o: Oracle, s: State)
    requires WellIndexed(w) && About(w, s) && w.index[s.cursor].kind.Loop? && w.index[s.cursor].kind.body[0] != ""
    requires o.items(s.cursor, Sight(s)).result.Ok?
    ensures var r := o.items(s.cursor, Sight(s));
            var n := w.index[s.cursor];
            var s1 := Ran(s, r);
            var t := Step(w, o, s);
            if r.result.value == Some([]) then t == Advance(w, o, s1, s.cursor)
            else
              var items := if r.result.value.Some? then r.result.value.value else [];
              var total := if r.result.value.Some? then |items| else n.kind.maxIterations;
              && t.cursor == n.kind.body[0] && t.current == s.cursor && !t.finished
              && t.env == s1.env.(locals := t.env.locals)
              && |t.frames| == |s.frames| + 1 && t.frames[..|s.frames|] == s.frames
              && Top(t) == LoopFrame(s.cursor, n.kind.body, 0, if n.next.Some? then n.next.value else "",
                                     r.result.value.None?, items, 0, total, n.kind.maxIterations,
                                     n.kind.itemVar, n.kind.indexVar, n.kind.onItemError)
              && PassBound(s.env.locals, Top(t), t.env.locals)
  {
    NodeRuns(w, o, s);
    var r := o.items(s.cursor, Sight(s));
    var n := w.index[s.cursor];
    var s1 := Ran(s, r);
    if r.result.value != Some([]) {
      var f := LoopFrameFor(n, r.result.value);
      BindsPass(s1.env.locals, f);
      BoundOnce(s1.env, f);
      BodyEntered(s1.(env := BindIteration(s1.env, f)), f);
      hide BindLocals, PassBound;
    }
    hide Step, EnterBody, Advance, ViewOf;
  }

  lemma BoundOnce(env: Env, f: Frame)
    requires f.LoopFrame?
    ensures BindIteration(BindIteration(env, f), f) == BindIteration(env, f)
  {
  }

  /** An error of a node of any kind is raised there, with what the node did to the context kept. */
  lemma NodeFails(w: Workflow, o: Oracle, s: State, e: Error)
    requires WellIndexed(w) && About(w, s)
    ensures w.index[s.cursor].kind.Leaf? && o.leaf(s.cursor, Sight(s)).result == Err(e) ==>
              Step(w, o, s) == Raise(w, o, Ran(s, o.leaf(s.cursor, Sight(s))), e, s.cursor)
    ensures w.index[s.cursor].kind.Condition? && o.branch(s.cursor, Sight(s)).result == Err(e) ==>
              Step(w, o, s) == Raise(w, o, Ran(s, o.branch(s.cursor, Sight(s))), e, s.cursor)
    ensures w.index[s.cursor].kind.Loop? && o.items(s.cursor, Sight(s)).result == Err(e) ==>
              Step(w, o, s) == Raise(w, o, Ran(s, o.items(s.cursor, Sight(s))), e, s.cursor)
  {
    NodeRuns(w, o, s);
    hide Step, Raise, ViewOf;
  }
}
