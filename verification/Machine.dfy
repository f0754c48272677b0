// The interpreter's frame machine as a transition function on plain states:
// an explicit stack of frames (loop, try, body, branch), a cursor, and the
// routing rules that move between them. Tasks are an oracle.

module Machine {
  import opened Json
  import opened Blueprint

  datatype Error = Error(code: string, message: string, node: Id, data: Json)

  datatype Phase = InBody | InCatch | InFinally

  datatype Frame =
    | LoopFrame(node: Id, ids: seq<Id>, position: int, resume: Id, whileMode: bool, items: seq<Json>,
                index: int, total: int, cap: int, itemVar: string, indexVar: string, onItemError: string)
    | TryFrame(node: Id, ids: seq<Id>, position: int, resume: Id, phase: Phase, catchIds: seq<Id>,
               finallyIds: seq<Id>, errorVar: string, catchWhen: map<string, Id>, propagate: Option<Error>)
    | BodyFrame(node: Id, ids: seq<Id>, position: int, resume: Id, taken: bool)
    | BranchFrame(node: Id, ids: seq<Id>, position: int, resume: Id, branch: int)

  datatype SuspendRequest =
    SuspendRequest(reason: string, node: Id, resumeNode: Id, awaitCondition: bool, inputVar: string, payload: Json)

  datatype Signal =
    | Continue
    | JumpTo(target: Id)
    | Suspend(request: SuspendRequest)
    | Terminate(status: string, errorCode: Option<string>, payload: Json)
    | LoopBreak(loop: Id)      // "" names the innermost loop
    | LoopContinue(loop: Id)

  /** What a task or an expression answers, and the state of the outside world afterwards. */
  datatype Reply<T> = Reply(result: Result<T, Error>, vars: map<string, Json>, world: int)

  /** The session as tasks see it: context variables, locals, and an opaque outside world. */
  datatype View = View(vars: map<string, Json>, locals: map<string, Json>, world: int, iteration: int)

  datatype Oracle = Oracle(
    leaf: (Id, View) -> Reply<Signal>,
    branch: (Id, View) -> Reply<bool>,
    items: (Id, View) -> Reply<Option<seq<Json>>>,
    guard: (Id, View) -> Reply<bool>)

  datatype Status = Running | Completed | Terminated | AwaitingInput | Suspended | Failed

  /** Everything about a run except where control stands. */
  datatype Env = Env(
    vars: map<string, Json>, locals: map<string, Json>, world: int,
    visits: nat, budget: nat, visited: seq<Id>,
    pending: Option<Error>, resumeNode: Id)

  /** How a run ended. `thrown` is an error that left the engine as an exception. */
  datatype Ending = Ending(
    status: Status, failure: Option<Error>, thrown: Option<Error>, suspend: Option<SuspendRequest>, payload: Json)

  datatype State = State(frames: seq<Frame>, cursor: Id, current: Id, env: Env, finished: bool, ending: Ending)

  const Live := Ending(Running, None, None, None, Obj(map[]))

  // ------------------------------------------------------------------ small helpers

  function Top(s: State): Frame
    requires s.frames != []
  {
    s.frames[|s.frames| - 1]
  }

  function Popped(s: State): State
    requires s.frames != []
  {
    s.(frames := s.frames[..|s.frames| - 1])
  }

  function WithTop(s: State, f: Frame): State
    requires s.frames != []
  {
    s.(frames := s.frames[..|s.frames| - 1] + [f])
  }

  function AtPosition(f: Frame, k: int): Frame {
    f.(position := k)
  }

  function Iteration(frames: seq<Frame>): int {
    if frames != [] && frames[|frames| - 1].LoopFrame? then frames[|frames| - 1].index else -1
  }

  function ViewOf(env: Env, iteration: int): View {
    View(env.vars, env.locals, env.world, iteration)
  }

  function After<T>(env: Env, r: Reply<T>): Env {
    env.(vars := r.vars, world := r.world)
  }

  function ErrorJson(e: Error): Json {
    var base := map["code" := Str(e.code), "message" := Str(e.message)];
    var named := if e.node == "" then base else base["node" := Str(e.node)];
    Obj(if e.data == Null then named else named["data" := e.data])
  }

  function Halt(s: State, ending: Ending): State {
    s.(finished := true, ending := ending)
  }

  function Fail(s: State, e: Error): State {
    Halt(s, Live.(status := Failed, failure := Some(e)))
  }

  /** Falling off the graph: a run that is still running completes. */
  function Complete(s: State): State {
    s.(cursor := "", finished := true,
       ending := if s.ending.status == Running then s.ending.(status := Completed) else s.ending)
  }

  predicate SameCount(a: Env, b: Env) {
    a.visits == b.visits && a.budget == b.budget && a.visited == b.visited
  }

  // ------------------------------------------------------------------ loop locals

  function BindLocals(locals: map<string, Json>, f: Frame): map<string, Json>
    requires f.LoopFrame?
  {
    var l0 := if 0 <= f.index < |f.items| && f.itemVar != "" then locals[f.itemVar := f.items[f.index]] else locals;
    var l1 := if f.indexVar != "" then l0[f.indexVar := Num(f.index)] else l0;
    l1["iteration" := Num(f.index)]
  }

  function BindIteration(env: Env, f: Frame): Env
    requires f.LoopFrame?
  {
    env.(locals := BindLocals(env.locals, f))
  }

  /** Names a closing frame takes out of the locals; every frame kind takes `iteration`. */
  function ErasedNames(f: Frame): set<string> {
    {"iteration"} + if f.LoopFrame? then {f.itemVar, f.indexVar} - {""} else {}
  }

  function EraseLocals(env: Env, f: Frame): Env {
    env.(locals := env.locals - ErasedNames(f))
  }

  // ------------------------------------------------------------------ stack searches

  predicate IsLoopFor(f: Frame, name: Id) {
    f.LoopFrame? && (name == "" || f.node == name)
  }

  /** Number of frames up to and including the innermost loop called `name`; 0 if there is none. */
  function LoopDepth(frames: seq<Frame>, name: Id): (d: nat)
    ensures d <= |frames|
    ensures d > 0 ==> IsLoopFor(frames[d - 1], name)
    ensures forall k :: d <= k < |frames| ==> !IsLoopFor(frames[k], name)
  {
    if frames == [] then 0
    else if IsLoopFor(frames[|frames| - 1], name) then |frames|
    else LoopDepth(frames[..|frames| - 1], name)
  }

  /** Number of frames up to and including the innermost one whose ids hold `target`; 0 if there is none. */
  function JumpDepth(frames: seq<Frame>, target: Id): (d: nat)
    ensures d <= |frames|
    ensures d > 0 ==> target in frames[d - 1].ids
    ensures forall k :: d <= k < |frames| ==> target !in frames[k].ids
  {
    if frames == [] then 0
    else if target in frames[|frames| - 1].ids then |frames|
    else JumpDepth(frames[..|frames| - 1], target)
  }

  /** The existing node that a try frame's `when` table names for this error code, or "". */
  function Routed(w: Workflow, f: Frame, code: string): Id
    requires f.TryFrame?
  {
    if code in f.catchWhen && f.catchWhen[code] in w.index then f.catchWhen[code] else ""
  }

  predicate Recovers(w: Workflow, f: Frame, e: Error) {
    || (f.LoopFrame? && f.onItemError != "fail")
    || (f.TryFrame? && f.phase == InBody &&
        !(Routed(w, f, e.code) == "" && f.catchIds == [] && f.catchWhen != map[]))
  }

  function RecoverDepth(w: Workflow, frames: seq<Frame>, e: Error): (d: nat)
    ensures d <= |frames|
    ensures d > 0 ==> Recovers(w, frames[d - 1], e)
    ensures forall k :: d <= k < |frames| ==> !Recovers(w, frames[k], e)
  {
    if frames == [] then 0
    else if Recovers(w, frames[|frames| - 1], e) then |frames|
    else RecoverDepth(w, frames[..|frames| - 1], e)
  }

  // ------------------------------------------------------------------ the measure of a stack

  function Min(a: int, b: int): int {
    if a <= b then a else b
  }

  /** Moves a frame can still make: passes left in a loop, phases left in a try. */
  function FrameWeight(f: Frame): nat {
    match f
    case LoopFrame(_, _, _, _, _, _, index, total, cap, _, _, _) =>
      if index < Min(cap, total) then 1 + Min(cap, total) - index else 1
    case TryFrame(_, _, _, _, phase, _, _, _, _, _) =>
      if phase == InBody then 3 else if phase == InCatch then 2 else 1
    case _ => 1
  }

  function StackWeight(frames: seq<Frame>): nat {
    if frames == [] then 0
    else StackWeight(frames[..|frames| - 1]) + FrameWeight(frames[|frames| - 1])
  }

  lemma WeightAppend(frames: seq<Frame>, f: Frame)
    ensures StackWeight(frames + [f]) == StackWeight(frames) + FrameWeight(f)
  {
    assert (frames + [f])[..|frames + [f]| - 1] == frames;
  }

  lemma WeightTop(s: State, f: Frame)
    requires s.frames != []
    ensures StackWeight(WithTop(s, f).frames) - FrameWeight(f) == StackWeight(s.frames) - FrameWeight(Top(s))
  {
    WeightAppend(s.frames[..|s.frames| - 1], f);
  }

  lemma {:induction false} WeightPrefix(frames: seq<Frame>, d: nat)
    requires d <= |frames|
    ensures StackWeight(frames[..d]) <= StackWeight(frames)
    ensures d < |frames| ==> StackWeight(frames[..d]) < StackWeight(frames)
  {
    if d < |frames| {
      var rest := frames[..|frames| - 1];
      WeightPrefix(rest, d);
      assert rest[..d] == frames[..d];
    } else {
      assert frames[..d] == frames;
    }
  }

  // ------------------------------------------------------------------ routing

  /** A target inside a live frame steps that frame; any other target escapes every frame. */
  function ResolveJump(s: State, target: Id): (t: State)
    ensures StackWeight(t.frames) <= StackWeight(s.frames)
    ensures t.cursor == target && t.finished == s.finished
    ensures SameCount(s.env, t.env)
    ensures t.env.pending == s.env.pending
  {
    if target == "" then s.(cursor := "")
    else
      var d := JumpDepth(s.frames, target);
      if d == 0 then s.(frames := [], cursor := target)
      else
        var f := AtPosition(s.frames[d - 1], IndexOf(s.frames[d - 1].ids, target));
        WeightPrefix(s.frames, d);
        WeightAppend(s.frames[..d - 1], f);
        WeightAppend(s.frames[..d - 1], s.frames[d - 1]);
        assert s.frames[..d - 1] + [s.frames[d - 1]] == s.frames[..d];
        s.(frames := s.frames[..d - 1] + [f], cursor := target,
           env := if f.LoopFrame? then BindIteration(s.env, f) else s.env)
  }

  /** A node of the frame's body whose explicit edge leaves the body. */
  predicate Escapes(w: Workflow, f: Frame, id: Id) {
    id in f.ids && id in w.index && w.index[id].next.Some? && w.index[id].next.value !in f.ids
  }

  /** Where control goes once the node `current` is done. */
  function Advance(w: Workflow, o: Oracle, s: State, current: Id): (t: State)
    ensures StackWeight(t.frames) <= StackWeight(s.frames)
    ensures SameCount(s.env, t.env)
    decreases StackWeight(s.frames), 4
  {
    if s.frames == [] then
      if current in w.index && w.index[current].next.Some? then s.(cursor := w.index[current].next.value)
      else Complete(s)
    else
      var f := Top(s);
      var k := IndexOf(f.ids, current);
      if Escapes(w, f, current) then ResolveJump(s, w.index[current].next.value)
      else if 0 <= k && k + 1 < |f.ids| then
        var f' := AtPosition(f, k + 1);
        WeightAppend(s.frames[..|s.frames| - 1], f');
        WithTop(s, f').(cursor := f.ids[k + 1])
      else
        FinishBody(w, o, s, k >= 0)
  }

  /** The body of the top frame has run out (`atEnd`), or control returns to a frame that does not hold the node. */
  function FinishBody(w: Workflow, o: Oracle, s: State, atEnd: bool): (t: State)
    requires s.frames != []
    ensures StackWeight(t.frames) < StackWeight(s.frames) || t.finished
    ensures StackWeight(t.frames) <= StackWeight(s.frames)
    ensures SameCount(s.env, t.env)
    decreases StackWeight(s.frames), 3
  {
    var f := Top(s);
    WeightPrefix(s.frames, |s.frames| - 1);
    match f
    case LoopFrame(_, _, _, _, _, _, _, _, _, _, _, _) =>
      NextIteration(w, o, s, "").value
    case TryFrame(_, _, _, _, _, _, _, _, _, _) =>
      var t := AdvanceTryPhase(w, o, s);
      if t.cursor != "" || t.finished then t else Advance(w, o, t, f.node)
    case BranchFrame(_, _, _, _, _) =>
      if atEnd then Complete(s) else s.(cursor := "", finished := true)
    case BodyFrame(_, _, _, resume, _) =>
      if resume != "" then Popped(s).(cursor := resume)
      else Advance(w, o, Popped(s), f.node)
  }

  function CloseFrame(w: Workflow, o: Oracle, s: State): (t: State)
    requires s.frames != []
    ensures StackWeight(t.frames) < StackWeight(s.frames)
    ensures SameCount(s.env, t.env)
    decreases StackWeight(s.frames), 0
  {
    var f := Top(s);
    WeightPrefix(s.frames, |s.frames| - 1);
    Advance(w, o, Popped(s).(env := EraseLocals(s.env, f), current := f.node), f.node)
  }

  /** body -> finally, catch -> finally, or out of the try; an error parked during `finally` is raised again. */
  function AdvanceTryPhase(w: Workflow, o: Oracle, s: State): (t: State)
    requires s.frames != [] && Top(s).TryFrame?
    ensures StackWeight(t.frames) < StackWeight(s.frames)
    ensures SameCount(s.env, t.env)
    decreases StackWeight(s.frames), 1
  {
    var f := Top(s);
    if f.phase != InFinally && f.finallyIds != [] then
      var f' := f.(phase := InFinally, ids := f.finallyIds, position := 0);
      WeightAppend(s.frames[..|s.frames| - 1], f');
      WithTop(s, f').(cursor := f.finallyIds[0])
    else if f.propagate.Some? then
      CloseFrame(w, o, s.(env := s.env.(pending := f.propagate,
                                        locals := s.env.locals["error" := ErrorJson(f.propagate.value)])))
    else
      CloseFrame(w, o, s)
  }

  /** The next pass of the loop called `name`, or the end of it; None if no such loop is open. */
  function NextIteration(w: Workflow, o: Oracle, s: State, name: Id): (r: Option<State>)
    ensures r.Some? <==> LoopDepth(s.frames, name) > 0
    ensures r.Some? ==> StackWeight(r.value.frames) < StackWeight(s.frames) || r.value.finished
    ensures r.Some? ==> StackWeight(r.value.frames) <= StackWeight(s.frames)
    ensures r.Some? ==> SameCount(s.env, r.value.env)
    decreases StackWeight(s.frames), 2
  {
    var d := LoopDepth(s.frames, name);
    if d == 0 then None
    else
      WeightPrefix(s.frames, d);
      Some(NextPass(w, o, s.(frames := s.frames[..d])))
  }

  /** The top loop frame has finished a pass. */
  function NextPass(w: Workflow, o: Oracle, s: State): (t: State)
    requires s.frames != [] && Top(s).LoopFrame?
    ensures StackWeight(t.frames) < StackWeight(s.frames) || t.finished
    ensures StackWeight(t.frames) <= StackWeight(s.frames)
    ensures SameCount(s.env, t.env)
    decreases StackWeight(s.frames), 1
  {
    var f := Top(s);
    if f.index + 1 >= f.cap || f.index + 1 >= f.total then LeaveLoop(w, o, s, f)
    else if !f.whileMode then EnterPass(s, f)
    else if f.node in w.index && w.index[f.node].kind.Loop? then
      var r := o.guard(f.node, ViewOf(s.env, f.index));
      var s1 := s.(env := After(s.env, r));
      match r.result
      case Err(e) => Halt(s1, Live.(thrown := Some(e)))
      case Ok(holds) => if holds then EnterPass(s1, f) else LeaveLoop(w, o, s1, f)
    else LeaveLoop(w, o, s, f)
  }

  function LeaveLoop(w: Workflow, o: Oracle, s: State, f: Frame): (t: State)
    requires s.frames != [] && f == Top(s)
    ensures StackWeight(t.frames) < StackWeight(s.frames)
    ensures SameCount(s.env, t.env)
    decreases StackWeight(s.frames), 0
  {
    WeightPrefix(s.frames, |s.frames| - 1);
    Advance(w, o, Popped(s).(env := EraseLocals(s.env, f), current := f.node), f.node)
  }

  function EnterPass(s: State, f: Frame): (t: State)
    requires s.frames != [] && f == Top(s) && f.LoopFrame? && f.index + 1 < f.cap && f.index + 1 < f.total
    ensures StackWeight(t.frames) < StackWeight(s.frames)
    ensures SameCount(s.env, t.env)
  {
    var f' := f.(index := f.index + 1, position := 0);
    WeightAppend(s.frames[..|s.frames| - 1], f');
    WithTop(s, f').(env := BindIteration(s.env, f'), cursor := if f.ids == [] then "" else f.ids[0])
  }

  /** `break`: close the named loop, dropping every frame opened inside it. */
  function FinishLoop(w: Workflow, o: Oracle, s: State, name: Id): (r: Option<State>)
    ensures r.Some? <==> LoopDepth(s.frames, name) > 0
    ensures r.Some? ==> SameCount(s.env, r.value.env)
  {
    var d := LoopDepth(s.frames, name);
    if d == 0 then None else Some(CloseFrame(w, o, s.(frames := s.frames[..d])))
  }

  // ------------------------------------------------------------------ errors

  /** Nearest handler wins: the node's own `on_error`, then the innermost frame that recovers. */
  function HandleError(w: Workflow, o: Oracle, s: State, e: Error): (r: Option<State>)
    ensures r.Some? ==> StackWeight(r.value.frames) <= StackWeight(s.frames)
    ensures r.Some? ==> SameCount(s.env, r.value.env)
    ensures r.Some? && !HasHandler(w, s.current) ==>
              StackWeight(r.value.frames) < StackWeight(s.frames) || r.value.finished
    ensures r.Some? && HasHandler(w, s.current) ==>
              && r.value.cursor == w.index[s.current].onError.value
              && r.value.env.pending == s.env.pending
  {
    if HasHandler(w, s.current) then
      Some(ResolveJump(s.(env := s.env.(locals := s.env.locals["error" := ErrorJson(e)])),
                       w.index[s.current].onError.value))
    else
      var d := RecoverDepth(w, s.frames, e);
      if d == 0 then None
      else if s.frames[d - 1].LoopFrame? then
        assert IsLoopFor(s.frames[d - 1], "");
        NextIteration(w, o, s, "")
      else
        WeightPrefix(s.frames, d);
        Some(RecoverInTry(w, o, s.(frames := s.frames[..d]), e))
  }

  predicate HasHandler(w: Workflow, id: Id) {
    id in w.index && w.index[id].onError.Some? && w.index[id].onError.value != ""
  }

  /** The body of the top try frame failed: catch, else finally with the error parked, else out with it pending. */
  function RecoverInTry(w: Workflow, o: Oracle, s: State, e: Error): (t: State)
    requires s.frames != [] && Top(s).TryFrame? && Top(s).phase == InBody
    ensures StackWeight(t.frames) < StackWeight(s.frames)
    ensures SameCount(s.env, t.env)
  {
    var f := Top(s);
    var routed := Routed(w, f, e.code);
    var handlers := if routed != "" then [routed] else f.catchIds;
    if handlers != [] then
      var f' := f.(phase := InCatch, ids := handlers, position := 0);
      WeightTop(s, f');
      WithTop(s, f').(cursor := handlers[0], env := BindError(s.env, f.errorVar, e))
    else if f.finallyIds != [] then
      var f' := f.(phase := InFinally, ids := f.finallyIds, position := 0, propagate := Some(e));
      WeightTop(s, f');
      WithTop(s, f').(cursor := f.finallyIds[0])
    else
      CloseFrame(w, o, s.(env := s.env.(pending := Some(e))))
  }

  function BindError(env: Env, name: string, e: Error): Env {
    var l0 := env.locals["error" := ErrorJson(e)];
    if name == "" then env.(locals := l0)
    else env.(locals := if name != "error" then l0[name := ErrorJson(e)] else l0,
              vars := env.vars[name := ErrorJson(e)])
  }

  /** An error raised while `blame` ran: handled, or the end of the run. */
  function Raise(w: Workflow, o: Oracle, s: State, e: Error, blame: Id): (t: State)
    ensures SameCount(s.env, t.env)
  {
    match HandleError(w, o, s, e)
    case Some(t) => t
    case None => Fail(s, if e.node == "" then e.(node := blame) else e)
  }

  function Break(w: Workflow, o: Oracle, s: State, name: Id, blame: Id): (t: State)
    ensures SameCount(s.env, t.env)
  {
    match FinishLoop(w, o, s, name)
    case Some(t) => t
    case None => Fail(s, RoutingError(blame))
  }

  function ContinueLoop(w: Workflow, o: Oracle, s: State, name: Id, blame: Id): (t: State)
    ensures SameCount(s.env, t.env)
  {
    match NextIteration(w, o, s, name)
    case Some(t) => t
    case None => Fail(s, RoutingError(blame))
  }

  function RoutingError(node: Id): Error {
    Error("ROUTING_ERROR", "", node, Null)
  }

  function LimitError(node: Id): Error {
    Error("LIMIT_EXCEEDED", "", node, Null)
  }

  /** Control reached no node: an error of the node it came from, or a failure that names none. */
  function Stray(w: Workflow, o: Oracle, s: State): (t: State)
    ensures SameCount(s.env, t.env)
  {
    match HandleError(w, o, s.(cursor := ""), RoutingError(s.current))
    case Some(t) => t
    case None => Fail(s.(cursor := ""), RoutingError(""))
  }

  /** But for the node a failure names, this is an error raised without a cursor. */
  lemma StrayIsRaise(w: Workflow, o: Oracle, s: State)
    ensures var r := Raise(w, o, s.(cursor := ""), RoutingError(s.current), "");
            Stray(w, o, s) ==
              if HandleError(w, o, s.(cursor := ""), RoutingError(s.current)).Some? then r
              else r.(ending := Live.(status := Failed, failure := Some(RoutingError(""))))
    ensures HandleError(w, o, s.(cursor := ""), RoutingError(s.current)).None? ==>
              Raise(w, o, s.(cursor := ""), RoutingError(s.current), "").finished
  {
    hide HandleError;
  }

  // ------------------------------------------------------------------ one round of the main loop

  function Step(w: Workflow, o: Oracle, s: State): State
    requires WellIndexed(w) && !s.finished
  {
    if s.env.pending.Some? then
      Raise(w, o, s.(env := s.env.(pending := None)), s.env.pending.value, "")
    else if s.cursor == "" then Complete(s)
    else if s.cursor !in w.index then
      Stray(w, o, s)
    else
      var n := w.index[s.cursor];
      var s1 := s.(current := n.id, env := s.env.(visits := s.env.visits + 1));
      if s1.env.visits > s1.env.budget then Fail(s1, LimitError(n.id))
      else
        var s2 := s1.(env := s1.env.(visited := s1.env.visited + [n.id]));
        if n.enabled then RunNode(w, o, s2, n) else Advance(w, o, s2, n.id)
  }

  function RunNode(w: Workflow, o: Oracle, s: State, n: Node): (t: State)
    requires WellIndexed(w) && n.id in w.index && w.index[n.id] == n
    ensures SameCount(s.env, t.env)
  {
    match n.kind
    case Leaf(_, _) => StepLeaf(w, o, s, n)
    case Loop(_, _, _, _, _) => StepLoop(w, o, s, n)
    case Try(_, _, _, _, _) => EnterBody(s, TryFrameFor(n))
    case Condition(_, _, _, _) => StepCondition(w, o, s, n)
  }

  function EnterBody(s: State, f: Frame): (t: State)
    requires f.ids != []
    ensures SameCount(s.env, t.env)
  {
    ResolveJump(s.(frames := s.frames + [f]), f.ids[0])
  }

  function ResumeTarget(n: Node): Id {
    if n.next.Some? then n.next.value else ""
  }

  function TryFrameFor(n: Node): Frame
    requires n.kind.Try?
  {
    TryFrame(n.id, n.kind.tryBody, 0, ResumeTarget(n), InBody, n.kind.catchBody, n.kind.finallyBody,
             n.kind.errorVar, n.kind.catchWhen, None)
  }

  /** A loop over `items`, or one that runs on its guard when there is no item source. */
  function LoopFrameFor(n: Node, items: Option<seq<Json>>): Frame
    requires n.kind.Loop?
  {
    LoopFrame(n.id, n.kind.body, 0, ResumeTarget(n), items.None?, if items.Some? then items.value else [],
              0, if items.Some? then |items.value| else n.kind.maxIterations,
              n.kind.maxIterations, n.kind.itemVar, n.kind.indexVar, n.kind.onItemError)
  }

  function StepLoop(w: Workflow, o: Oracle, s: State, n: Node): (t: State)
    requires n.kind.Loop? && n.kind.body != []
    ensures SameCount(s.env, t.env)
  {
    var r := o.items(n.id, ViewOf(s.env, Iteration(s.frames)));
    var s1 := s.(env := After(s.env, r));
    match r.result
    case Err(e) => Raise(w, o, s1, e, n.id)
    case Ok(items) =>
      if items == Some([]) then Advance(w, o, s1, n.id)
      else
        var f := LoopFrameFor(n, items);
        EnterBody(s1.(env := BindIteration(s1.env, f)), f)
  }

  function StepCondition(w: Workflow, o: Oracle, s: State, n: Node): (t: State)
    requires n.kind.Condition?
    ensures SameCount(s.env, t.env)
  {
    var r := o.branch(n.id, ViewOf(s.env, Iteration(s.frames)));
    var s1 := s.(env := After(s.env, r));
    match r.result
    case Err(e) => Raise(w, o, s1, e, n.id)
    case Ok(taken) =>
      var body := if taken then n.kind.thenBody else n.kind.elseBody;
      var target := if taken then n.kind.onTrue else n.kind.onFalse;
      if body != [] then EnterBody(s1, BodyFrame(n.id, body, 0, ResumeTarget(n), taken))
      else if target != "" then ResolveJump(s1, target)
      else Advance(w, o, s1, n.id)
  }

  /** The per-activation locals of a resumed node are dropped once it has run. */
  function ForgetAnswer(env: Env, id: Id): Env {
    if env.resumeNode != "" && env.resumeNode == id then
      env.(resumeNode := "", locals := env.locals - {"input", "event"})
    else env
  }

  function StepLeaf(w: Workflow, o: Oracle, s: State, n: Node): (t: State)
    ensures SameCount(s.env, t.env)
  {
    var r := o.leaf(n.id, ViewOf(s.env, Iteration(s.frames)));
    var s1 := s.(env := After(s.env, r));
    match r.result
    case Err(e) => Raise(w, o, s1, e, n.id)
    case Ok(signal) => Obey(w, o, s1.(env := ForgetAnswer(s1.env, n.id)), n, signal)
  }

  function Obey(w: Workflow, o: Oracle, s: State, n: Node, signal: Signal): (t: State)
    ensures SameCount(s.env, t.env)
  {
    match signal
    case Continue => Advance(w, o, s, n.id)
    case JumpTo(target) => ResolveJump(s, target)
    case Suspend(request) => Halt(s.(cursor := ResumeCursor(n, request)), SuspendEnding(request))
    case Terminate(_, _, _) => Halt(s, TerminateEnding(signal, n.id))
    case LoopBreak(name) => Break(w, o, s, name, n.id)
    case LoopContinue(name) => ContinueLoop(w, o, s, name, n.id)
  }

  /** Where a suspended session is picked up; prompts and condition waits re-enter their own node. */
  function ResumeCursor(n: Node, r: SuspendRequest): Id {
    if r.resumeNode != "" then r.resumeNode
    else if r.reason == "input" then n.id
    else if ResumeTarget(n) != "" then ResumeTarget(n)
    else if r.reason == "timer" && r.awaitCondition then n.id
    else ""
  }

  function SuspendEnding(r: SuspendRequest): Ending {
    Live.(status := if r.reason == "input" then AwaitingInput else Suspended, suspend := Some(r))
  }

  function TerminateEnding(signal: Signal, id: Id): Ending
    requires signal.Terminate?
  {
    if signal.status == "success" then Live.(status := Terminated, payload := signal.payload)
    else
      var code := if signal.errorCode.Some? then signal.errorCode.value else "WORKFLOW_FAILED";
      Live.(status := Failed, failure := Some(Error(code, "", id, Null)), payload := signal.payload)
  }
}
