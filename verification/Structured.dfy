// Structured workflows, and what they mean without any frame stack: a recursive
// interpreter over nested sequences, conditions, loops and tries.

module Structured {
  import opened Json
  import opened Blueprint
  import opened Machine

  datatype Stmt =
    | Task(id: Id, enabled: bool, terminal: bool)
    | If(id: Id, enabled: bool, thenPart: seq<Stmt>, elsePart: seq<Stmt>)
    | Repeat(id: Id, enabled: bool, limit: int, onItemError: string, itemVar: string, indexVar: string, body: seq<Stmt>)
    | Guarded(id: Id, enabled: bool, errorVar: string, body: seq<Stmt>, handler: seq<Stmt>, cleanup: seq<Stmt>)

  /** How a statement ends; `at` is the node that decided it. */
  datatype Outcome =
    | Normal
    | Broke(loop: Id, at: Id)
    | Continued(loop: Id, at: Id)
    | Raised(error: Error, at: Id)
    | Stopped(ending: Ending)
    | Jumped   // a task jumped somewhere: no structured meaning

  predicate NamesLoop(name: Id, s: Stmt) {
    name == "" || name == s.id
  }

  /** An error met while every handler in reach is a loop that skips failing items ends the current pass. */
  function RaiseIn(e: Error, at: Id, skips: bool): Outcome {
    if skips then Continued("", at) else Raised(e, at)
  }

  function Passes(s: Stmt, items: Option<seq<Json>>): int
    requires s.Repeat?
  {
    Min(s.limit, if items.Some? then |items.value| else s.limit)
  }

  /** The locals a pass sees: its item, its index, and `iteration`. */
  function BindPass(env: Env, s: Stmt, items: Option<seq<Json>>, k: int): Env
    requires s.Repeat?
  {
    var l0 := if items.Some? && 0 <= k < |items.value| && s.itemVar != "" then env.locals[s.itemVar := items.value[k]]
              else env.locals;
    var l1 := if s.indexVar != "" then l0[s.indexVar := Num(k)] else l0;
    env.(locals := l1["iteration" := Num(k)])
  }

  function UnbindPass(env: Env, s: Stmt): Env
    requires s.Repeat?
  {
    env.(locals := env.locals - ({"iteration"} + ({s.itemVar, s.indexVar} - {""})))
  }

  function CountVisit(env: Env, id: Id): Env {
    env.(visits := env.visits + 1, visited := env.visited + [id])
  }

  /** `skips`: the nearest enclosing construct that recovers from errors is a loop; `it`: the index tasks see. */
  function Exec(o: Oracle, s: Stmt, env: Env, skips: bool, it: int): (Outcome, Env)
    decreases s, 3, 0
  {
    if env.pending.Some? then (RaiseIn(env.pending.value, "", skips), env.(pending := None))
    else if env.visits + 1 > env.budget then
      (Stopped(Live.(status := Failed, failure := Some(LimitError(s.id)))), env.(visits := env.visits + 1))
    else if !s.enabled then (Normal, CountVisit(env, s.id))
    else
      var env0 := CountVisit(env, s.id);
      match s
      case Task(_, _, _) => ExecTask(o, s.id, env0, skips, it)
      case If(_, _, _, _) => ExecIf(o, s, env0, skips, it)
      case Repeat(_, _, _, _, _, _, _) => ExecRepeat(o, s, env0, skips, it)
      case Guarded(_, _, _, _, _, _) => ExecGuarded(o, s, env0, skips)
  }

  function ExecIf(o: Oracle, s: Stmt, env: Env, skips: bool, it: int): (Outcome, Env)
    requires s.If?
    decreases s, 2, 0
  {
    var r := o.branch(s.id, ViewOf(env, it));
    match r.result
    case Err(e) => (RaiseIn(e, s.id, skips), After(env, r))
    case Ok(taken) => ExecFrom(o, if taken then s.thenPart else s.elsePart, 0, After(env, r), skips, -1)
  }

  function ExecRepeat(o: Oracle, s: Stmt, env: Env, skips: bool, it: int): (Outcome, Env)
    requires s.Repeat?
    decreases s, 2, 0
  {
    var r := o.items(s.id, ViewOf(env, it));
    var env1 := After(env, r);
    match r.result
    case Err(e) => (RaiseIn(e, s.id, skips), env1)
    case Ok(items) =>
      if items == Some([]) then (Normal, env1)
      else ExecPasses(o, s, items, 0, BindPass(env1, s, items, 0), skips)
  }

  /** An error in the body goes to the handler if there is one; only a normal end leads on to the cleanup. */
  function ExecGuarded(o: Oracle, s: Stmt, env: Env, skips: bool): (Outcome, Env)
    requires s.Guarded?
    decreases s, 2, 0
  {
    var (out, env1) := ExecFrom(o, s.body, 0, env, false, -1);
    if out.Normal? then ExecCleanup(o, s, env1, skips, None)
    else if !out.Raised? then (out, env1)
    else if s.handler == [] then ExecCleanup(o, s, env1, skips, Some(out.error))
    else ExecHandler(o, s, BindError(env1, s.errorVar, out.error), skips)
  }

  function ExecHandler(o: Oracle, s: Stmt, env: Env, skips: bool): (Outcome, Env)
    requires s.Guarded?
    decreases s, 1, 1
  {
    var (out, env1) := ExecFrom(o, s.handler, 0, env, skips, -1);
    if out.Normal? then ExecCleanup(o, s, env1, skips, None) else (out, env1)
  }

  function ExecTask(o: Oracle, id: Id, env: Env, skips: bool, it: int): (Outcome, Env) {
    var r := o.leaf(id, ViewOf(env, it));
    match r.result
    case Err(e) => (RaiseIn(e, id, skips), After(env, r))
    case Ok(signal) =>
      var env1 := ForgetAnswer(After(env, r), id);
      match signal
      case Continue => (Normal, env1)
      case JumpTo(_) => (Jumped, env1)
      case Suspend(request) => (Stopped(SuspendEnding(request)), env1)
      case Terminate(_, _, _) => (Stopped(TerminateEnding(signal, id)), env1)
      case LoopBreak(name) => (Broke(name, id), env1)
      case LoopContinue(name) => (Continued(name, id), env1)
  }

  /** The rest of a sequence, from position `i`. */
  function ExecFrom(o: Oracle, ss: seq<Stmt>, i: nat, env: Env, skips: bool, it: int): (Outcome, Env)
    requires i <= |ss|
    decreases ss, 0, |ss| - i
  {
    if i == |ss| then (Normal, env)
    else
      var (out, env1) := Exec(o, ss[i], env, skips, it);
      if out.Normal? then ExecFrom(o, ss, i + 1, env1, skips, it) else (out, env1)
  }

  /** The pass is over and the loop may go on. */
  predicate KeepsLooping(out: Outcome, s: Stmt) {
    out.Normal? || (out.Continued? && NamesLoop(out.loop, s))
  }

  /** Pass `k` of a loop and the passes after it. */
  function ExecPasses(o: Oracle, s: Stmt, items: Option<seq<Json>>, k: nat, env: Env, skips: bool): (Outcome, Env)
    requires s.Repeat?
    decreases s, 1, if k < Passes(s, items) then Passes(s, items) - k else 0, 1
  {
    var (out, env1) := ExecFrom(o, s.body, 0, env, skips || s.onItemError != "fail", k);
    if KeepsLooping(out, s) then ExecNextPass(o, s, items, k, env1, skips)
    else if out.Broke? && NamesLoop(out.loop, s) then (Normal, UnbindPass(env1, s))
    else (out, env1)
  }

  /** After pass `k`: the next pass while there is one. A guard is asked before every pass but the first. */
  function ExecNextPass(o: Oracle, s: Stmt, items: Option<seq<Json>>, k: nat, env: Env, skips: bool): (Outcome, Env)
    requires s.Repeat?
    decreases s, 1, if k < Passes(s, items) then Passes(s, items) - k else 0, 0
  {
    if k + 1 >= Passes(s, items) then (Normal, UnbindPass(env, s))
    else if items.Some? then ExecPasses(o, s, items, k + 1, BindPass(env, s, items, k + 1), skips)
    else
      var r := o.guard(s.id, ViewOf(env, k));
      var env1 := After(env, r);
      match r.result
      case Err(e) => (Stopped(Live.(thrown := Some(e))), env1)
      case Ok(holds) =>
        if holds then ExecPasses(o, s, items, k + 1, BindPass(env1, s, items, k + 1), skips)
        else (Normal, UnbindPass(env1, s))
  }

  /** `finally`, then out of the try; an error the try could not catch is raised at whatever comes next. */
  function ExecCleanup(o: Oracle, s: Stmt, env: Env, skips: bool, parked: Option<Error>): (Outcome, Env)
    requires s.Guarded?
    decreases s, 1, 0
  {
    var (out, env1) := ExecFrom(o, s.cleanup, 0, env, skips, -1);
    if !out.Normal? then (out, env1)
    else
      var env2 := if parked.None? then env1
                  else env1.(pending := parked, locals := env1.locals["error" := ErrorJson(parked.value)]);
      (Normal, env2.(locals := env2.locals - {"iteration"}))
  }

  /** A whole program: top-level statements in order; a `terminate` node has no successor. */
  function ExecTop(o: Oracle, p: seq<Stmt>, i: nat, env: Env): (Outcome, Env)
    requires i <= |p|
    decreases |p| - i
  {
    if i == |p| then (Normal, env)
    else
      var (out, env1) := Exec(o, p[i], env, false, -1);
      if out.Normal? && !(p[i].Task? && p[i].terminal) then ExecTop(o, p, i + 1, env1) else (out, env1)
  }

  function EndingOf(out: Outcome): Ending {
    match out
    case Normal => Live.(status := Completed)
    case Broke(_, at) => Live.(status := Failed, failure := Some(RoutingError(at)))
    case Continued(_, at) => Live.(status := Failed, failure := Some(RoutingError(at)))
    case Raised(e, at) => Live.(status := Failed, failure := Some(if e.node == "" then e.(node := at) else e))
    case Stopped(ending) => ending
    case Jumped => Live
  }

  // ------------------------------------------------------------------ loops make min(length, limit) passes

  /** What pass `k` of a collection loop starts from, when passes 0, 1, ..., k-1 ran in that order. */
  function PassStart(o: Oracle, s: Stmt, items: seq<Json>, k: nat, env: Env, skips: bool): Env
    requires s.Repeat?
    decreases k, 0
  {
    if k == 0 then BindPass(env, s, Some(items), 0)
    else BindPass(PassEnd(o, s, items, k - 1, env, skips).1, s, Some(items), k)
  }

  function PassEnd(o: Oracle, s: Stmt, items: seq<Json>, k: nat, env: Env, skips: bool): (Outcome, Env)
    requires s.Repeat?
    decreases k, 1
  {
    ExecFrom(o, s.body, 0, PassStart(o, s, items, k, env, skips), skips || s.onItemError != "fail", k)
  }

  /** A collection loop no pass of which leaves it makes exactly min(length, limit) passes, indexed 0, 1, 2, ... */
  lemma CollectionLoopPasses(o: Oracle, s: Stmt, items: seq<Json>, env: Env, skips: bool)
    requires s.Repeat? && s.limit >= 1 && items != []
    requires forall k: nat :: k < Min(s.limit, |items|) ==> KeepsLooping(PassEnd(o, s, items, k, env, skips).0, s)
    ensures ExecPasses(o, s, Some(items), 0, BindPass(env, s, Some(items), 0), skips) ==
            (Normal, UnbindPass(PassEnd(o, s, items, Min(s.limit, |items|) - 1, env, skips).1, s))
  {
    PassesFrom(o, s, items, env, skips, 0);
  }

  lemma {:induction false} PassesFrom(o: Oracle, s: Stmt, items: seq<Json>, env: Env, skips: bool, k: nat)
    requires s.Repeat? && k < Min(s.limit, |items|)
    requires forall j: nat :: k <= j < Min(s.limit, |items|) ==> KeepsLooping(PassEnd(o, s, items, j, env, skips).0, s)
    ensures ExecPasses(o, s, Some(items), k, PassStart(o, s, items, k, env, skips), skips) ==
            (Normal, UnbindPass(PassEnd(o, s, items, Min(s.limit, |items|) - 1, env, skips).1, s))
    decreases |items| - k
  {
    assert KeepsLooping(PassEnd(o, s, items, k, env, skips).0, s);
    if k + 1 < Min(s.limit, |items|) {
      PassesFrom(o, s, items, env, skips, k + 1);
    }
  }
}
