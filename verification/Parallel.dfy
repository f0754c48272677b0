// A parallel section: branches run on forks of the context, in any interleaving, and are merged back in
// index order.

module Parallel {
  import opened Json
  import opened Blueprint
  import opened Machine
  import opened MainLoop
  import opened Context

  // ------------------------------------------------------------------ branches

  /** Activations a branch may spend: what is left of the budget, at least one, and no more than the branch limit. */
  function BranchBudget(env: Env, limit: nat): nat {
    var remaining := if env.budget > env.visits then env.budget - env.visits else 1;
    if limit == 0 || remaining < limit then remaining else limit
  }

  /** The run of one branch, about to start: a fork of the variables, the locals, and one branch frame. */
  function BranchStart(s: State, node: Id, ids: seq<Id>, index: int, limit: nat, world: int): State {
    var env := Env(s.env.vars, s.env.locals, world, 0, BranchBudget(s.env, limit), [], None, "");
    if ids == [] then State([], "", "", env, true, Live.(status := Completed))
    else State([BranchFrame(node, ids, 0, "", index)], ids[0], "", env, false, Live)
  }

  function BranchStarts(s: State, node: Id, branches: seq<seq<Id>>, limit: nat, worlds: seq<int>): (starts: seq<State>)
    requires |worlds| == |branches|
  {
    seq(|branches|, i requires 0 <= i < |branches| => BranchStart(s, node, branches[i], i, limit, worlds[i]))
  }

  /** What a branch may activate is the most that both the section and the limit, if there is one, allow. */
  lemma BranchGets(s: State, node: Id, ids: seq<Id>, index: int, limit: nat, world: int, n: nat)
    requires s.env.visits < s.env.budget
    ensures n <= BranchStart(s, node, ids, index, limit, world).env.budget <==>
            s.env.visits + n <= s.env.budget && (limit > 0 ==> n <= limit)
  {
  }

  /** A section that is already over its budget leaves each branch one node. */
  lemma OverspentBranch(s: State, node: Id, ids: seq<Id>, index: int, limit: nat, world: int)
    requires s.env.visits >= s.env.budget
    ensures BranchStart(s, node, ids, index, limit, world).env.budget == 1
  {
  }

  /** A branch starts in a frame of its own on a copy of the variables and locals; an empty one is over at once. */
  lemma BranchBegins(s: State, node: Id, ids: seq<Id>, index: int, limit: nat, world: int)
    ensures var b := BranchStart(s, node, ids, index, limit, world);
            && b.env.vars == s.env.vars && b.env.locals == s.env.locals && b.env.visits == 0 && b.env.visited == []
            && b.env.pending.None? && b.env.resumeNode == ""
            && (ids == [] <==> b.finished)
            && (ids != [] ==>
                b.cursor == ids[0] && b.ending == Live && b.frames == [BranchFrame(node, ids, 0, "", index)])
  {
  }

  /** A branch activates no more nodes than the section has left, whatever it does. */
  lemma BranchWithinBudget(w: Workflow, o: Oracle, s: State, node: Id, ids: seq<Id>, index: int, limit: nat, world: int)
    requires WellIndexed(w) && HandlersExist(w) && s.env.visits < s.env.budget
    ensures var visited := Drive(w, o, BranchStart(s, node, ids, index, limit, world)).env.visited;
            && |visited| <= s.env.budget - s.env.visits
            && (limit > 0 ==> |visited| <= limit)
  {
    hide Drive;
    DriveWithinBudget(w, o, BranchStart(s, node, ids, index, limit, world));
  }

  // ------------------------------------------------------------------ scheduling

  predicate Picks(order: seq<nat>, n: nat) {
    forall k :: 0 <= k < |order| ==> order[k] < n
  }

  /** Workers pick branches in the order of the schedule; a pick is one round of that branch's main loop. */
  function RunSchedule(w: Workflow, o: Oracle, starts: seq<State>, order: seq<nat>): (now: seq<State>)
    requires WellIndexed(w) && Picks(order, |starts|)
    ensures |now| == |starts|
  {
    if order == [] then starts
    else
      var before := RunSchedule(w, o, starts, order[..|order| - 1]);
      var i := order[|order| - 1];
      before[i := StepN(w, o, before[i], 1)]
  }

  function Turns(order: seq<nat>, i: nat): nat {
    if order == [] then 0 else Turns(order[..|order| - 1], i) + if order[|order| - 1] == i then 1 else 0
  }

  lemma {:induction false} OneMore(w: Workflow, o: Oracle, s: State, n: nat)
    requires WellIndexed(w)
    ensures StepN(w, o, StepN(w, o, s, n), 1) == StepN(w, o, s, n + 1)
    decreases n
  {
    hide Step;
    if s.finished {
    } else if n == 0 {
      assert StepN(w, o, Step(w, o, s), 0) == Step(w, o, s);
    } else {
      OneMore(w, o, Step(w, o, s), n - 1);
    }
  }

  lemma {:induction false} BranchSteps(w: Workflow, o: Oracle, starts: seq<State>, order: seq<nat>, i: nat)
    requires WellIndexed(w) && Picks(order, |starts|) && i < |starts|
    ensures RunSchedule(w, o, starts, order)[i] == StepN(w, o, starts[i], Turns(order, i))
  {
    hide StepN, WellIndexed;
    if order == [] {
      NoSteps(w, o, starts[i]);
    } else {
      BranchSteps(w, o, starts, order[..|order| - 1], i);
      OneMore(w, o, starts[i], Turns(order[..|order| - 1], i));
    }
  }

  lemma NoSteps(w: Workflow, o: Oracle, s: State)
    requires WellIndexed(w)
    ensures StepN(w, o, s, 0) == s
  {
  }

  /** A run that has finished after some rounds is the run of the main loop, and more rounds change nothing. */
  lemma {:induction false} FinishedIsDriven(w: Workflow, o: Oracle, s: State, n: nat)
    requires WellIndexed(w) && HandlersExist(w) && StepN(w, o, s, n).finished
    ensures StepN(w, o, s, n) == Drive(w, o, s)
    decreases n
  {
    hide Step;
    if n > 0 && !s.finished {
      FinishedIsDriven(w, o, Step(w, o, s), n - 1);
    }
  }

  lemma {:induction false} StaysFinished(w: Workflow, o: Oracle, s: State, n: nat, m: nat)
    requires WellIndexed(w) && StepN(w, o, s, n).finished && n <= m
    ensures StepN(w, o, s, m).finished
    decreases n
  {
    hide Step;
    if n > 0 && !s.finished {
      StaysFinished(w, o, Step(w, o, s), n - 1, m - 1);
    }
  }

  predicate AllDone(now: seq<State>) {
    forall i :: 0 <= i < |now| ==> now[i].finished
  }

  /** The branches run one by one, each to its end. */
  function Alone(w: Workflow, o: Oracle, starts: seq<State>): (ends: seq<State>)
    requires WellIndexed(w) && HandlersExist(w)
    ensures |ends| == |starts|
  {
    seq(|starts|, i requires 0 <= i < |starts| => Drive(w, o, starts[i]))
  }

  /** However the workers interleave the branches, once all are done each has ended as if it had run alone. */
  lemma ScheduleDoesNotMatter(w: Workflow, o: Oracle, starts: seq<State>, order: seq<nat>)
    requires WellIndexed(w) && HandlersExist(w) && Picks(order, |starts|)
    requires AllDone(RunSchedule(w, o, starts, order))
    ensures RunSchedule(w, o, starts, order) == Alone(w, o, starts)
  {
    hide RunSchedule, StepN, Drive;
    forall i | 0 <= i < |starts|
      ensures RunSchedule(w, o, starts, order)[i] == Drive(w, o, starts[i])
    {
      BranchSteps(w, o, starts, order, i);
      FinishedIsDriven(w, o, starts[i], Turns(order, i));
    }
  }

  predicate Fair(order: seq<nat>, n: nat, enough: nat) {
    forall i :: 0 <= i < n ==> Turns(order, i) >= enough
  }

  /** Any schedule that gives every branch enough turns finishes them all. */
  lemma {:induction false} FairSchedulesFinish(w: Workflow, o: Oracle, starts: seq<State>) returns (enough: nat)
    requires WellIndexed(w) && HandlersExist(w)
    ensures forall order: seq<nat> :: Picks(order, |starts|) && Fair(order, |starts|, enough) ==>
              AllDone(RunSchedule(w, o, starts, order))
  {
    hide RunSchedule, StepN, Turns;
    enough := EnoughTurns(w, o, starts, |starts|);
    forall order: seq<nat> | Picks(order, |starts|) && Fair(order, |starts|, enough)
      ensures AllDone(RunSchedule(w, o, starts, order))
    {
      forall i | 0 <= i < |starts|
        ensures RunSchedule(w, o, starts, order)[i].finished
      {
        BranchSteps(w, o, starts, order, i);
        StaysFinished(w, o, starts[i], enough, Turns(order, i));
      }
    }
  }

  lemma {:induction false} EnoughTurns(w: Workflow, o: Oracle, starts: seq<State>, n: nat) returns (enough: nat)
    requires WellIndexed(w) && HandlersExist(w) && n <= |starts|
    ensures forall i :: 0 <= i < n ==> StepN(w, o, starts[i], enough).finished
  {
    hide StepN, Drive;
    enough := 0;
    if n > 0 {
      var before := EnoughTurns(w, o, starts, n - 1);
      var last := DriveIsStepN(w, o, starts[n - 1]);
      enough := before + last;
      forall i | 0 <= i < n
        ensures StepN(w, o, starts[i], enough).finished
      {
        StaysFinished(w, o, starts[i], if i < n - 1 then before else last, enough);
      }
    }
  }

  // ------------------------------------------------------------------ from branches to contexts

  /** A branch's own context: its variables and the keys it has written. */
  datatype Local = Local(vars: Variables, changed: set<string>)

  function EndOf(t: State): BranchEnd {
    if t.ending.failure.Some? || t.ending.thrown.Some? then Faulted
    else if t.ending.suspend.Some? then Waiting
    else Done
  }

  /** The contexts of the finished branches; which keys a branch wrote is in its journal. */
  function Contexts(ends: seq<State>, journal: State -> set<string>): seq<Local> {
    seq(|ends|, i requires 0 <= i < |ends| => Local(ends[i].env.vars, journal(ends[i])))
  }

  /**
   * A parallel section of the run `s`. Its branches run interleaved in any way; when all are done their contexts,
   * taken over in index order, give every key the value the policy prescribes for branches that ran alone, one
   * after the other, up to the first one that stops the join.
   */
  method JoinBranches(w: Workflow, o: Oracle, s: State, node: Id, branches: seq<seq<Id>>, limit: nat, worlds: seq<int>,
                      ghost order: seq<nat>, ghost journal: State -> set<string>,
                      parent: RuntimeContext, forks: seq<RuntimeContext>, ends: seq<BranchEnd>, failFast: bool,
                      policy: MergePolicy) returns (r: Result<set<string>, JoinError>)
    requires WellIndexed(w) && HandlersExist(w) && Picks(order, |branches|)
    requires |forks| == |ends| == |branches| == |worlds| && parent.variables == s.env.vars
    requires parent !in forks && forall i :: 0 <= i < |forks| ==> forks[i].Valid()
    requires var now := RunSchedule(w, o, BranchStarts(s, node, branches, limit, worlds), order);
             && AllDone(now) && Locals(forks) == Contexts(now, journal)
             && forall i :: 0 <= i < |ends| ==> ends[i] == EndOf(now[i])
    modifies parent`variables
    ensures var alone := Alone(w, o, BranchStarts(s, node, branches, limit, worlds));
            var merged := if r.Err? && !r.error.Conflicting? then r.error.index else |alone|;
            && merged <= |alone|
            && (forall i :: 0 <= i < merged ==> !Stops(EndOf(alone[i]), failFast))
            && (merged < |alone| ==> Stops(EndOf(alone[merged]), failFast))
            && forall k :: Lookup(parent.variables, k) ==
                           Joined(s.env.vars, Contexts(alone, journal)[..merged], policy, k)
    ensures policy == FailConflicts && (r.Ok? || r.error.Conflicting?) ==>
              var alone := Alone(w, o, BranchStarts(s, node, branches, limit, worlds));
              (r.Err? <==> exists j: nat, k: string :: Clashes(s.env.vars, Contexts(alone, journal), j, k))
  {
    ghost var starts := BranchStarts(s, node, branches, limit, worlds);
    ScheduleDoesNotMatter(w, o, starts, order);
    ghost var alone := Alone(w, o, starts);
    hide RunSchedule, Drive, Joined, Lookup, BranchStarts;
    ghost var bs := Contexts(alone, journal);
    r := Join(parent, forks, ends, failFast, policy);
    assert Locals(forks) == bs && bs[..|alone|] == bs;
    hide Clashes, Contexts, Locals, Alone;
    assert policy == FailConflicts && (r.Ok? || r.error.Conflicting?) ==>
             (r.Err? <==> exists j: nat, k: string :: Clashes(s.env.vars, bs, j, k));
  }

  // ------------------------------------------------------------------ joining

  /** The branch wrote the key and still holds it. */
  predicate Holds(c: Local, k: string) {
    k in c.changed && k in c.vars
  }

  function Lookup(vars: Variables, k: string): Option<Json> {
    if k in vars then Some(vars[k]) else None
  }

  /** The value of the last branch that holds the key, else the parent's. */
  function LastValue(parent: Variables, bs: seq<Local>, k: string): Option<Json> {
    if bs == [] then Lookup(parent, k)
    else if Holds(bs[|bs| - 1], k) then Some(bs[|bs| - 1].vars[k])
    else LastValue(parent, bs[..|bs| - 1], k)
  }

  /** The parent's value, else that of the first branch that holds the key. */
  function FirstValue(parent: Variables, bs: seq<Local>, k: string): Option<Json> {
    if bs == [] then Lookup(parent, k)
    else
      var before := FirstValue(parent, bs[..|bs| - 1], k);
      if before.Some? then before
      else if Holds(bs[|bs| - 1], k) then Some(bs[|bs| - 1].vars[k])
      else None
  }

  /** The join under a policy, key by key. */
  function Joined(parent: Variables, bs: seq<Local>, policy: MergePolicy, k: string): Option<Json> {
    if policy == SkipConflicts then FirstValue(parent, bs, k) else LastValue(parent, bs, k)
  }

  lemma {:induction false} LastValueIsLast(parent: Variables, bs: seq<Local>, k: string, j: int)
    requires -1 <= j < |bs| && (j >= 0 ==> Holds(bs[j], k)) && forall i :: j < i < |bs| ==> !Holds(bs[i], k)
    ensures LastValue(parent, bs, k) == if j >= 0 then Some(bs[j].vars[k]) else Lookup(parent, k)
  {
    if bs != [] && j < |bs| - 1 {
      LastValueIsLast(parent, bs[..|bs| - 1], k, j);
    }
  }

  lemma {:induction false} FirstValueIsFirst(parent: Variables, bs: seq<Local>, k: string, j: nat)
    requires j <= |bs| && (j < |bs| ==> Holds(bs[j], k)) && forall i :: 0 <= i < j ==> !Holds(bs[i], k)
    ensures FirstValue(parent, bs, k) ==
            if k in parent then Some(parent[k]) else if j < |bs| then Some(bs[j].vars[k]) else None
  {
    if bs != [] {
      var n := |bs| - 1;
      FirstValueIsFirst(parent, bs[..n], k, if j < n then j else n);
    }
  }

  /** Branch `j` holds a value other than the one the key has when that branch is merged. */
  ghost predicate Clashes(parent: Variables, bs: seq<Local>, j: nat, k: string) {
    && j < |bs| && Holds(bs[j], k)
    && LastValue(parent, bs[..j], k).Some? && LastValue(parent, bs[..j], k).value != bs[j].vars[k]
  }

  lemma OneBranch(vars: Variables, b: Local, k: string, policy: MergePolicy)
    requires b.changed != {}
    ensures Lookup(Merged(vars, b.vars, b.changed, policy), k) ==
            if Holds(b, k) && !(policy == SkipConflicts && k in vars) then Some(b.vars[k]) else Lookup(vars, k)
  {
  }

  /** Merging one more branch extends the join by it. */
  lemma JoinOne(parent: Variables, bs: seq<Local>, i: nat, vars: Variables, after: Variables, policy: MergePolicy,
                k: string)
    requires i < |bs| && Lookup(vars, k) == Joined(parent, bs[..i], policy, k)
    requires after == if bs[i].changed == {} then vars else Merged(vars, bs[i].vars, bs[i].changed, policy)
    ensures Lookup(after, k) == Joined(parent, bs[..i + 1], policy, k)
  {
    hide Merged;
    assert bs[..i + 1][..i] == bs[..i];
    if bs[i].changed != {} {
      OneBranch(vars, bs[i], k, policy);
    }
  }

  datatype BranchEnd = Done | Faulted | Waiting

  datatype JoinError = BranchFailed(index: nat) | BranchWaits(index: nat) | Conflicting(keys: set<string>)

  predicate Stops(end: BranchEnd, failFast: bool) {
    (end == Faulted && failFast) || end == Waiting
  }

  ghost function LocalOf(c: RuntimeContext): Local
    reads c
  {
    Local(c.variables, set m | m in c.journal :: m.key)
  }

  ghost function Locals(forks: seq<RuntimeContext>): seq<Local>
    reads forks
  {
    seq(|forks|, i requires 0 <= i < |forks| reads forks => LocalOf(forks[i]))
  }

  lemma WrittenKeys(c: RuntimeContext, keys: set<string>)
    requires forall k :: k in keys <==> Logged(c.journal, k)
    ensures keys == LocalOf(c).changed
  {
    forall k
      ensures k in keys <==> k in LocalOf(c).changed
    {
    }
  }

  /** Merges what one fork wrote; nothing if it wrote nothing. */
  method TakeOver(parent: RuntimeContext, fork: RuntimeContext, policy: MergePolicy, ghost b: Local)
      returns (clash: set<string>)
    requires parent != fork && fork.Valid() && b == LocalOf(fork)
    modifies parent`variables
    ensures parent.variables == if b.changed == {} then old(parent.variables)
                                else Merged(old(parent.variables), b.vars, b.changed, policy)
    ensures clash == if b.changed == {} then {} else Conflicts(old(parent.variables), b.vars, b.changed)
  {
    hide Merged, Conflicts;
    var keys := fork.ChangedSince(0);
    WrittenKeys(fork, keys);
    clash := {};
    if keys != {} {
      clash := parent.MergeFrom(fork, keys, policy);
    }
  }

  /**
   * Merges the forks in index order. A failed branch stops it when the node fails fast, a waiting one
   * always; otherwise every key ends as the policy says, and under `fail_conflicts` the join is refused
   * exactly when some branch holds a value other than the one it would replace.
   */
  method Join(parent: RuntimeContext, forks: seq<RuntimeContext>, ends: seq<BranchEnd>, failFast: bool,
              policy: MergePolicy)
      returns (r: Result<set<string>, JoinError>)
    requires |ends| == |forks| && parent !in forks
    requires forall i :: 0 <= i < |forks| ==> forks[i].Valid()
    modifies parent`variables
    ensures r.Err? && !r.error.Conflicting? ==>
              && r.error.index < |ends| && Stops(ends[r.error.index], failFast)
              && (forall i :: 0 <= i < r.error.index ==> !Stops(ends[i], failFast))
              && (forall k :: Lookup(parent.variables, k)
                              == Joined(old(parent.variables), Locals(forks)[..r.error.index], policy, k))
    ensures r.Ok? || r.error.Conflicting? ==>
              && (forall i :: 0 <= i < |ends| ==> !Stops(ends[i], failFast))
              && (forall k :: Lookup(parent.variables, k) == Joined(old(parent.variables), Locals(forks), policy, k))
    ensures policy == FailConflicts && (r.Ok? || r.error.Conflicting?) ==>
              (r.Err? <==> exists j: nat, k: string :: Clashes(old(parent.variables), Locals(forks), j, k))
    ensures r.Err? && r.error.Conflicting? ==> policy == FailConflicts
  {
    hide Merged, Joined, Conflicts, LocalOf, Clashes, Lookup;
    ghost var bs := Locals(forks);
    ghost var start := parent.variables;
    var conflicts: set<string> := {};
    ghost var where: nat, which: string := 0, "";
    var i := 0;
    JoinedNone(start, bs[..0], policy);
    while i < |forks|
      invariant 0 <= i <= |forks| && bs == Locals(forks)
      invariant forall j :: 0 <= j < i ==> !Stops(ends[j], failFast)
      invariant forall k :: Lookup(parent.variables, k) == Joined(start, bs[..i], policy, k)
      invariant policy != SkipConflicts && conflicts == {} ==>
                  forall j: nat, k: string :: j < i ==> !Clashes(start, bs, j, k)
      invariant policy != SkipConflicts && conflicts != {} ==> where < i && Clashes(start, bs, where, which)
    {
      if ends[i] == Faulted && failFast {
        return Err(BranchFailed(i));
      }
      if ends[i] == Waiting {
        return Err(BranchWaits(i));
      }
      ghost var vars := parent.variables;
      assert bs[i] == LocalOf(forks[i]) && forks[i] in forks;
      var clash := TakeOver(parent, forks[i], policy, bs[i]);
      forall k
        ensures Lookup(parent.variables, k) == Joined(start, bs[..i + 1], policy, k)
      {
        JoinOne(start, bs, i, vars, parent.variables, policy, k);
      }
      if policy != SkipConflicts {
        ClashIsConflict(start, bs, i, vars, policy, clash);
        if conflicts == {} && clash != {} {
          ghost var k :| k in clash;
          where, which := i, k;
        }
      }
      conflicts := conflicts + clash;
      i := i + 1;
    }
    assert bs[..i] == bs;
    ClashesInside(start, bs);
    if conflicts != {} && policy == FailConflicts {
      return Err(Conflicting(conflicts));
    }
    return Ok(conflicts);
  }

  lemma JoinedNone(parent: Variables, none: seq<Local>, policy: MergePolicy)
    requires none == []
    ensures forall k :: Lookup(parent, k) == Joined(parent, none, policy, k)
  {
  }

  lemma ClashesInside(parent: Variables, bs: seq<Local>)
    ensures forall j: nat, k: string :: Clashes(parent, bs, j, k) ==> j < |bs|
  {
  }

  lemma ClashIsConflict(parent: Variables, bs: seq<Local>, i: nat, vars: Variables, policy: MergePolicy,
                        clash: set<string>)
    requires i < |bs| && policy != SkipConflicts
    requires forall k :: Lookup(vars, k) == Joined(parent, bs[..i], policy, k)
    requires clash == if bs[i].changed == {} then {} else Conflicts(vars, bs[i].vars, bs[i].changed)
    ensures forall k :: k in clash <==> Clashes(parent, bs, i, k)
  {
    hide LastValue;
    forall k
      ensures k in clash <==> Clashes(parent, bs, i, k)
    {
      assert Lookup(vars, k) == LastValue(parent, bs[..i], k);
    }
  }
}
