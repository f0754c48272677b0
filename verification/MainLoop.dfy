// The main loop as a total function: every run of a workflow whose named error
// handlers exist ends, and visits at most `budget` nodes.

module MainLoop {
  import opened Json
  import opened Blueprint
  import opened Machine

  /** What the main loop may still do: activations left, then frame moves left, then one re-routing. */
  function Fuel(s: State): nat {
    if s.env.visits < s.env.budget then s.env.budget - s.env.visits else 0
  }

  predicate Unsettled(w: Workflow, s: State) {
    s.env.pending.Some? || s.cursor !in w.index
  }

  lemma ActivationSpendsFuel(w: Workflow, o: Oracle, s: State)
    requires WellIndexed(w) && !s.finished && s.env.pending.None? && s.cursor in w.index
    ensures var t := Step(w, o, s);
            && t.env.budget == s.env.budget && t.env.visits == s.env.visits + 1
            && (if s.env.visits < s.env.budget then t.env.visited == s.env.visited + [s.cursor]
                else t == Fail(t, LimitError(s.cursor)) && t.env.visited == s.env.visited)
  {
  }

  lemma ReroutingSettles(w: Workflow, o: Oracle, s: State, e: Error)
    requires HandlersExist(w) && s.env.pending.None?
    ensures var t := Raise(w, o, s, e, "");
            && t.env.budget == s.env.budget && t.env.visits == s.env.visits
            && (t.finished || StackWeight(t.frames) < StackWeight(s.frames) ||
                (StackWeight(t.frames) == StackWeight(s.frames) && !Unsettled(w, t)))
  {
  }

  lemma StepDescends(w: Workflow, o: Oracle, s: State)
    requires WellIndexed(w) && HandlersExist(w) && !s.finished
    ensures var t := Step(w, o, s);
            || t.finished
            || Fuel(t) < Fuel(s)
            || (Fuel(t) == Fuel(s) && StackWeight(t.frames) < StackWeight(s.frames))
            || (Fuel(t) == Fuel(s) && StackWeight(t.frames) == StackWeight(s.frames) &&
                Unsettled(w, s) && !Unsettled(w, t))
  {
    if s.env.pending.Some? {
      ReroutingSettles(w, o, s.(env := s.env.(pending := None)), s.env.pending.value);
    } else if s.cursor != "" && s.cursor !in w.index {
      ReroutingSettles(w, o, s.(cursor := ""), RoutingError(s.current));
      StrayIsRaise(w, o, s);
    } else if s.cursor != "" {
      ActivationSpendsFuel(w, o, s);
    }
  }

  /** The interpreter's main loop. */
  function Drive(w: Workflow, o: Oracle, s: State): (t: State)
    requires WellIndexed(w) && HandlersExist(w)
    ensures t.finished
    decreases !s.finished, Fuel(s), StackWeight(s.frames), Unsettled(w, s)
  {
    if s.finished then s
    else
      StepDescends(w, o, s);
      Drive(w, o, Step(w, o, s))
  }

  // ------------------------------------------------------------------ the budget

  /** The count of activations and the list of visited nodes agree, up to the activation that broke the budget. */
  predicate Counted(s: State) {
    || |s.env.visited| == s.env.visits <= s.env.budget
    || (s.finished && s.env.visits == |s.env.visited| + 1 && |s.env.visited| == s.env.budget &&
        s.ending.status == Failed)
  }

  lemma StepCounts(w: Workflow, o: Oracle, s: State)
    requires WellIndexed(w) && !s.finished && Counted(s)
    ensures Counted(Step(w, o, s)) && Step(w, o, s).env.budget == s.env.budget
    ensures s.env.visited <= Step(w, o, s).env.visited
  {
    if s.env.pending.None? && s.cursor in w.index {
      ActivationSpendsFuel(w, o, s);
    }
  }

  /** A run started with a clean count activates at most `budget` nodes. */
  lemma {:induction false} DriveWithinBudget(w: Workflow, o: Oracle, s: State)
    requires WellIndexed(w) && HandlersExist(w) && Counted(s)
    ensures Counted(Drive(w, o, s)) && |Drive(w, o, s).env.visited| <= s.env.budget
    ensures s.env.visited <= Drive(w, o, s).env.visited
    decreases !s.finished, Fuel(s), StackWeight(s.frames), Unsettled(w, s)
  {
    if !s.finished {
      StepCounts(w, o, s);
      StepDescends(w, o, s);
      DriveWithinBudget(w, o, Step(w, o, s));
    }
  }

  // ------------------------------------------------------------------ when the main loop always ends

  function StepN(w: Workflow, o: Oracle, s: State, n: nat): State
    requires WellIndexed(w)
    decreases n
  {
    if n == 0 || s.finished then s else StepN(w, o, Step(w, o, s), n - 1)
  }

  lemma {:induction false} StepNSum(w: Workflow, o: Oracle, s: State, i: nat, m: nat)
    requires WellIndexed(w)
    ensures StepN(w, o, StepN(w, o, s, i), m) == StepN(w, o, s, i + m)
    decreases i
  {
    hide Step;
    if i > 0 && !s.finished {
      StepNSum(w, o, Step(w, o, s), i - 1, m);
    }
  }

  ghost predicate Ends(w: Workflow, o: Oracle, s: State)
    requires WellIndexed(w)
  {
    exists n: nat :: StepN(w, o, s, n).finished
  }

  lemma {:induction false} DriveIsStepN(w: Workflow, o: Oracle, s: State) returns (n: nat)
    requires WellIndexed(w) && HandlersExist(w)
    ensures StepN(w, o, s, n) == Drive(w, o, s)
    decreases !s.finished, Fuel(s), StackWeight(s.frames), Unsettled(w, s)
  {
    if s.finished {
      n := 0;
    } else {
      StepDescends(w, o, s);
      var m := DriveIsStepN(w, o, Step(w, o, s));
      n := m + 1;
    }
  }

  /** Control stands on a missing handler of the failed node: the loop re-routes to it for ever, visiting nothing. */
  lemma {:induction false} MissingHandlerSpins(w: Workflow, o: Oracle, s: State, n: nat)
    requires WellIndexed(w) && !s.finished && s.env.pending.None?
    requires HasHandler(w, s.current) && w.index[s.current].onError.value !in w.index
    requires s.cursor == w.index[s.current].onError.value && s.frames == []
    ensures !StepN(w, o, s, n).finished && StepN(w, o, s, n).env.visited == s.env.visited
    decreases n
  {
    if n > 0 {
      MissingHandlerSpins(w, o, Step(w, o, s), n - 1);
    }
  }

  /** A fresh run gets there if its first task fails and names a handler that does not exist. */
  lemma FreshRunSpins(w: Workflow, o: Oracle, s: State, n: nat)
    requires WellIndexed(w) && !s.finished && s.env.pending.None? && s.frames == []
    requires s.cursor in w.index && s.env.visits < s.env.budget
    requires w.index[s.cursor].enabled && w.index[s.cursor].kind.Leaf?
    requires HasHandler(w, s.cursor) && w.index[s.cursor].onError.value !in w.index
    requires o.leaf(s.cursor, ViewOf(s.env, -1)).result.Err?
    ensures !StepN(w, o, s, n).finished && StepN(w, o, s, n).env.visited <= s.env.visited + [s.cursor]
  {
    if n > 0 {
      var t := Step(w, o, s);
      FirstTaskFails(w, o, s);
      MissingHandlerSpins(w, o, t, n - 1);
    }
  }

  lemma FirstTaskFails(w: Workflow, o: Oracle, s: State)
    requires WellIndexed(w) && !s.finished && s.env.pending.None? && s.frames == []
    requires s.cursor in w.index && s.env.visits < s.env.budget
    requires w.index[s.cursor].enabled && w.index[s.cursor].kind.Leaf? && HasHandler(w, s.cursor)
    requires o.leaf(s.cursor, ViewOf(s.env, -1)).result.Err?
    ensures var t := Step(w, o, s);
            && !t.finished && t.frames == [] && t.env.pending.None? && t.current == s.cursor
            && t.cursor == w.index[s.cursor].onError.value && t.env.visited == s.env.visited + [s.cursor]
  {
    hide ErrorJson;
    var env := s.env.(visits := s.env.visits + 1, visited := s.env.visited + [s.cursor]);
    assert ViewOf(env, -1) == ViewOf(s.env, -1);
  }

  /** The main loop ends from every state under every oracle exactly when every named handler exists. */
  lemma EndsIffHandlersExist(w: Workflow)
    requires WellIndexed(w)
    ensures HandlersExist(w) <==> (forall o: Oracle, s: State :: Ends(w, o, s))
  {
    if HandlersExist(w) {
      forall o: Oracle, s: State
        ensures Ends(w, o, s)
      {
        var n := DriveIsStepN(w, o, s);
      }
    } else {
      var id :| id in w.index && w.index[id].onError.Some? && w.index[id].onError.value != "" &&
        w.index[id].onError.value !in w.index;
      var o := SilentOracle();
      var env := Env(map[], map[], 0, 0, 1, [], None, "");
      var s := State([], w.index[id].onError.value, id, env, false, Live);
      forall n: nat
        ensures !StepN(w, o, s, n).finished
      {
        MissingHandlerSpins(w, o, s, n);
      }
      assert !Ends(w, o, s);
    }
  }

  /** An oracle whose tasks do nothing. */
  function SilentOracle(): Oracle {
    Oracle((id, v: View) => Reply(Ok(Continue), v.vars, v.world),
           (id, v: View) => Reply(Ok(false), v.vars, v.world),
           (id, v: View) => Reply(Ok(None), v.vars, v.world),
           (id, v: View) => Reply(Ok(false), v.vars, v.world))
  }
}
