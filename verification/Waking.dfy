// How a stored session wakes up: with a reply to its prompt, with an event, with nothing, or because the prompt
// has timed out. A timeout is an error of the node that waited and is routed like any other.

module Waking {
  import opened Json
  import opened Blueprint
  import opened Machine
  import opened MainLoop
  import opened Checkpoint
  import opened Resume
  import opened Routing
  import opened Rounds
  import opened Handlers

  /** A session that was suspended at this node and can be read back from its checkpoint. */
  predicate WaitsAt(w: Workflow, h: State, p: Id) {
    && h.ending.suspend.Some? && h.ending.suspend.value.node == p && p in w.index && p != ""
    && forall k :: 0 <= k < |h.frames| ==> FitsInt(h.frames[k])
  }

  /** The session as read back, before anything is delivered: everything open is open again. */
  function ReadBack(h: State, budget: nat, world: int): State {
    State(h.frames, "", "", Env(h.env.vars, Rebind(h.frames), world, h.env.visits, budget, [], None, ""), false, Live)
  }

  lemma Resumes(w: Workflow, u: Writer, h: State, answer: Answer, budget: nat, world: int)
    requires h.ending.suspend.Some? && forall k :: 0 <= k < |h.frames| ==> FitsInt(h.frames[k])
    ensures Resumed(w, u, StoredOf(h), answer, budget, world) ==
            Awake(w, Deliver(w, u, ReadBack(h, budget, world), h.ending.suspend.value, h.cursor, answer))
  {
    hide FrameFromJson, FrameJson, FramesToJson, FramesFromJson, Rebind, FitsInt, Awake, Deliver;
    FramesRoundTrip(h.frames);
  }

  // ------------------------------------------------------------------ timeouts

  /** The error a prompt that got no reply in time stands for. */
  predicate IsTimeout(e: Error, p: Id) {
    e.code == "TIMEOUT" && e.node == p
  }

  /** The session stands at the node that waited, with the timeout pending and nothing else changed. */
  lemma TimeoutIsPending(w: Workflow, u: Writer, h: State, p: Id, input: Json, budget: nat, world: int)
    requires WellIndexed(w) && WaitsAt(w, h, p)
    ensures var y := Resumed(w, u, StoredOf(h), Answer(input, true), budget, world);
            && !y.finished && y.ending == Live && y.frames == h.frames && y.cursor == p && y.current == p
            && y.env.pending.Some? && IsTimeout(y.env.pending.value, p)
            && y.env == ReadBack(h, budget, world).env.(pending := y.env.pending)
  {
    Resumes(w, u, h, Answer(input, true), budget, world);
    hide Resumed, StoredOf, Rebind;
  }

  /**
   * The first round of a session whose prompt has timed out activates nothing and routes the timeout, as an error
   * of the node that waited. A handler of that node takes it; without one, the innermost frame that takes its code
   * does, a try by its routes or its general catch; and if nothing takes it the run fails with it, at that node.
   */
  lemma TimedOut(w: Workflow, u: Writer, o: Oracle, h: State, p: Id, input: Json, budget: nat, world: int)
    requires WellIndexed(w) && WaitsAt(w, h, p)
    ensures var y := Resumed(w, u, StoredOf(h), Answer(input, true), budget, world);
            && !y.finished && y.env.pending.Some? && IsTimeout(y.env.pending.value, p)
            && var s := y.(env := y.env.(pending := None));
               var t := Step(w, o, y);
               && t.env.visited == [] && t.env.visits == h.env.visits
               && GoesTo(w, o, s, y.env.pending.value, "", t)
               && (!NoOwnHandler(w, p) ==> t.cursor == w.index[p].onError.value)
               && (NoOwnHandler(w, p) && (forall k: nat :: !TakenAt(w, h.frames, "TIMEOUT", k)) ==>
                     && t.finished && t.ending.status == Failed
                     && t.ending.failure.Some? && IsTimeout(t.ending.failure.value, p))
  {
    TimeoutIsPending(w, u, h, p, input, budget, world);
    TimeoutIsRaised(w, o, Resumed(w, u, StoredOf(h), Answer(input, true), budget, world), p);
    hide Resumed, StoredOf, Step, NoOwnHandler, TakenAt, GoesTo, Rebind;
  }

  lemma TimeoutIsRaised(w: Workflow, o: Oracle, y: State, p: Id)
    requires WellIndexed(w) && !y.finished && y.current == p && p != "" && p in w.index
    requires y.env.pending.Some? && IsTimeout(y.env.pending.value, p)
    ensures var t := Step(w, o, y);
            && t.env.visited == y.env.visited && t.env.visits == y.env.visits
            && GoesTo(w, o, y.(env := y.env.(pending := None)), y.env.pending.value, "", t)
            && (!NoOwnHandler(w, p) ==> t.cursor == w.index[p].onError.value)
            && (NoOwnHandler(w, p) && (forall k: nat :: !TakenAt(w, y.frames, "TIMEOUT", k)) ==>
                  && t.finished && t.ending.status == Failed
                  && t.ending.failure.Some? && IsTimeout(t.ending.failure.value, p))
  {
    PendingComesFirst(w, o, y);
    ErrorIsRouted(w, o, y.(env := y.env.(pending := None)), y.env.pending.value, "");
    if !NoOwnHandler(w, p) {
      HandlerStands(w, y.(env := y.env.(pending := None)), y.env.pending.value, Step(w, o, y));
    }
    hide Step, Raise, WentToHandler, TakenAt, TakerActs, NoOwnHandler;
  }

  lemma HandlerStands(w: Workflow, s: State, e: Error, t: State)
    requires !NoOwnHandler(w, s.current) && WentToHandler(w, s, e, t)
    ensures t.cursor == w.index[s.current].onError.value
  {
  }

  // ------------------------------------------------------------------ replies

  /** Nothing is delivered: no reply at all, or an empty one to a prompt. The session goes on at its cursor. */
  lemma NothingArrives(w: Workflow, u: Writer, h: State, input: Json, budget: nat, world: int)
    requires WellIndexed(w) && h.ending.suspend.Some? && forall k :: 0 <= k < |h.frames| ==> FitsInt(h.frames[k])
    requires input == Null || (input == Obj(map[]) && h.ending.suspend.value.reason == "input")
    ensures var y := Resumed(w, u, StoredOf(h), Answer(input, false), budget, world);
            && y.env == ReadBack(h, budget, world).env && y.frames == h.frames
            && (h.cursor in w.index ==> !y.finished && y.cursor == h.cursor && y.current == h.cursor)
            && (h.cursor !in w.index ==> y.finished && y.ending == Live.(status := Completed))
  {
    Resumes(w, u, h, Answer(input, false), budget, world);
    hide Resumed, StoredOf, Rebind;
  }

  /** A reply goes to the prompt that asked: as the local `input`, and into its variable if it names one. */
  lemma ReplyArrives(w: Workflow, u: Writer, h: State, p: Id, input: Json, budget: nat, world: int)
    requires WellIndexed(w) && WaitsAt(w, h, p) && h.ending.suspend.value.reason == "input"
    requires input != Null && input != Obj(map[])
    ensures var y := Resumed(w, u, StoredOf(h), Answer(input, false), budget, world);
            var name := h.ending.suspend.value.inputVar;
            var env := ReadBack(h, budget, world).env;
            && !y.finished && y.frames == h.frames && y.cursor == p && y.current == p
            && y.env == env.(locals := env.locals["input" := input], resumeNode := p,
                             vars := if name != "" then u.put(h.env.vars, name, input) else h.env.vars)
  {
    Resumes(w, u, h, Answer(input, false), budget, world);
    hide Resumed, StoredOf, Rebind;
  }

  /** An event or a timer wakes the session at its cursor, with the facts it carries among locals and context. */
  lemma EventArrives(w: Workflow, u: Writer, h: State, input: Json, budget: nat, world: int)
    requires WellIndexed(w) && h.ending.suspend.Some? && forall k :: 0 <= k < |h.frames| ==> FitsInt(h.frames[k])
    requires h.ending.suspend.value.reason != "input" && input != Null
    ensures var y := Resumed(w, u, StoredOf(h), Answer(input, false), budget, world);
            var env := ReadBack(h, budget, world).env;
            && y.frames == h.frames
            && y.env == env.(locals := if h.ending.suspend.value.reason == "" then env.locals["event" := input]
                                       else env.locals[h.ending.suspend.value.reason := input],
                             vars := if input.Obj? then u.putAll(h.env.vars, input.fields) else h.env.vars)
            && (h.cursor in w.index ==> !y.finished && y.cursor == h.cursor && y.current == h.cursor)
            && (h.cursor !in w.index ==> y.finished && y.ending == Live.(status := Completed))
  {
    Resumes(w, u, h, Answer(input, false), budget, world);
    hide Resumed, StoredOf, Rebind;
  }
}
