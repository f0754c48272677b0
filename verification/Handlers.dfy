// Which handler takes an error, said from the node's own handler, the routes of each try and the modes of the
// loops: the code is looked up in the routes, and a try that lists other codes only is passed over.

module Handlers {
  import opened Json
  import opened Blueprint
  import opened Machine
  import opened MainLoop
  import opened Routing
  import opened Rounds

  // ------------------------------------------------------------------ who takes an error

  /** The routes of this try send the code to a node that exists. */
  predicate Listed(w: Workflow, f: Frame, code: string)
    requires f.TryFrame?
  {
    code in f.catchWhen && f.catchWhen[code] in w.index
  }

  /** A try whose body runs takes a listed code, and any code if it has a general catch or no routes at all. */
  predicate Catches(w: Workflow, f: Frame, code: string) {
    f.TryFrame? && f.phase == InBody && (Listed(w, f, code) || f.catchIds != [] || f.catchWhen == map[])
  }

  predicate SkipsItems(f: Frame) {
    f.LoopFrame? && f.onItemError != "fail"
  }

  /** Frame `k` takes the code, and no frame above it does. */
  predicate TakenAt(w: Workflow, frames: seq<Frame>, code: string, k: nat) {
    && k < |frames| && (Catches(w, frames[k], code) || SkipsItems(frames[k]))
    && forall j :: k < j < |frames| ==> !Catches(w, frames[j], code) && !SkipsItems(frames[j])
  }

  /** The node names no handler of its own. */
  predicate NoOwnHandler(w: Workflow, id: Id) {
    id in w.index ==> w.index[id].onError.None? || w.index[id].onError.value == ""
  }

  lemma RecoversIff(w: Workflow, f: Frame, e: Error)
    requires WellIndexed(w)
    ensures Recovers(w, f, e) <==> Catches(w, f, e.code) || SkipsItems(f)
    ensures f.TryFrame? ==> Routed(w, f, e.code) == if Listed(w, f, e.code) then f.catchWhen[e.code] else ""
    ensures f.TryFrame? && Listed(w, f, e.code) ==> f.catchWhen[e.code] != ""
  {
  }

  lemma TakenIsDepth(w: Workflow, frames: seq<Frame>, e: Error, k: nat)
    requires WellIndexed(w)
    ensures TakenAt(w, frames, e.code, k) <==> RecoverDepth(w, frames, e) == k + 1
  {
    forall f: Frame
      ensures Recovers(w, f, e) <==> Catches(w, f, e.code) || SkipsItems(f)
    {
      RecoversIff(w, f, e);
    }
    hide RecoverDepth, Recovers, Catches, SkipsItems;
    var d := RecoverDepth(w, frames, e);
    assert d > 0 ==> Recovers(w, frames[d - 1], e);
  }

  lemma NobodyTakes(w: Workflow, frames: seq<Frame>, e: Error)
    requires WellIndexed(w) && forall k: nat :: !TakenAt(w, frames, e.code, k)
    ensures RecoverDepth(w, frames, e) == 0
  {
    var d := RecoverDepth(w, frames, e);
    if d > 0 {
      TakenIsDepth(w, frames, e, d - 1);
    }
  }

  // ------------------------------------------------------------------ what handlers find

  /** The error as a document: its code and message, its node unless it has none, its data unless it has none. */
  predicate Shows(j: Json, e: Error) {
    && j.Obj?
    && "code" in j.fields && j.fields["code"] == Str(e.code)
    && "message" in j.fields && j.fields["message"] == Str(e.message)
    && ("node" in j.fields <==> e.node != "") && ("node" in j.fields ==> j.fields["node"] == Str(e.node))
    && ("data" in j.fields <==> e.data != Null) && ("data" in j.fields ==> j.fields["data"] == e.data)
    && j.fields.Keys <= {"code", "message", "node", "data"}
  }

  lemma ErrorIsShown(e: Error)
    ensures Shows(ErrorJson(e), e)
  {
  }

  /** The error is the local `error` and, under the name the try gives it, a local and a context variable. */
  ghost predicate ErrorBound(before: Env, name: string, e: Error, after: Env) {
    && after == before.(locals := after.locals, vars := after.vars)
    && (forall x :: x !in {"error", name} || x == "" ==>
          (x in after.locals <==> x in before.locals) && (x in after.locals ==> after.locals[x] == before.locals[x]))
    && (forall x :: x != name || x == "" ==>
          (x in after.vars <==> x in before.vars) && (x in after.vars ==> after.vars[x] == before.vars[x]))
    && "error" in after.locals && Shows(after.locals["error"], e)
    && (name != "" ==> name in after.locals && Shows(after.locals[name], e)
                       && name in after.vars && Shows(after.vars[name], e))
  }

  lemma BindsError(env: Env, name: string, e: Error)
    ensures ErrorBound(env, name, e, BindError(env, name, e))
  {
    ErrorIsShown(e);
    hide ErrorJson, Shows;
  }

  /** Frame `k` is in its catch, at the first of these nodes; the frames beneath are as they were, those above gone. */
  ghost predicate CaughtBy(s: State, k: nat, ids: seq<Id>, e: Error, t: State)
    requires k < |s.frames| && s.frames[k].TryFrame? && ids != []
  {
    && |t.frames| == k + 1 && t.frames[..k] == s.frames[..k]
    && t.frames[k] == s.frames[k].(phase := InCatch, ids := ids, position := 0)
    && t.cursor == ids[0] && t.finished == s.finished && t.ending == s.ending && t.current == s.current
    && ErrorBound(s.env, s.frames[k].errorVar, e, t.env)
  }

  /** Frame `k` is in its cleanup, with the error parked. */
  ghost predicate ParkedBy(s: State, k: nat, e: Error, t: State)
    requires k < |s.frames| && s.frames[k].TryFrame? && s.frames[k].finallyIds != []
  {
    && |t.frames| == k + 1 && t.frames[..k] == s.frames[..k]
    && t.frames[k]
      == s.frames[k].(phase := InFinally, ids := s.frames[k].finallyIds, position := 0, propagate := Some(e))
    && t == s.(frames := t.frames, cursor := s.frames[k].finallyIds[0])
  }

  // ------------------------------------------------------------------ handling

  /** The node's own handler comes first, whatever is open: control jumps there with the error in the locals. */
  lemma OwnHandlerFirst(w: Workflow, o: Oracle, s: State, e: Error)
    requires !NoOwnHandler(w, s.current)
    ensures var r := HandleError(w, o, s, e);
            && r.Some?
            && exists j: Json :: Shows(j, e) && HandedOver(s, w.index[s.current].onError.value, j, r.value)
  {
    var s1 := s.(env := s.env.(locals := s.env.locals["error" := ErrorJson(e)]));
    JumpStands(s1, w.index[s.current].onError.value);
    ErrorIsShown(e);
    assert HandedOver(s, w.index[s.current].onError.value, ErrorJson(e),
      ResolveJump(s1, w.index[s.current].onError.value));
    hide HandedOver, ResolveJump, StandsAt, ErrorJson, Shows;
  }

  /**
   * The innermost frame that takes the error is a try: its routes send a listed code to the node they name; any
   * other code goes to the general catch; a try with neither parks the error in its cleanup, and one without
   * cleanup is closed with the error pending.
   */
  lemma RouteTaken(w: Workflow, o: Oracle, s: State, e: Error, k: nat)
    requires WellIndexed(w) && NoOwnHandler(w, s.current)
    requires TakenAt(w, s.frames, e.code, k) && s.frames[k].TryFrame?
    ensures var f := s.frames[k];
            var r := HandleError(w, o, s, e);
            && r.Some?
            && (e.code in f.catchWhen && f.catchWhen[e.code] in w.index ==>
                  CaughtBy(s, k, [f.catchWhen[e.code]], e, r.value) && r.value.cursor == f.catchWhen[e.code])
            && (!(e.code in f.catchWhen && f.catchWhen[e.code] in w.index) && f.catchIds != [] ==>
                  CaughtBy(s, k, f.catchIds, e, r.value) && r.value.cursor == f.catchIds[0])
            && (!(e.code in f.catchWhen && f.catchWhen[e.code] in w.index) && f.catchIds == [] ==>
                  if f.finallyIds != [] then ParkedBy(s, k, e, r.value)
                  else r.value == Advance(w, o, Behind(s.(frames := s.frames[..k + 1],
                                                          env := s.env.(pending := Some(e)))), f.node))
  {
    TakerTook(w, o, s, e, k);
    CaughtStands(s, k, e, HandleError(w, o, s, e).value);
    hide HandleError, CaughtBy, ParkedBy, Advance, Behind, WellIndexed, NoOwnHandler;
  }

  /** The try at `k` took the error. */
  ghost predicate TryTook(w: Workflow, o: Oracle, s: State, e: Error, k: nat, t: State)
    requires k < |s.frames| && s.frames[k].TryFrame?
  {
    var f := s.frames[k];
    if e.code in f.catchWhen && f.catchWhen[e.code] in w.index then CaughtBy(s, k, [f.catchWhen[e.code]], e, t)
    else if f.catchIds != [] then CaughtBy(s, k, f.catchIds, e, t)
    else if f.finallyIds != [] then ParkedBy(s, k, e, t)
    else t == Advance(w, o, Behind(s.(frames := s.frames[..k + 1], env := s.env.(pending := Some(e)))), f.node)
  }

  /** The try is said to take the error, and does. */
  lemma TakerTook(w: Workflow, o: Oracle, s: State, e: Error, k: nat)
    requires WellIndexed(w) && NoOwnHandler(w, s.current)
    requires TakenAt(w, s.frames, e.code, k) && s.frames[k].TryFrame?
    ensures HandleError(w, o, s, e).Some? && TryTook(w, o, s, e, k, HandleError(w, o, s, e).value)
  {
    TakenIsDepth(w, s.frames, e, k);
    NoHandlerNamed(w, s.current);
    TakerIsInBody(w, s.frames, e.code, k);
    HandledByTry(w, o, s, e, k);
    RecoveringTook(w, o, s, e, k);
    hide *;
  }

  lemma NoHandlerNamed(w: Workflow, id: Id)
    ensures HasHandler(w, id) <==> !NoOwnHandler(w, id)
  {
  }

  lemma TakerIsInBody(w: Workflow, frames: seq<Frame>, code: string, k: nat)
    requires TakenAt(w, frames, code, k)
    ensures k < |frames| && (frames[k].TryFrame? ==> frames[k].phase == InBody)
  {
  }

  lemma RecoveringTook(w: Workflow, o: Oracle, s: State, e: Error, k: nat)
    requires WellIndexed(w) && k < |s.frames| && s.frames[k].TryFrame? && s.frames[k].phase == InBody
    ensures TryTook(w, o, s, e, k, RecoverInTry(w, o, s.(frames := s.frames[..k + 1]), e))
  {
    var cut := s.(frames := s.frames[..k + 1]);
    var f := s.frames[k];
    assert Top(cut) == f && |cut.frames| - 1 == k;
    TryTakes(w, o, cut, e);
    CutAlike(s, k, e, RecoverInTry(w, o, cut, e));
    ListedIs(w, f, e.code);
    hide RecoverInTry, CaughtBy, ParkedBy, Advance, Behind, WellIndexed, Listed;
  }

  lemma ListedIs(w: Workflow, f: Frame, code: string)
    requires f.TryFrame?
    ensures Listed(w, f, code) <==> code in f.catchWhen && f.catchWhen[code] in w.index
  {
  }

  lemma HandledByTry(w: Workflow, o: Oracle, s: State, e: Error, k: nat)
    requires !HasHandler(w, s.current) && RecoverDepth(w, s.frames, e) == k + 1
    requires s.frames[k].TryFrame? && s.frames[k].phase == InBody
    ensures HandleError(w, o, s, e) == Some(RecoverInTry(w, o, s.(frames := s.frames[..k + 1]), e))
  {
    hide RecoverInTry, RecoverDepth;
  }

  lemma CaughtStands(s: State, k: nat, e: Error, t: State)
    requires k < |s.frames| && s.frames[k].TryFrame?
    ensures forall ids :: ids != [] && CaughtBy(s, k, ids, e, t) ==> t.cursor == ids[0]
  {
    hide ErrorBound;
  }

  lemma CutAlike(s: State, k: nat, e: Error, t: State)
    requires k < |s.frames| && s.frames[k].TryFrame?
    ensures var cut := s.(frames := s.frames[..k + 1]);
            && (forall ids :: ids != [] && CaughtBy(cut, k, ids, e, t) ==> CaughtBy(s, k, ids, e, t))
            && (s.frames[k].finallyIds != [] && ParkedBy(cut, k, e, t) ==> ParkedBy(s, k, e, t))
  {
    assert s.frames[..k + 1][..k] == s.frames[..k];
    hide ErrorBound;
  }

  lemma TryTakes(w: Workflow, o: Oracle, s: State, e: Error)
    requires WellIndexed(w) && s.frames != [] && Top(s).TryFrame? && Top(s).phase == InBody
    ensures var f := Top(s);
            var t := RecoverInTry(w, o, s, e);
            var k := |s.frames| - 1;
            if Listed(w, f, e.code) then CaughtBy(s, k, [f.catchWhen[e.code]], e, t)
            else if f.catchIds != [] then CaughtBy(s, k, f.catchIds, e, t)
            else if f.finallyIds != [] then ParkedBy(s, k, e, t)
            else t == Advance(w, o, Behind(s.(env := s.env.(pending := Some(e)))), f.node)
  {
    var f := Top(s);
    RecoversIff(w, f, e);
    if Listed(w, f, e.code) {
      TryCatches(w, o, s, e, [f.catchWhen[e.code]]);
    } else if f.catchIds != [] {
      TryCatches(w, o, s, e, f.catchIds);
    } else {
      TryFails(w, o, s, e);
    }
    hide *;
  }

  lemma TryCatches(w: Workflow, o: Oracle, s: State, e: Error, ids: seq<Id>)
    requires s.frames != [] && Top(s).TryFrame? && Top(s).phase == InBody && ids != []
    requires var routed := Routed(w, Top(s), e.code);
             ids == if routed != "" then [routed] else Top(s).catchIds
    ensures CaughtBy(s, |s.frames| - 1, ids, e, RecoverInTry(w, o, s, e))
  {
    BindsError(s.env, Top(s).errorVar, e);
    hide BindError, ErrorBound, CloseFrame, Routed;
  }

  lemma TryFails(w: Workflow, o: Oracle, s: State, e: Error)
    requires s.frames != [] && Top(s).TryFrame? && Top(s).phase == InBody
    requires Routed(w, Top(s), e.code) == "" && Top(s).catchIds == []
    ensures var t := RecoverInTry(w, o, s, e);
            if Top(s).finallyIds != [] then ParkedBy(s, |s.frames| - 1, e, t)
            else t == Advance(w, o, Behind(s.(env := s.env.(pending := Some(e)))), Top(s).node)
  {
    BehindIsClosed(w, o, s.(env := s.env.(pending := Some(e))));
    hide CloseFrame, Advance, Behind, Routed;
  }

  /** A try that lists other codes only is passed over: the error goes where it would go from beneath it. */
  lemma UnlistedPassesBy(w: Workflow, o: Oracle, s: State, e: Error, k: nat)
    requires WellIndexed(w) && NoOwnHandler(w, s.current)
    requires k < |s.frames| && s.frames[k].TryFrame? && s.frames[k].catchIds == [] && s.frames[k].catchWhen != map[]
    requires !(e.code in s.frames[k].catchWhen && s.frames[k].catchWhen[e.code] in w.index)
    requires forall j :: k < j < |s.frames| ==> !Catches(w, s.frames[j], e.code) && !SkipsItems(s.frames[j])
    ensures forall d: nat :: TakenAt(w, s.frames, e.code, d) <==> TakenAt(w, s.frames[..k], e.code, d)
    ensures (forall d: nat :: !TakenAt(w, s.frames[..k], e.code, d)) ==> HandleError(w, o, s, e).None?
    ensures (exists d: nat :: TakenAt(w, s.frames[..k], e.code, d) && s.frames[d].TryFrame?) ==>
              HandleError(w, o, s, e) == HandleError(w, o, s.(frames := s.frames[..k]), e)
  {
    DeafFrame(w, s.frames, e.code, k);
    if forall d: nat :: !TakenAt(w, s.frames[..k], e.code, d) {
      NobodyTakes(w, s.frames, e);
    }
    forall d: nat | TakenAt(w, s.frames[..k], e.code, d) && s.frames[d].TryFrame?
      ensures HandleError(w, o, s, e) == HandleError(w, o, s.(frames := s.frames[..k]), e)
    {
      SameTryHandles(w, o, s, e, k, d);
    }
    hide RecoverInTry, RecoverDepth, TakenAt, Catches, SkipsItems;
  }

  lemma DeafFrame(w: Workflow, frames: seq<Frame>, code: string, k: nat)
    requires k < |frames| && forall j :: k <= j < |frames| ==> !Catches(w, frames[j], code) && !SkipsItems(frames[j])
    ensures forall d: nat :: TakenAt(w, frames, code, d) <==> TakenAt(w, frames[..k], code, d)
  {
    hide Catches, SkipsItems;
  }

  lemma SameTryHandles(w: Workflow, o: Oracle, s: State, e: Error, k: nat, d: nat)
    requires WellIndexed(w) && NoOwnHandler(w, s.current) && k <= |s.frames|
    requires TakenAt(w, s.frames, e.code, d) && TakenAt(w, s.frames[..k], e.code, d) && s.frames[d].TryFrame?
    ensures HandleError(w, o, s, e) == HandleError(w, o, s.(frames := s.frames[..k]), e)
  {
    TakenIsDepth(w, s.frames, e, d);
    TakenIsDepth(w, s.frames[..k], e, d);
    HandledByTry(w, o, s, e, d);
    HandledByTry(w, o, s.(frames := s.frames[..k]), e, d);
    assert s.frames[..k][..d + 1] == s.frames[..d + 1];
    hide HandleError, RecoverInTry, RecoverDepth;
  }

  /** The innermost frame that takes the error is a loop that skips items: the innermost loop goes on. */
  lemma LoopSkipsItem(w: Workflow, o: Oracle, s: State, e: Error, k: nat, inner: nat)
    requires WellIndexed(w) && NoOwnHandler(w, s.current)
    requires TakenAt(w, s.frames, e.code, k) && s.frames[k].LoopFrame? && LoopAt(s.frames, "", inner)
    ensures HandleError(w, o, s, e) == Some(NextPass(w, o, s.(frames := s.frames[..inner + 1])))
  {
    TakenIsDepth(w, s.frames, e, k);
    LoopIsDepth(s.frames, "", inner);
    hide NextPass, LoopDepth, RecoverDepth, TakenAt;
  }

  // ------------------------------------------------------------------ raising

  /** An error nothing takes ends the run as failed, blamed on the node it names or else on the one that ran. */
  lemma NobodyHandles(w: Workflow, o: Oracle, s: State, e: Error, blame: Id)
    requires WellIndexed(w) && NoOwnHandler(w, s.current) && forall k: nat :: !TakenAt(w, s.frames, e.code, k)
    ensures var t := Raise(w, o, s, e, blame);
            && HandleError(w, o, s, e).None? && t.finished && t.frames == s.frames && t.env == s.env
            && t.ending.status == Failed && t.ending.suspend.None? && t.ending.thrown.None?
            && t.ending.failure == Some(if e.node == "" then e.(node := blame) else e)
  {
    NobodyTakes(w, s.frames, e);
    hide RecoverDepth;
  }

  lemma HandledIsRaised(w: Workflow, o: Oracle, s: State, e: Error, blame: Id)
    ensures HandleError(w, o, s, e).Some? ==> Raise(w, o, s, e, blame) == HandleError(w, o, s, e).value
  {
    hide HandleError;
  }

  /** Control jumped to the node's own handler, with the error in the locals. */
  ghost predicate WentToHandler(w: Workflow, s: State, e: Error, t: State)
    requires !NoOwnHandler(w, s.current)
  {
    exists j: Json :: Shows(j, e) && HandedOver(s, w.index[s.current].onError.value, j, t)
  }

  ghost predicate HandedOver(s: State, handler: Id, j: Json, t: State) {
    StandsAt(s.(env := s.env.(locals := s.env.locals["error" := j])), handler, t)
  }

  /** The innermost loop went on to its next pass. */
  ghost predicate LoopWentOn(w: Workflow, o: Oracle, s: State, t: State) {
    exists k: nat :: LoopAt(s.frames, "", k) && t == NextPass(w, o, s.(frames := s.frames[..k + 1]))
  }

  ghost predicate TakerActs(w: Workflow, o: Oracle, s: State, e: Error, k: nat, t: State)
    requires k < |s.frames|
  {
    if s.frames[k].TryFrame? then TryTook(w, o, s, e, k, t) else LoopWentOn(w, o, s, t)
  }

  predicate FailedWith(s: State, e: Error, t: State) {
    && t.finished && t.frames == s.frames && t.env == s.env
    && t.ending == Live.(status := Failed, failure := Some(e))
  }

  /** Where an error goes: to the node's own handler, else to the innermost frame that takes it, else nowhere. */
  ghost predicate GoesTo(w: Workflow, o: Oracle, s: State, e: Error, blame: Id, t: State) {
    && (!NoOwnHandler(w, s.current) ==> WentToHandler(w, s, e, t))
    && (NoOwnHandler(w, s.current) && (forall k: nat :: !TakenAt(w, s.frames, e.code, k)) ==>
          FailedWith(s, if e.node == "" then e.(node := blame) else e, t))
    && forall k: nat :: NoOwnHandler(w, s.current) && TakenAt(w, s.frames, e.code, k) ==> TakerActs(w, o, s, e, k, t)
  }

  /** Every error, on every stack, goes to the nearest handler. */
  lemma ErrorIsRouted(w: Workflow, o: Oracle, s: State, e: Error, blame: Id)
    requires WellIndexed(w)
    ensures GoesTo(w, o, s, e, blame, Raise(w, o, s, e, blame))
  {
    HandledIsRaised(w, o, s, e, blame);
    if !NoOwnHandler(w, s.current) {
      HandlerIsTold(w, o, s, e);
    } else if forall k: nat :: !TakenAt(w, s.frames, e.code, k) {
      NobodyHandles(w, o, s, e, blame);
    } else {
      forall k: nat | TakenAt(w, s.frames, e.code, k)
        ensures HandleError(w, o, s, e).Some? && TakerActs(w, o, s, e, k, HandleError(w, o, s, e).value)
      {
        TakerTakes(w, o, s, e, k);
      }
    }
    hide HandleError, WentToHandler, TakenAt, TakerActs;
  }

  lemma HandlerIsTold(w: Workflow, o: Oracle, s: State, e: Error)
    requires !NoOwnHandler(w, s.current)
    ensures HandleError(w, o, s, e).Some? && WentToHandler(w, s, e, HandleError(w, o, s, e).value)
  {
    OwnHandlerFirst(w, o, s, e);
    var j :| Shows(j, e) && HandedOver(s, w.index[s.current].onError.value, j, HandleError(w, o, s, e).value);
    hide HandleError, StandsAt, Shows;
  }

  lemma TakerTakes(w: Workflow, o: Oracle, s: State, e: Error, k: nat)
    requires WellIndexed(w) && NoOwnHandler(w, s.current) && TakenAt(w, s.frames, e.code, k)
    ensures HandleError(w, o, s, e).Some? && TakerActs(w, o, s, e, k, HandleError(w, o, s, e).value)
  {
    if s.frames[k].TryFrame? {
      TakerTook(w, o, s, e, k);
    } else {
      var inner := InnermostLoop(s.frames, k);
      LoopSkipsItem(w, o, s, e, k, inner);
    }
    hide HandleError, NextPass, CaughtBy, ParkedBy, Advance, Behind, LoopAt, Catches;
  }

  lemma InnermostLoop(frames: seq<Frame>, k: nat) returns (inner: nat)
    requires k < |frames| && frames[k].LoopFrame?
    ensures LoopAt(frames, "", inner)
  {
    hide LoopDepth, LoopAt;
    assert IsLoopFor(frames[k], "");
    inner := LoopDepth(frames, "") - 1;
    LoopIsDepth(frames, "", inner);
  }

  /** A pending error is raised before anything else, and the round activates nothing. */
  lemma PendingComesFirst(w: Workflow, o: Oracle, s: State)
    requires WellIndexed(w) && !s.finished && s.env.pending.Some?
    ensures var e := s.env.pending.value;
            Step(w, o, s) == Raise(w, o, s.(env := s.env.(pending := None)), e, "")
    ensures Step(w, o, s).env.visited == s.env.visited && Step(w, o, s).env.visits == s.env.visits
  {
    hide Raise;
  }

  /** Control at a node that does not exist is an error of the node it came from; unhandled, the failure names none. */
  lemma UnknownNode(w: Workflow, o: Oracle, s: State)
    requires WellIndexed(w) && !s.finished && s.env.pending.None? && s.cursor != "" && s.cursor !in w.index
    ensures var astray := s.(cursor := "");
            var e := Error("ROUTING_ERROR", "", s.current, Null);
            var r := HandleError(w, o, astray, e);
            if r.Some? then Step(w, o, s) == r.value
            else Step(w, o, s) == astray.(finished := true,
                                          ending := Live.(status := Failed, failure := Some(e.(node := ""))))
  {
    hide HandleError;
  }
}
