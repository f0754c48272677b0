// A suspended session as data: the frame stack as JSON and back, and the state a resumed run starts from.

module Checkpoint {
  import opened Json
  import opened Blueprint
  import opened Machine

  // ------------------------------------------------------------------ reading JSON objects

  function Field(j: Json, key: string): Json {
    if j.Obj? && key in j.fields then j.fields[key] else Null
  }

  function TextOr(j: Json, key: string, fallback: string): string {
    if Field(j, key).Str? then Field(j, key).text else fallback
  }

  function NumOr(j: Json, key: string, fallback: int): int {
    if Field(j, key).Num? then Field(j, key).num else fallback
  }

  /** The strings of an id list; other entries are skipped. */
  function IdsOf(items: seq<Json>): seq<Id> {
    if items == [] then []
    else if items[0].Str? then [items[0].text] + IdsOf(items[1..])
    else IdsOf(items[1..])
  }

  function IdList(j: Json, key: string): seq<Id> {
    if Field(j, key).Arr? then IdsOf(Field(j, key).items) else []
  }

  function IdArray(ids: seq<Id>): Json {
    Arr(seq(|ids|, i requires 0 <= i < |ids| => Str(ids[i])))
  }

  lemma {:induction false} IdArrayRoundTrip(ids: seq<Id>)
    ensures IdsOf(IdArray(ids).items) == ids
  {
    if ids != [] {
      IdArrayRoundTrip(ids[1..]);
      assert IdArray(ids).items[1..] == IdArray(ids[1..]).items;
    }
  }

  // ------------------------------------------------------------------ errors

  function ErrorFromJson(j: Json): Error {
    Error(TextOr(j, "code", "INTERNAL_ERROR"), TextOr(j, "message", ""), TextOr(j, "node", ""), Field(j, "data"))
  }

  lemma ErrorRoundTrip(e: Error)
    ensures ErrorFromJson(ErrorJson(e)) == e
  {
  }

  // ------------------------------------------------------------------ frames

  function PhaseText(p: Phase): string {
    match p
    case InBody => "body"
    case InCatch => "catch"
    case InFinally => "finally"
  }

  function PhaseFromText(t: string): Phase {
    if t == "catch" then InCatch else if t == "finally" then InFinally else InBody
  }

  function KindText(f: Frame): string {
    match f
    case LoopFrame(_, _, _, _, _, _, _, _, _, _, _, _) => "loop"
    case TryFrame(_, _, _, _, _, _, _, _, _, _) => "try"
    case BodyFrame(_, _, _, _, _) => "body"
    case BranchFrame(_, _, _, _, _) => "branch"
  }

  function StateJson(f: Frame): Json {
    match f
    case LoopFrame(node, ids, _, _, whileMode, items, index, total, cap, itemVar, indexVar, onItemError) =>
      Obj(map["ids" := IdArray(ids), "mode" := Str(if whileMode then "while" else "collection"), "items" := Arr(items),
              "index" := Num(index), "total" := Num(total), "max_iterations" := Num(cap),
              "iterator" := Str(itemVar), "index_variable" := Str(indexVar),
              "on_item_error" := Str(onItemError), "loop_id" := Str(node)])
    case TryFrame(_, ids, _, _, phase, catchIds, finallyIds, errorVar, catchWhen, propagate) =>
      var base := map["ids" := IdArray(ids), "phase" := Str(PhaseText(phase)), "catch_ids" := IdArray(catchIds),
                      "finally_ids" := IdArray(finallyIds), "error_variable" := Str(errorVar),
                      "catch_when" := Obj(map code | code in catchWhen :: Str(catchWhen[code]))];
      Obj(if propagate.None? then base else base["propagate" := ErrorJson(propagate.value)])
    case BodyFrame(_, ids, _, _, taken) =>
      Obj(map["ids" := IdArray(ids), "branch" := Str(if taken then "then" else "else")])
    case BranchFrame(_, ids, _, _, branch) =>
      Obj(map["ids" := IdArray(ids), "branch_index" := Num(branch)])
  }

  function FrameJson(f: Frame): Json {
    Obj(map["kind" := Str(KindText(f)), "node" := Str(f.node), "position" := Num(f.position),
            "resume" := Str(f.resume), "state" := StateJson(f)])
  }

  /** A position is read back as a 32-bit integer. */
  function Narrow(n: int): int {
    (n + 0x8000_0000) % 0x1_0000_0000 - 0x8000_0000
  }

  function LoopFromJson(node: Id, position: int, resume: Id, st: Json): Frame {
    LoopFrame(node, IdList(st, "ids"), position, resume, TextOr(st, "mode", "") == "while",
              if Field(st, "items").Arr? then Field(st, "items").items else [],
              NumOr(st, "index", 0), NumOr(st, "total", 0), NumOr(st, "max_iterations", 1000),
              TextOr(st, "iterator", "item"), TextOr(st, "index_variable", "index"),
              TextOr(st, "on_item_error", "fail"))
  }

  function TryFromJson(node: Id, position: int, resume: Id, st: Json): Frame {
    var routes := Field(st, "catch_when");
    TryFrame(node, IdList(st, "ids"), position, resume, PhaseFromText(TextOr(st, "phase", "body")),
             IdList(st, "catch_ids"), IdList(st, "finally_ids"), TextOr(st, "error_variable", "error"),
             if routes.Obj? then
               map code | code in routes.fields && routes.fields[code].Str? :: routes.fields[code].text
             else map[],
             if Field(st, "propagate") != Null then Some(ErrorFromJson(Field(st, "propagate"))) else None)
  }

  function FrameFromJson(j: Json): Option<Frame> {
    var kind := TextOr(j, "kind", "");
    var node := TextOr(j, "node", "");
    var position := Narrow(NumOr(j, "position", 0));
    var resume := TextOr(j, "resume", "");
    var st := Field(j, "state");
    if kind == "loop" then Some(LoopFromJson(node, position, resume, st))
    else if kind == "try" then Some(TryFromJson(node, position, resume, st))
    else if kind == "body" then
      Some(BodyFrame(node, IdList(st, "ids"), position, resume, TextOr(st, "branch", "") == "then"))
    else if kind == "branch" then
      Some(BranchFrame(node, IdList(st, "ids"), position, resume, NumOr(st, "branch_index", 0)))
    else None
  }

  predicate FitsInt(f: Frame) {
    -0x8000_0000 <= f.position < 0x8000_0000
  }

  lemma LoopRoundTrip(f: Frame)
    requires f.LoopFrame?
    ensures LoopFromJson(f.node, f.position, f.resume, StateJson(f)) == f
  {
    IdArrayRoundTrip(f.ids);
  }

  lemma TryRoundTrip(f: Frame)
    requires f.TryFrame?
    ensures TryFromJson(f.node, f.position, f.resume, StateJson(f)) == f
  {
    hide IdArray, IdsOf, ErrorJson, ErrorFromJson;
    IdArrayRoundTrip(f.ids);
    IdArrayRoundTrip(f.catchIds);
    IdArrayRoundTrip(f.finallyIds);
    IdArraysAreArrays(f);
    var g := TryFromJson(f.node, f.position, f.resume, StateJson(f));
    assert g.catchWhen == f.catchWhen;
    if f.propagate.Some? {
      ErrorRoundTrip(f.propagate.value);
      ErrorJsonIsObject(f.propagate.value);
    }
  }

  lemma IdArraysAreArrays(f: Frame)
    requires f.TryFrame?
    ensures IdArray(f.ids).Arr? && IdArray(f.catchIds).Arr? && IdArray(f.finallyIds).Arr?
  {
  }

  lemma ErrorJsonIsObject(e: Error)
    ensures ErrorJson(e).Obj?
  {
  }

  lemma NarrowFits(n: int)
    requires -0x8000_0000 <= n < 0x8000_0000
    ensures Narrow(n) == n
  {
  }

  lemma BodyRoundTrip(f: Frame)
    requires f.BodyFrame?
    ensures var st := StateJson(f);
            BodyFrame(f.node, IdList(st, "ids"), f.position, f.resume, TextOr(st, "branch", "") == "then") == f
  {
    IdArrayRoundTrip(f.ids);
  }

  lemma BranchRoundTrip(f: Frame)
    requires f.BranchFrame?
    ensures var st := StateJson(f);
            BranchFrame(f.node, IdList(st, "ids"), f.position, f.resume, NumOr(st, "branch_index", 0)) == f
  {
    IdArrayRoundTrip(f.ids);
  }

  lemma HeaderRoundTrip(f: Frame)
    ensures var j := FrameJson(f);
            && TextOr(j, "kind", "") == KindText(f) && TextOr(j, "node", "") == f.node
            && NumOr(j, "position", 0) == f.position && TextOr(j, "resume", "") == f.resume
            && Field(j, "state") == StateJson(f)
  {
    hide StateJson, KindText;
  }

  /** Any frame written to a checkpoint is read back unchanged. */
  lemma FrameRoundTrip(f: Frame)
    requires FitsInt(f)
    ensures FrameFromJson(FrameJson(f)) == Some(f)
  {
    NarrowFits(f.position);
    HeaderRoundTrip(f);
    hide Narrow, FrameJson, StateJson, LoopFromJson, TryFromJson, IdList, TextOr, NumOr, Field;
    match f
    case LoopFrame(_, _, _, _, _, _, _, _, _, _, _, _) => LoopRoundTrip(f);
    case TryFrame(_, _, _, _, _, _, _, _, _, _) => TryRoundTrip(f);
    case BodyFrame(_, ids, _, _, _) => BodyRoundTrip(f);
    case BranchFrame(_, ids, _, _, _) => BranchRoundTrip(f);
  }

  function FramesToJson(frames: seq<Frame>): Json {
    Arr(seq(|frames|, i requires 0 <= i < |frames| => FrameJson(frames[i])))
  }

  function FramesOf(items: seq<Json>): seq<Frame> {
    if items == [] then []
    else
      var f := FrameFromJson(items[0]);
      (if f.Some? then [f.value] else []) + FramesOf(items[1..])
  }

  function FramesFromJson(j: Json): seq<Frame> {
    if j.Arr? then FramesOf(j.items) else []
  }

  /** A whole stack survives a checkpoint. */
  lemma {:induction false} FramesRoundTrip(frames: seq<Frame>)
    requires forall k :: 0 <= k < |frames| ==> FitsInt(frames[k])
    ensures FramesFromJson(FramesToJson(frames)) == frames
  {
    hide FrameJson, FrameFromJson;
    if frames != [] {
      FrameRoundTrip(frames[0]);
      FramesRoundTrip(frames[1..]);
      assert FramesToJson(frames).items[1..] == FramesToJson(frames[1..]).items;
    }
  }
}
