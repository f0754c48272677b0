// The flat workflow graph the interpreter runs on: nodes, their edges and the id index.

module Blueprint {
  import opened Json

  type Id = string

  /** What a node owns besides its common fields. Leaves carry only the targets they may name statically. */
  datatype Kind =
    | Leaf(terminal: bool, targets: seq<Id>)
    | Loop(body: seq<Id>, maxIterations: int, onItemError: string, itemVar: string, indexVar: string)
    | Try(tryBody: seq<Id>, catchBody: seq<Id>, finallyBody: seq<Id>, errorVar: string, catchWhen: map<string, Id>)
    | Condition(onTrue: Id, onFalse: Id, thenBody: seq<Id>, elseBody: seq<Id>)

  datatype Node = Node(id: Id, next: Option<Id>, onError: Option<Id>, enabled: bool, kind: Kind)

  datatype Workflow = Workflow(nodes: seq<Node>, entry: Id, index: map<Id, Node>)

  /** Every node is filed under its own non-empty id, and bodies that must be non-empty are. */
  ghost predicate WellIndexed(w: Workflow) {
    && "" !in w.index
    && (forall id :: id in w.index ==> w.index[id].id == id)
    && (forall id :: id in w.index ==>
          match w.index[id].kind
          case Loop(body, _, _, _, _) => body != []
          case Try(body, _, _, _, _) => body != []
          case _ => true)
  }

  /** The validator's demand on `on_error`: a handler that is named exists. */
  ghost predicate HandlersExist(w: Workflow) {
    forall id :: id in w.index && w.index[id].onError.Some? && w.index[id].onError.value != "" ==>
      w.index[id].onError.value in w.index
  }

  /** Position of the first occurrence of `id`, or -1. */
  function IndexOf(ids: seq<Id>, id: Id): (k: int)
    ensures -1 <= k < |ids|
    ensures k < 0 <==> id !in ids
    ensures k >= 0 ==> ids[k] == id && id !in ids[..k]
  {
    if ids == [] then -1
    else if ids[0] == id then 0
    else
      var r := IndexOf(ids[1..], id);
      if r < 0 then -1
      else
        assert ids[..r + 1] == [ids[0]] + ids[1..][..r];
        r + 1
  }
}
