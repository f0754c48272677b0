// The static validator: which nodes can be reached, which targets are missing, and which
// control-flow cycles exist.

module Validator {
  import opened Json
  import opened Blueprint

  // ------------------------------------------------------------------ the graph

  function Named(ids: seq<Id>): set<Id> {
    set id | id in ids && id != ""
  }

  function Opt(t: Option<Id>): set<Id> {
    if t.Some? then Named([t.value]) else {}
  }

  function Routes(when: map<string, Id>): set<Id> {
    set code | code in when && when[code] != "" :: when[code]
  }

  /** Everything a node may lead to. */
  function Targets(n: Node): set<Id> {
    (match n.kind
     case Leaf(_, targets) => Named(targets)
     case Condition(onTrue, onFalse, thenBody, elseBody) =>
       Named([onTrue, onFalse]) + Named(thenBody) + Named(elseBody)
     case Loop(body, _, _, _, _) => Named(body)
     case Try(body, catchBody, finallyBody, _, catchWhen) =>
       Named(body) + Named(catchBody) + Named(finallyBody) + Routes(catchWhen))
    + Opt(n.next) + Opt(n.onError)
  }

  /** An empty name refers to nothing. */
  lemma NoEmptyTarget(n: Node)
    ensures "" !in Targets(n)
  {
  }

  ghost predicate Edge(w: Workflow, a: Id, b: Id) {
    a in w.index && b in w.index && b in Targets(w.index[a])
  }

  ghost predicate IsPath(w: Workflow, p: seq<Id>) {
    && p != []
    && (forall i :: 0 <= i < |p| ==> p[i] in w.index)
    && (forall i :: 0 < i < |p| ==> Edge(w, p[i - 1], p[i]))
  }

  ghost predicate Reachable(w: Workflow, from: Id, to: Id) {
    exists p :: IsPath(w, p) && p[0] == from && p[|p| - 1] == to
  }

  /** A cycle of the graph of existing nodes, listed once around. */
  ghost predicate IsCycle(w: Workflow, c: seq<Id>) {
    IsPath(w, c) && Edge(w, c[|c| - 1], c[0])
  }

  ghost predicate Closed(w: Workflow, r: set<Id>) {
    forall a, b :: a in r && Edge(w, a, b) ==> b in r
  }

  lemma ReachStep(w: Workflow, from: Id, a: Id, b: Id)
    requires Reachable(w, from, a) && Edge(w, a, b)
    ensures Reachable(w, from, b)
  {
    var p :| IsPath(w, p) && p[0] == from && p[|p| - 1] == a;
    var q := p + [b];
    assert forall i :: 0 <= i < |p| ==> q[i] == p[i];
    assert IsPath(w, q);
    assert q[0] == from && q[|q| - 1] == b;
  }

  lemma ReachSelf(w: Workflow, from: Id)
    requires from in w.index
    ensures Reachable(w, from, from)
  {
    assert IsPath(w, [from]);
    assert [from][0] == from && [from][|[from]| - 1] == from;
  }

  lemma {:induction false} ClosedHoldsPaths(w: Workflow, r: set<Id>, p: seq<Id>)
    requires Closed(w, r) && IsPath(w, p) && p[0] in r
    ensures p[|p| - 1] in r
  {
    if |p| > 1 {
      var q := p[..|p| - 1];
      assert forall i :: 0 <= i < |q| ==> q[i] == p[i];
      assert IsPath(w, q);
      ClosedHoldsPaths(w, r, q);
      assert Edge(w, p[|p| - 2], p[|p| - 1]);
    }
  }

  // ------------------------------------------------------------------ listing targets

  /** Appends the named ids of a list, in order. */
  method PushAll(targets: seq<Id>, values: seq<Id>) returns (r: seq<Id>)
    ensures forall id :: id in r <==> id in targets || id in Named(values)
  {
    r := targets;
    var i := 0;
    while i < |values|
      invariant 0 <= i <= |values|
      invariant forall id :: id in r <==> id in targets || id in Named(values[..i])
    {
      if values[i] != "" {
        r := r + [values[i]];
      }
      i := i + 1;
    }
    assert values[..i] == values;
  }

  method PushOption(targets: seq<Id>, value: Option<Id>) returns (r: seq<Id>)
    ensures forall id :: id in r <==> id in targets || id in Opt(value)
  {
    r := targets;
    if value.Some? && value.value != "" {
      r := r + [value.value];
    }
  }

  /** Appends the targets of a catch table (in key order in the engine; the order is left open here). */
  method PushRoutes(targets: seq<Id>, when: map<string, Id>) returns (r: seq<Id>)
    ensures forall id :: id in r <==> id in targets || id in Routes(when)
  {
    r := targets;
    var codes := when.Keys;
    while codes != {}
      invariant codes <= when.Keys
      invariant forall id :: id in r <==>
                  id in targets || exists code :: code in when.Keys - codes && when[code] == id && id != ""
      decreases codes
    {
      var code :| code in codes;
      if when[code] != "" {
        r := r + [when[code]];
      }
      ghost var before := codes;
      codes := codes - {code};
      assert when.Keys - codes == (when.Keys - before) + {code};
    }
    assert when.Keys - codes == when.Keys;
  }

  method OutgoingTargets(n: Node) returns (targets: seq<Id>)
    ensures forall id :: id in targets <==> id in Targets(n)
  {
    hide Named, Opt, Routes;
    targets := [];
    match n.kind {
      case Leaf(_, named) => targets := PushAll(targets, named);
      case Condition(onTrue, onFalse, thenBody, elseBody) =>
        targets := PushAll(targets, [onTrue, onFalse]);
        targets := PushAll(targets, thenBody);
        targets := PushAll(targets, elseBody);
      case Loop(body, _, _, _, _) => targets := PushAll(targets, body);
      case Try(body, catchBody, finallyBody, _, catchWhen) =>
        targets := PushAll(targets, body);
        targets := PushAll(targets, catchBody);
        targets := PushAll(targets, finallyBody);
        targets := PushRoutes(targets, catchWhen);
    }
    targets := PushOption(targets, n.next);
    targets := PushOption(targets, n.onError);
  }

  // ------------------------------------------------------------------ reachability

  /** Depth-first search with an explicit stack: exactly the reachable nodes, each listed once. */
  method ReachableFrom(w: Workflow, entry: Id) returns (order: seq<Id>)
    requires "" !in w.index
    ensures forall id :: id in order <==> entry in w.index && Reachable(w, entry, id)
    ensures forall i, j :: 0 <= i < j < |order| ==> order[i] != order[j]
  {
    var visited: set<Id> := {};
    order := [];
    var stack := [entry];
    while stack != []
      invariant forall id :: id in visited <==> id in order
      invariant visited <= w.index.Keys
      invariant forall i, j :: 0 <= i < j < |order| ==> order[i] != order[j]
      invariant forall id :: id in visited ==> Reachable(w, entry, id)
      invariant forall id :: id in stack && id in w.index ==> Reachable(w, entry, id)
      invariant entry in w.index ==> entry in visited || entry in stack
      invariant forall a, b :: a in visited && Edge(w, a, b) ==> b in visited || b in stack
      decreases w.index.Keys - visited, |stack|
    {
      var id := stack[|stack| - 1];
      ghost var before := stack;
      stack := stack[..|stack| - 1];
      assert forall x :: x in before ==> x in stack || x == id;
      if id == "" || id in visited || id !in w.index {
        continue;
      }
      visited := visited + {id};
      order := order + [id];
      if before == [entry] && |order| == 1 {
        ReachSelf(w, entry);
      }
      var targets := OutgoingTargets(w.index[id]);
      forall b | Edge(w, id, b)
        ensures Reachable(w, entry, b)
      {
        ReachStep(w, entry, id, b);
      }
      stack := stack + targets;
    }
    assert Closed(w, visited);
    forall id | entry in w.index && Reachable(w, entry, id)
      ensures id in order
    {
      var p :| IsPath(w, p) && p[0] == entry && p[|p| - 1] == id;
      ClosedHoldsPaths(w, visited, p);
    }
  }

  // ------------------------------------------------------------------ missing targets

  /** Every reference is to an existing node. */
  ghost predicate TargetsExist(w: Workflow) {
    forall id :: id in w.index ==> Targets(w.index[id]) <= w.index.Keys
  }

  datatype Issue = UnknownTarget(node: Id, target: Id)

  /** The nodes listed are the nodes indexed. */
  ghost predicate Indexed(w: Workflow) {
    && (forall n :: n in w.nodes ==> n.id in w.index && w.index[n.id] == n)
    && (forall id :: id in w.index ==> w.index[id].id == id && w.index[id] in w.nodes)
  }

  method CheckTargets(w: Workflow, node: Node, before: seq<Issue>) returns (issues: seq<Issue>)
    ensures forall n, t :: UnknownTarget(n, t) in issues <==>
              UnknownTarget(n, t) in before || (n == node.id && t in Targets(node) && t !in w.index)
  {
    var targets := OutgoingTargets(node);
    issues := before;
    var j := 0;
    while j < |targets|
      invariant 0 <= j <= |targets|
      invariant forall n, t :: UnknownTarget(n, t) in issues <==>
                  UnknownTarget(n, t) in before || (n == node.id && t in targets[..j] && t !in w.index)
    {
      hide Targets;
      if targets[j] !in w.index {
        issues := issues + [UnknownTarget(node.id, targets[j])];
      }
      j := j + 1;
    }
    assert targets[..j] == targets;
  }

  ghost predicate Dangling(w: Workflow, n: Id, t: Id) {
    n in w.index && t in Targets(w.index[n]) && t !in w.index
  }

  /** One error for every reference to a node that does not exist; none exactly when all references exist. */
  method MissingTargets(w: Workflow) returns (issues: seq<Issue>)
    requires Indexed(w)
    ensures forall n, t :: UnknownTarget(n, t) in issues <==> Dangling(w, n, t)
    ensures issues == [] <==> TargetsExist(w)
  {
    hide Targets;
    issues := [];
    var i := 0;
    while i < |w.nodes|
      invariant 0 <= i <= |w.nodes|
      invariant forall n, t :: UnknownTarget(n, t) in issues ==> Dangling(w, n, t)
      invariant forall k, t :: 0 <= k < i && t in Targets(w.nodes[k]) && t !in w.index ==>
                  UnknownTarget(w.nodes[k].id, t) in issues
    {
      issues := CheckTargets(w, w.nodes[i], issues);
      i := i + 1;
    }
    forall n, t | Dangling(w, n, t)
      ensures UnknownTarget(n, t) in issues
    {
      var k :| 0 <= k < |w.nodes| && w.nodes[k] == w.index[n];
      assert w.index[w.nodes[k].id] == w.nodes[k];
    }
    if issues != [] {
      var u := issues[0];
      assert u == UnknownTarget(u.node, u.target) && u in issues;
      assert Dangling(w, u.node, u.target);
    }
  }

  // ------------------------------------------------------------------ cycles

  const Arrow: string := " -> "

  function Joined(ids: seq<Id>): string {
    if ids == [] then ""
    else if |ids| == 1 then ids[0]
    else ids[0] + Arrow + Joined(ids[1..])
  }

  datatype CycleIssue = CycleIssue(node: Id, cycle: seq<Id>)

  predicate Unique(p: seq<Id>) {
    forall i, j :: 0 <= i < j < |p| ==> p[i] != p[j]
  }

  lemma TargetIsEdge(w: Workflow, a: Id, b: Id)
    requires a in w.index && b in w.index && b in Targets(w.index[a])
    ensures Edge(w, a, b)
  {
  }

  lemma EdgesAreTargets(w: Workflow, id: Id)
    ensures forall t :: Edge(w, id, t) ==> id in w.index && t in w.index && t in Targets(w.index[id])
  {
  }

  /** Every edge out of a finished node leads to one finished earlier. */
  ghost predicate FinishedFirst(w: Workflow, finish: seq<Id>) {
    forall i, t :: 0 <= i < |finish| && Edge(w, finish[i], t) ==> t in finish[..i]
  }

  lemma FinishedFirstGrows(w: Workflow, finish: seq<Id>, id: Id)
    requires FinishedFirst(w, finish) && forall t :: Edge(w, id, t) ==> t in finish
    ensures FinishedFirst(w, finish + [id])
  {
    hide Edge;
    var next := finish + [id];
    forall i, t | 0 <= i < |next| && Edge(w, next[i], t)
      ensures t in next[..i]
    {
      assert next[..i] == finish[..i];
    }
  }

  lemma {:induction false} FinishedFirstPaths(w: Workflow, finish: seq<Id>, p: seq<Id>, k: nat)
    requires FinishedFirst(w, finish) && IsPath(w, p) && k <= |finish| && p[0] in finish[..k]
    ensures p[|p| - 1] in finish[..k]
  {
    hide Edge;
    if |p| > 1 {
      var q := p[..|p| - 1];
      assert forall i :: 0 <= i < |q| ==> q[i] == p[i];
      FinishedFirstPaths(w, finish, q, k);
      var m :| 0 <= m < k && finish[m] == p[|p| - 2];
      assert Edge(w, p[|p| - 2], p[|p| - 1]);
    }
  }

  /** When all nodes are finished in that order, there is no cycle. */
  lemma FinishedFirstAcyclic(w: Workflow, finish: seq<Id>, c: seq<Id>)
    requires FinishedFirst(w, finish) && forall id :: id in w.index ==> id in finish
    ensures !IsCycle(w, c)
  {
    if IsCycle(w, c) {
      hide Edge;
      var k := IndexOf(finish, c[0]);
      assert finish[..k + 1][k] == c[0];
      FinishedFirstPaths(w, finish, c, k + 1);
    }
  }

  /** No two issues have the same text. */
  predicate Distinct(issues: seq<CycleIssue>) {
    forall i, j :: 0 <= i < j < |issues| ==> Joined(issues[i].cycle) != Joined(issues[j].cycle)
  }

  /** The issues are cycles, no more than twenty, and each text is among those reported. */
  ghost predicate Listed(w: Workflow, issues: seq<CycleIssue>, reported: set<string>) {
    && (forall k :: 0 <= k < |issues| ==>
          IsCycle(w, issues[k].cycle) && Unique(issues[k].cycle) && issues[k].cycle[0] == issues[k].node)
    && (reported == {} <==> issues == [])
    && |issues| <= 20 && Distinct(issues)
    && (forall k :: 0 <= k < |issues| ==> Joined(issues[k].cycle) in reported)
  }

  lemma ListOne(w: Workflow, issues: seq<CycleIssue>, reported: set<string>, node: Id, cycle: seq<Id>)
    requires Listed(w, issues, reported) && Joined(cycle) !in reported
    requires IsCycle(w, cycle) && Unique(cycle) && cycle[0] == node
    ensures Listed(w, if |issues| < 20 then issues + [CycleIssue(node, cycle)] else issues, reported + {Joined(cycle)})
  {
    hide IsCycle, Unique, Joined;
  }

  lemma SomeListed(w: Workflow, issues: seq<CycleIssue>, reported: set<string>)
    requires Listed(w, issues, reported) && reported != {}
    ensures issues != []
  {
  }

  lemma PathCycle(w: Workflow, path: seq<Id>, begin: nat)
    requires begin < |path| && Unique(path) && forall i :: 0 <= i < |path| ==> path[i] in w.index
    requires forall i :: 0 < i < |path| ==> Edge(w, path[i - 1], path[i])
    requires Edge(w, path[|path| - 1], path[begin])
    ensures IsCycle(w, path[begin..]) && Unique(path[begin..])
  {
    hide Edge;
  }

  /** Three-colour depth-first search; `path` is the list of grey nodes. */
  class CycleFinder {
    const w: Workflow
    var colour: map<Id, int>   // absent or 0 white, 1 grey, 2 black
    var path: seq<Id>
    var reported: set<string>
    var issues: seq<CycleIssue>
    ghost var finish: seq<Id>  // black nodes, in the order they were finished

    constructor (w: Workflow)
      requires WellIndexed(w)
      ensures Valid() && this.w == w && path == [] && issues == [] && finish == []
    {
      this.w := w;
      colour, path, reported, issues, finish := map[], [], {}, [], [];
    }

    function ColourOf(id: Id): int
      reads this
    {
      if id in colour then colour[id] else 0
    }

    /** All colours are known, the path holds exactly the grey nodes, and the black ones are listed. */
    ghost predicate Colours()
      reads this
    {
      && (forall id :: id in colour ==> 0 <= colour[id] <= 2)
      && (forall id :: ColourOf(id) == 1 <==> id in path)
      && (forall id :: ColourOf(id) == 2 <==> id in finish)
      && (forall id :: ColourOf(id) != 0 ==> id in w.index)
      && Unique(path)
      && (forall i :: 0 < i < |path| ==> Edge(w, path[i - 1], path[i]))
    }

    ghost predicate Reports()
      reads this
    {
      Listed(w, issues, reported)
    }

    /** While nothing has been reported, every edge out of a black node leads to one finished earlier. */
    ghost predicate Sorted()
      reads this
    {
      issues == [] ==> FinishedFirst(w, finish)
    }

    ghost predicate Valid()
      reads this
    {
      WellIndexed(w) && Colours() && Reports() && Sorted()
    }

    function White(): set<Id>
      reads this
    {
      set id | id in w.index && ColourOf(id) == 0
    }

    method Report(target: Id, begin: nat)
      requires Valid() && begin < |path| && path[begin] == target && Edge(w, path[|path| - 1], target)
      modifies this`reported, this`issues
      ensures Valid() && issues != [] && old(issues) <= issues && White() == old(White())
    {
      hide Edge, IsCycle, IsPath, WellIndexed, FinishedFirst, Unique, Joined, Listed;
      PathCycle(w, path, begin);
      hide Colours;
      var cycle := path[begin..];
      var text := Joined(cycle);
      if text in reported {
        SomeListed(w, issues, reported);
      } else {
        ListOne(w, issues, reported, target, cycle);
        if |issues| < 20 {
          issues := issues + [CycleIssue(target, cycle)];
        }
        reported := reported + {text};
      }
    }

    lemma GreyOnPath(id: Id)
      requires Valid()
      ensures ColourOf(id) == 1 <==> id in path
      ensures ColourOf(id) == 2 <==> id in finish
      ensures 0 <= ColourOf(id) <= 2
      ensures ColourOf(id) != 0 ==> id in w.index
    {
    }

    lemma WhiteNow(id: Id)
      requires id in w.index && ColourOf(id) == 0
      ensures id in White()
    {
    }

    lemma BlackNow(id: Id)
      requires id in colour && colour[id] == 2
      ensures ColourOf(id) == 2
    {
    }

    /** Turns `id` grey and puts it at the end of the path. */
    method Enter(id: Id)
      requires Valid() && id in w.index && ColourOf(id) == 0
      requires path != [] ==> Edge(w, path[|path| - 1], id)
      modifies this`colour, this`path
      ensures Valid() && path == old(path) + [id] && colour == old(colour)[id := 1]
      ensures White() == old(White()) - {id}
    {
      hide Edge, IsCycle, WellIndexed, FinishedFirst;
      ghost var before := path;
      colour := colour[id := 1];
      path := path + [id];
      assert forall x :: x in path <==> x in before || x == id;
    }

    /** Takes `id` off the path and turns it black. */
    method Leave(id: Id)
      requires Valid() && path != [] && path[|path| - 1] == id
      requires issues == [] ==> forall t :: Edge(w, id, t) ==> t in finish
      modifies this`colour, this`path, this`finish
      ensures Valid() && path == old(path[..|path| - 1]) && colour == old(colour)[id := 2]
      ensures finish == old(finish) + [id] && White() == old(White())
    {
      hide Edge, IsCycle, WellIndexed, FinishedFirst;
      ghost var before, done := path, finish;
      path := path[..|path| - 1];
      assert before == path + [id];
      assert id !in path && Unique(path);
      hide Unique, Targets, IsPath;
      assert forall x :: x in before <==> x in path || x == id;
      colour := colour[id := 2];
      finish := finish + [id];
      assert forall x :: x in finish <==> x in done || x == id;
      if issues == [] {
        FinishedFirstGrows(w, done, id);
      }
    }

    /** Looks at one target of the node at the end of the path. */
    method Follow(target: Id)
      requires Valid() && path != [] && path[|path| - 1] in w.index && target in Targets(w.index[path[|path| - 1]])
      modifies this`colour, this`path, this`reported, this`issues, this`finish
      ensures Valid() && path == old(path) && old(finish) <= finish && old(issues) <= issues
      ensures White() <= old(White()) && (issues == [] && target in w.index ==> target in finish)
      decreases White(), 1
    {
      hide *;
      if target in w.index {
        TargetIsEdge(w, path[|path| - 1], target);
      }
      GreyOnPath(target);
      if ColourOf(target) == 1 {
        var begin := IndexOf(path, target);
        Report(target, begin);
      } else if ColourOf(target) == 0 {
        Visit(target);
        GreyOnPath(target);
      }
    }

    /** Visits a white node: it and all white nodes it leads to become black, and the path is put back. */
    method Visit(id: Id)
      requires Valid() && ColourOf(id) == 0
      requires path != [] && id in w.index ==> Edge(w, path[|path| - 1], id)
      modifies this`colour, this`path, this`reported, this`issues, this`finish
      ensures Valid() && path == old(path) && old(finish) <= finish && old(issues) <= issues
      ensures White() <= old(White()) && (id in w.index ==> ColourOf(id) == 2)
      decreases White(), 0
    {
      hide *;
      if id !in w.index {
        return;
      }
      WhiteNow(id);
      Enter(id);
      ghost var white := White();
      ghost var trail := path;
      var targets := OutgoingTargets(w.index[id]);
      var j := 0;
      while j < |targets|
        invariant 0 <= j <= |targets|
        invariant Valid() && path == trail && White() <= white
        invariant old(finish) <= finish && old(issues) <= issues
        invariant issues == [] ==> forall t :: t in targets[..j] && t in w.index ==> t in finish
      {
        Follow(targets[j]);
        j := j + 1;
      }
      assert targets[..j] == targets;
      EdgesAreTargets(w, id);
      Leave(id);
      BlackNow(id);
    }

    /** Visits every node that is still white. */
    method Search()
      requires Valid() && Indexed(w) && path == [] && issues == []
      modifies this`colour, this`path, this`reported, this`issues, this`finish
      ensures Valid() && path == []
      ensures forall id :: id in w.index ==> id in finish
    {
      hide Valid, Edge, IsCycle, WellIndexed;
      var i := 0;
      while i < |w.nodes|
        invariant 0 <= i <= |w.nodes| && Valid() && path == []
        invariant forall k :: 0 <= k < i ==> w.nodes[k].id in finish
      {
        var id := w.nodes[i].id;
        GreyOnPath(id);
        if ColourOf(id) == 0 {
          Visit(id);
          GreyOnPath(id);
        }
        i := i + 1;
      }
      forall id | id in w.index
        ensures id in finish
      {
        var k :| 0 <= k < |w.nodes| && w.nodes[k] == w.index[id];
        assert w.nodes[k].id == id;
      }
    }
  }

  /**
   * The control-flow cycle warnings: at most twenty, each a real cycle without repeated nodes and
   * filed under its first node, and none exactly when the graph of existing nodes has no cycle.
   */
  method FindCycles(w: Workflow) returns (issues: seq<CycleIssue>)
    requires WellIndexed(w) && Indexed(w)
    ensures issues == [] <==> !exists c :: IsCycle(w, c)
    ensures forall k :: 0 <= k < |issues| ==> IsCycle(w, issues[k].cycle) && Unique(issues[k].cycle)
    ensures forall k :: 0 <= k < |issues| ==> issues[k].cycle[0] == issues[k].node
    ensures |issues| <= 20 && Distinct(issues)
  {
    hide Edge, IsPath;
    var finder := new CycleFinder(w);
    finder.Search();
    issues := finder.issues;
    if issues == [] {
      forall c: seq<Id>
        ensures !IsCycle(w, c)
      {
        FinishedFirstAcyclic(w, finder.finish, c);
      }
    } else {
      assert IsCycle(w, issues[0].cycle);
    }
  }
}
