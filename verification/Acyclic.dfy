// What the validator says about parsed programs: every reference is to a node that exists, and no control-flow
// cycle is reported, however loops are nested. Repetition is the business of loop frames, not of edges.

module Acyclic {
  import opened Json
  import opened Blueprint
  import opened Structured
  import opened Refinement
  import opened Parser
  import opened Validator
  import opened Nesting
  import opened Reach

  function IdsOfNodes(ns: seq<Node>): (ids: seq<Id>)
    ensures |ids| == |ns| && forall k :: 0 <= k < |ns| ==> ids[k] == ns[k].id
  {
    seq(|ns|, k requires 0 <= k < |ns| => ns[k].id)
  }

  function IdSet(ns: seq<Node>): set<Id> {
    set id | id in IdsOfNodes(ns)
  }

  /** Each node comes behind everything in its bodies, and leads nowhere else. */
  ghost predicate ChildrenFirst(ns: seq<Node>) {
    forall k :: 0 <= k < |ns| ==> Targets(ns[k]) <= IdSet(ns[..k])
  }

  lemma IdSetGrows(a: seq<Node>, b: seq<Node>)
    ensures IdSet(a + b) == IdSet(a) + IdSet(b)
  {
    forall id | id in IdSet(a)
      ensures id in IdSet(a + b)
    {
      var k :| 0 <= k < |a| && IdsOfNodes(a)[k] == id;
      assert IdsOfNodes(a + b)[k] == id;
    }
    forall id | id in IdSet(b)
      ensures id in IdSet(a + b)
    {
      var k :| 0 <= k < |b| && IdsOfNodes(b)[k] == id;
      assert IdsOfNodes(a + b)[|a| + k] == id;
    }
    forall id | id in IdSet(a + b)
      ensures id in IdSet(a) + IdSet(b)
    {
      var k :| 0 <= k < |a + b| && IdsOfNodes(a + b)[k] == id;
      assert k < |a| ==> IdsOfNodes(a)[k] == id;
      assert k >= |a| ==> IdsOfNodes(b)[k - |a|] == id;
    }
  }

  lemma FirstThenSecond(a: seq<Node>, b: seq<Node>)
    requires ChildrenFirst(a) && ChildrenFirst(b)
    ensures ChildrenFirst(a + b)
  {
    hide Targets, IdSet;
    var c := a + b;
    forall k | 0 <= k < |c|
      ensures Targets(c[k]) <= IdSet(c[..k])
    {
      if k < |a| {
        assert c[..k] == a[..k];
      } else {
        assert c[..k] == a + b[..k - |a|];
        IdSetGrows(a, b[..k - |a|]);
      }
    }
  }

  lemma ParentLast(inner: seq<Node>, n: Node)
    requires ChildrenFirst(inner) && Targets(n) <= IdSet(inner)
    ensures ChildrenFirst(inner + [n])
  {
    hide Targets, IdSet;
    var c := inner + [n];
    forall k | 0 <= k < |c|
      ensures Targets(c[k]) <= IdSet(c[..k])
    {
      assert c[..k] == inner[..k];
      assert inner[..|inner|] == inner;
    }
  }

  /** A node of a program leads into its bodies and over its one edge, and nowhere else. */
  lemma TargetsOfNode(s: Stmt, next: Option<Id>)
    ensures Targets(NodeOf(s, next)) <= IdSet(Descendants(s)) + (if next.Some? then {next.value} else {})
  {
    var r := IdSet(Descendants(s));
    forall n | n in Descendants(s)
      ensures n.id in r
    {
      var k :| 0 <= k < |Descendants(s)| && Descendants(s)[k] == n;
      assert IdsOfNodes(Descendants(s))[k] == n.id;
    }
    StmtInner(s, next, r);
    hide Descendants, IdSet, Targets, Inner;
    InnerTargets(NodeOf(s, next), r);
  }

  lemma InnerTargets(n: Node, r: set<Id>)
    requires Inner(r, n) && (n.kind.Leaf? ==> n.kind.targets == [])
    ensures Targets(n) <= r + (if n.next.Some? then {n.next.value} else {})
  {
    match n.kind
    case Leaf(_, targets) =>
    case Loop(_, _, _, _, _) =>
    case Try(_, _, _, _, _) =>
    case Condition(_, _, _, _) =>
  }

  lemma {:induction false} DescendantsInOrder(s: Stmt)
    ensures ChildrenFirst(Descendants(s))
    decreases s, 1, 0
  {
    hide Hoisted, ChildrenFirst;
    match s
    case Task(_, _, _) =>
      NothingInOrder();
    case If(_, _, thenPart, elsePart) =>
      BlockInOrder(thenPart, |thenPart|);
      BlockInOrder(elsePart, |elsePart|);
      FirstThenSecond(Hoisted(thenPart, |thenPart|), Hoisted(elsePart, |elsePart|));
    case Repeat(_, _, _, _, _, _, body) =>
      BlockInOrder(body, |body|);
    case Guarded(_, _, _, body, handler, cleanup) =>
      BlockInOrder(body, |body|);
      BlockInOrder(handler, |handler|);
      BlockInOrder(cleanup, |cleanup|);
      FirstThenSecond(Hoisted(body, |body|), Hoisted(handler, |handler|));
      FirstThenSecond(Hoisted(body, |body|) + Hoisted(handler, |handler|), Hoisted(cleanup, |cleanup|));
  }

  lemma NothingInOrder()
    ensures ChildrenFirst([])
  {
  }

  lemma {:induction false} BlockInOrder(ss: seq<Stmt>, n: nat)
    requires n <= |ss|
    ensures ChildrenFirst(Hoisted(ss, n))
    decreases ss, 0, n
  {
    hide Descendants, NodeOf, Targets, ChildrenFirst, IdSet;
    if n == 0 {
      NothingInOrder();
    } else {
      BlockInOrder(ss, n - 1);
      DescendantsInOrder(ss[n - 1]);
      TargetsOfNode(ss[n - 1], None);
      ParentLast(Descendants(ss[n - 1]), NodeOf(ss[n - 1], None));
      FirstThenSecond(Hoisted(ss, n - 1), Descendants(ss[n - 1]) + [NodeOf(ss[n - 1], None)]);
      assert Hoisted(ss, n) == Hoisted(ss, n - 1) + (Descendants(ss[n - 1]) + [NodeOf(ss[n - 1], None)]);
    }
  }

  lemma {:induction false} HoistedInOrder(q: seq<Stmt>, n: nat)
    requires n <= |q|
    ensures ChildrenFirst(TopHoisted(q, n))
    ensures forall i :: 0 <= i < n ==> IdSet(Descendants(q[i])) <= IdSet(TopHoisted(q, n))
    decreases n
  {
    hide Descendants, ChildrenFirst, IdSet;
    if n == 0 {
      NothingInOrder();
    } else {
      HoistedInOrder(q, n - 1);
      DescendantsInOrder(q[n - 1]);
      FirstThenSecond(TopHoisted(q, n - 1), Descendants(q[n - 1]));
      IdSetGrows(TopHoisted(q, n - 1), Descendants(q[n - 1]));
    }
  }

  /** The top-level nodes from the last one down to the `k`-th. */
  function Backwards(q: seq<Stmt>, k: nat): (ns: seq<Node>)
    requires k <= |q|
    decreases |q| - k
  {
    if k == |q| then [] else Backwards(q, k + 1) + [NodeOf(q[k], TopNext(q, k))]
  }

  lemma {:induction false} TopsInOrder(q: seq<Stmt>, k: nat)
    requires k <= |q|
    ensures ChildrenFirst(TopHoisted(q, |q|) + Backwards(q, k))
    ensures forall i :: k <= i < |q| ==> q[i].id in IdSet(TopHoisted(q, |q|) + Backwards(q, k))
    decreases |q| - k
  {
    hide Descendants, ChildrenFirst, IdSet, NodeOf, Targets, TopHoisted;
    HoistedInOrder(q, |q|);
    var h := TopHoisted(q, |q|);
    if k == |q| {
      assert h + Backwards(q, k) == h;
    } else {
      TopsInOrder(q, k + 1);
      var before := h + Backwards(q, k + 1);
      var n := NodeOf(q[k], TopNext(q, k));
      TargetsOfNode(q[k], TopNext(q, k));
      IdSetGrows(h, Backwards(q, k + 1));
      NextIsLater(q, k);
      ParentLast(before, n);
      IdSetGrows(before, [n]);
      OwnId(q[k], TopNext(q, k));
      assert before + [n] == h + Backwards(q, k);
    }
  }

  lemma NextIsLater(q: seq<Stmt>, k: nat)
    requires k < |q|
    ensures TopNext(q, k).Some? ==> k + 1 < |q| && TopNext(q, k).value == q[k + 1].id
  {
  }

  lemma OwnId(s: Stmt, next: Option<Id>)
    ensures s.id in IdSet([NodeOf(s, next)])
  {
    assert IdsOfNodes([NodeOf(s, next)])[0] == s.id;
  }

  lemma {:induction false} BackwardsHolds(q: seq<Stmt>, k: nat)
    requires k <= |q|
    ensures forall n :: n in Backwards(q, k) <==> n in TopNodes(q)[k..]
    decreases |q| - k
  {
    hide NodeOf;
    if k < |q| {
      BackwardsHolds(q, k + 1);
      assert TopNodes(q)[k..] == [TopNodes(q)[k]] + TopNodes(q)[k + 1..];
    }
  }

  /** All nodes of the graph, each behind all it leads to. */
  function Order(q: seq<Stmt>): seq<Node> {
    TopHoisted(q, |q|) + Backwards(q, 0)
  }

  lemma OrderHoldsAll(q: seq<Stmt>)
    ensures forall n :: n in Order(q) <==> n in Flat(q)
  {
    BackwardsHolds(q, 0);
    assert TopNodes(q)[0..] == TopNodes(q);
    hide Backwards, TopHoisted, TopNodes;
  }

  lemma OrderIsFiled(q: seq<Stmt>, n: Node)
    requires q != [] && UniqueIds(Flat(q)) && n in Order(q)
    ensures n.id in Compile(q).index && Compile(q).index[n.id] == n
  {
    OrderHoldsAll(q);
    IndexHolds(Flat(q));
    hide Order, Flat, IndexOfNodes;
    var k :| 0 <= k < |Flat(q)| && Flat(q)[k] == n;
  }

  lemma OrderFinishes(q: seq<Stmt>)
    requires q != [] && UniqueIds(Flat(q))
    ensures FinishedFirst(Compile(q), IdsOfNodes(Order(q)))
    ensures forall id :: id in Compile(q).index ==> id in IdsOfNodes(Order(q))
  {
    hide Targets, Order, Flat, IndexOfNodes;
    var w, order := Compile(q), Order(q);
    InOrder(q);
    forall i, t | 0 <= i < |order| && Edge(w, IdsOfNodes(order)[i], t)
      ensures t in IdsOfNodes(order)[..i]
    {
      OrderIsFiled(q, order[i]);
      assert t in IdSet(order[..i]);
      assert IdsOfNodes(order[..i]) == IdsOfNodes(order)[..i];
    }
    forall id | id in w.index
      ensures id in IdsOfNodes(order)
    {
      IndexHolds(Flat(q));
      OrderHoldsAll(q);
      var k :| 0 <= k < |Flat(q)| && Flat(q)[k].id == id;
      assert Flat(q)[k] in Flat(q);
      var j :| 0 <= j < |order| && order[j] == Flat(q)[k];
      assert IdsOfNodes(order)[j] == id;
    }
  }

  lemma InOrder(q: seq<Stmt>)
    ensures ChildrenFirst(Order(q))
  {
    TopsInOrder(q, 0);
  }

  /** The graph of a program has no control-flow cycle. */
  lemma ProgramIsAcyclic(q: seq<Stmt>, c: seq<Id>)
    requires q != [] && UniqueIds(Flat(q))
    ensures !IsCycle(Compile(q), c)
  {
    OrderFinishes(q);
    FinishedFirstAcyclic(Compile(q), IdsOfNodes(Order(q)), c);
  }

  /** Its references are all to existing nodes, and the list of nodes and the index agree. */
  lemma ProgramIsClosed(q: seq<Stmt>)
    requires q != [] && UniqueIds(Flat(q))
    ensures TargetsExist(Compile(q)) && Indexed(Compile(q))
  {
    hide Targets, Order, Flat, IndexOfNodes;
    var w, order := Compile(q), Order(q);
    InOrder(q);
    IndexHolds(Flat(q));
    OrderHoldsAll(q);
    forall id | id in w.index
      ensures Targets(w.index[id]) <= w.index.Keys
    {
      var k :| 0 <= k < |Flat(q)| && Flat(q)[k].id == id;
      assert Flat(q)[k] in Flat(q);
      var j :| 0 <= j < |order| && order[j] == Flat(q)[k];
      forall t | t in IdSet(order[..j])
        ensures t in w.index
      {
        var i :| 0 <= i < j && IdsOfNodes(order[..j])[i] == t;
        assert order[i] in order;
        OrderIsFiled(q, order[i]);
      }
    }
    forall n | n in w.nodes
      ensures n.id in w.index && w.index[n.id] == n
    {
      var k :| 0 <= k < |Flat(q)| && Flat(q)[k] == n;
    }
    forall id | id in w.index
      ensures w.index[id].id == id && w.index[id] in w.nodes
    {
      var k :| 0 <= k < |Flat(q)| && Flat(q)[k].id == id;
    }
  }

  /** Validating a parsed program finds no missing target and no cycle, and warns of the unreachable nodes only. */
  method ValidateProgram(p: seq<Stmt>, maxNodes: nat)
      returns (parsed: Result<Workflow, ParseError>, missing: seq<Issue>, cycles: seq<CycleIssue>, warned: seq<Id>)
    ensures parsed.Ok? <==> Accepted(p, maxNodes)
    ensures missing == [] && cycles == []
    ensures parsed.Ok? ==> forall id :: id in warned <==>
              && id in parsed.value.index && parsed.value.index[id].enabled
              && !Reachable(parsed.value, parsed.value.entry, id)
  {
    missing, cycles, warned := [], [], [];
    parsed := ParseWorkflow(p, maxNodes);
    if parsed.Err? { return; }
    var w := parsed.value;
    ghost var q := NamedProgram(p);
    FlatIsGotoFree(q);
    ProgramIsClosed(q);
    forall c
      ensures !IsCycle(w, c)
    {
      ProgramIsAcyclic(q, c);
    }
    EntryIsFiled(q);
    hide Accepted, Compile, IsCycle, WellIndexed, Indexed, TargetsExist, Reachable;
    missing := MissingTargets(w);
    warned := UnreachableWarnings(w, w.entry);
    cycles := FindCycles(w);
  }

  lemma EntryIsFiled(q: seq<Stmt>)
    requires q != [] && UniqueIds(Flat(q))
    ensures Compile(q).entry in Compile(q).index
  {
    IndexHolds(Flat(q));
    TopAt(q, 0);
    hide Flat, IndexOfNodes;
  }
}
