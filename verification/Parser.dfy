// Turning nested node bodies into the flat graph: inline children get generated ids and are
// hoisted behind the top-level nodes, whose fall-through order becomes explicit edges.

module Parser {
  import opened Json
  import opened Blueprint
  import opened Machine
  import opened MainLoop
  import opened Structured
  import opened Refinement
  import opened Text

  // ------------------------------------------------------------------ names

  /** The id of child `k` of a body slot, when it has none of its own. */
  function AutoId(parent: Id, slot: string, k: nat): (id: Id)
    ensures id != ""
  {
    parent + "." + slot + "_" + Decimal(k)
  }

  function TopId(k: nat): (id: Id)
    ensures id != ""
  {
    "node_" + Decimal(k)
  }

  /** A statement with every missing id (the empty string) filled in; `auto` is the name it would get. */
  function Named(s: Stmt, auto: Id): (t: Stmt)
    decreases s, 1
  {
    var id := if s.id == "" then auto else s.id;
    match s
    case Task(_, enabled, terminal) => Task(id, enabled, terminal)
    case If(_, enabled, thenPart, elsePart) =>
      If(id, enabled, NamedBlock(thenPart, id, "then"), NamedBlock(elsePart, id, "else"))
    case Repeat(_, enabled, limit, onItemError, itemVar, indexVar, body) =>
      Repeat(id, enabled, limit, onItemError, itemVar, indexVar, NamedBlock(body, id, "body"))
    case Guarded(_, enabled, errorVar, body, handler, cleanup) =>
      Guarded(id, enabled, errorVar, NamedBlock(body, id, "try"), NamedBlock(handler, id, "catch"),
              NamedBlock(cleanup, id, "finally"))
  }

  function NamedBlock(ss: seq<Stmt>, parent: Id, slot: string): (ts: seq<Stmt>)
    ensures |ts| == |ss|
    decreases ss, 0
  {
    seq(|ss|, i requires 0 <= i < |ss| => Named(ss[i], AutoId(parent, slot, i)))
  }

  function NamedProgram(p: seq<Stmt>): (q: seq<Stmt>)
    ensures |q| == |p|
  {
    seq(|p|, i requires 0 <= i < |p| => Named(p[i], TopId(i)))
  }

  /** Every statement has a name and the fields the parser demands. */
  ghost predicate Sound(s: Stmt)
    decreases s, 1
  {
    WellShaped(s) && s.id != "" &&
    match s
    case Task(_, _, _) => true
    case If(_, _, thenPart, elsePart) => SoundBlock(thenPart) && SoundBlock(elsePart)
    case Repeat(_, _, _, _, _, _, body) => SoundBlock(body)
    case Guarded(_, _, _, body, handler, cleanup) => SoundBlock(body) && SoundBlock(handler) && SoundBlock(cleanup)
  }

  ghost predicate SoundBlock(ss: seq<Stmt>)
    decreases ss, 0
  {
    forall i :: 0 <= i < |ss| ==> Sound(ss[i])
  }

  // ------------------------------------------------------------------ hoisting, as a function

  /** The nodes a statement hoists: its children, each after its own descendants. */
  function Descendants(s: Stmt): seq<Node>
    decreases s, 1, 0
  {
    match s
    case Task(_, _, _) => []
    case If(_, _, thenPart, elsePart) => Hoisted(thenPart, |thenPart|) + Hoisted(elsePart, |elsePart|)
    case Repeat(_, _, _, _, _, _, body) => Hoisted(body, |body|)
    case Guarded(_, _, _, body, handler, cleanup) =>
      Hoisted(body, |body|) + Hoisted(handler, |handler|) + Hoisted(cleanup, |cleanup|)
  }

  function Hoisted(ss: seq<Stmt>, n: nat): seq<Node>
    requires n <= |ss|
    decreases ss, 0, n
  {
    if n == 0 then [] else Hoisted(ss, n - 1) + Descendants(ss[n - 1]) + [NodeOf(ss[n - 1], None)]
  }

  /** What the top-level nodes hoist. */
  function TopHoisted(p: seq<Stmt>, n: nat): seq<Node>
    requires n <= |p|
  {
    if n == 0 then [] else TopHoisted(p, n - 1) + Descendants(p[n - 1])
  }

  function TopNodes(p: seq<Stmt>): (ns: seq<Node>)
    ensures |ns| == |p|
  {
    seq(|p|, i requires 0 <= i < |p| => NodeOf(p[i], TopNext(p, i)))
  }

  function Flat(p: seq<Stmt>): seq<Node> {
    TopNodes(p) + TopHoisted(p, |p|)
  }

  /** The id index, built in list order. */
  function IndexOfNodes(ns: seq<Node>): map<Id, Node> {
    if ns == [] then map[]
    else IndexOfNodes(ns[..|ns| - 1])[ns[|ns| - 1].id := ns[|ns| - 1]]
  }

  function Compile(p: seq<Stmt>): Workflow
    requires p != []
  {
    Workflow(Flat(p), p[0].id, IndexOfNodes(Flat(p)))
  }

  ghost predicate UniqueIds(ns: seq<Node>) {
    forall i, j :: 0 <= i < j < |ns| ==> ns[i].id != ns[j].id
  }

  // ------------------------------------------------------------------ the flat graph holds the program

  lemma {:induction false} IndexHolds(ns: seq<Node>)
    requires UniqueIds(ns)
    ensures forall id :: id in IndexOfNodes(ns) <==> exists i :: 0 <= i < |ns| && ns[i].id == id
    ensures forall i :: 0 <= i < |ns| ==> IndexOfNodes(ns)[ns[i].id] == ns[i]
  {
    if ns != [] {
      IndexHolds(ns[..|ns| - 1]);
    }
  }

  /** The index files each of these nodes under its id. */
  ghost predicate Files(w: Workflow, ns: seq<Node>) {
    && UniqueIds(ns)
    && forall i :: 0 <= i < |ns| ==> ns[i].id in w.index && w.index[ns[i].id] == ns[i]
  }

  lemma FilesParts(w: Workflow, a: seq<Node>, b: seq<Node>)
    requires Files(w, a + b)
    ensures Files(w, a) && Files(w, b)
    ensures forall i, j :: 0 <= i < |a| && 0 <= j < |b| ==> a[i].id != b[j].id
  {
    var c := a + b;
    forall i | 0 <= i < |a|
      ensures a[i].id in w.index && w.index[a[i].id] == a[i]
    {
      assert c[i] == a[i];
    }
    forall j | 0 <= j < |b|
      ensures b[j].id in w.index && w.index[b[j].id] == b[j]
    {
      assert c[|a| + j] == b[j];
    }
    forall i, j | 0 <= i < j < |a|
      ensures a[i].id != a[j].id
    {
      assert c[i] == a[i] && c[j] == a[j];
    }
    forall i, j | 0 <= i < j < |b|
      ensures b[i].id != b[j].id
    {
      assert c[|a| + i] == b[i] && c[|a| + j] == b[j];
    }
    forall i, j | 0 <= i < |a| && 0 <= j < |b|
      ensures a[i].id != b[j].id
    {
      assert c[i] == a[i] && c[|a| + j] == b[j];
    }
  }

  lemma {:induction false} ChildIsHoisted(ss: seq<Stmt>, n: nat, i: nat)
    requires i < n <= |ss|
    ensures NodeOf(ss[i], None) in Hoisted(ss, n)
    decreases n
  {
    if i < n - 1 {
      ChildIsHoisted(ss, n - 1, i);
    }
  }

  lemma LastApart(w: Workflow, ss: seq<Stmt>, n: nat)
    requires 0 < n <= |ss| && Files(w, Hoisted(ss, n))
    ensures forall i :: 0 <= i < n - 1 ==> Ids(ss)[i] != Ids(ss)[n - 1]
  {
    hide Descendants, NodeOf;
    var a, b, c := Hoisted(ss, n - 1), Descendants(ss[n - 1]), [NodeOf(ss[n - 1], None)];
    assert Hoisted(ss, n) == a + b + c;
    forall i | 0 <= i < n - 1
      ensures Ids(ss)[i] != Ids(ss)[n - 1]
    {
      ChildIsHoisted(ss, n - 1, i);
      var k :| 0 <= k < |a| && a[k] == NodeOf(ss[i], None);
      assert (a + b + c)[k] == a[k] && (a + b + c)[|a| + |b|] == c[0];
      NodeKeepsId(ss[i]);
      NodeKeepsId(ss[n - 1]);
    }
  }

  lemma FilesLast(w: Workflow, ss: seq<Stmt>, n: nat)
    requires 0 < n <= |ss| && Files(w, Hoisted(ss, n))
    ensures Files(w, Hoisted(ss, n - 1)) && Files(w, Descendants(ss[n - 1]))
    ensures ss[n - 1].id in w.index && w.index[ss[n - 1].id] == NodeOf(ss[n - 1], None)
  {
    hide Descendants, NodeOf;
    var s := ss[n - 1];
    var a, b, c := Hoisted(ss, n - 1), Descendants(s), [NodeOf(s, None)];
    assert a + (b + c) == Hoisted(ss, n);
    FilesParts(w, a, b + c);
    FilesParts(w, b, c);
    NodeKeepsId(s);
    assert c[0].id in w.index && w.index[c[0].id] == c[0];
  }

  lemma {:induction false} EmbedChildren(w: Workflow, ss: seq<Stmt>, n: nat)
    requires n <= |ss| && SoundBlock(ss) && Files(w, Hoisted(ss, n))
    ensures forall i :: 0 <= i < n ==> Embedded(w, ss[i], None)
    ensures Distinct(Ids(ss)[..n])
    decreases ss, 0, n
  {
    hide Hoisted, Descendants, Files, NodeOf, Embedded, Sound;
    if n > 0 {
      FilesLast(w, ss, n);
      EmbedChildren(w, ss, n - 1);
      EmbedStmt(w, ss[n - 1], None);
      LastApart(w, ss, n);
    }
  }

  lemma {:induction false} EmbedBlock(w: Workflow, ss: seq<Stmt>)
    requires SoundBlock(ss) && Files(w, Hoisted(ss, |ss|))
    ensures EmbeddedBlock(w, ss)
    decreases ss, 0, |ss| + 1
  {
    EmbedChildren(w, ss, |ss|);
    assert Ids(ss)[..|ss|] == Ids(ss);
  }

  lemma {:induction false} EmbedStmt(w: Workflow, s: Stmt, next: Option<Id>)
    requires Sound(s) && Files(w, Descendants(s))
    requires s.id in w.index && w.index[s.id] == NodeOf(s, next)
    ensures Embedded(w, s, next)
    decreases s, 1, 0
  {
    match s
    case Task(_, _, _) =>
    case If(_, _, thenPart, elsePart) =>
      FilesParts(w, Hoisted(thenPart, |thenPart|), Hoisted(elsePart, |elsePart|));
      EmbedBlock(w, thenPart);
      EmbedBlock(w, elsePart);
    case Repeat(_, _, _, _, _, _, body) =>
      EmbedBlock(w, body);
    case Guarded(_, _, _, body, handler, cleanup) =>
      FilesParts(w, Hoisted(body, |body|) + Hoisted(handler, |handler|), Hoisted(cleanup, |cleanup|));
      FilesParts(w, Hoisted(body, |body|), Hoisted(handler, |handler|));
      EmbedBlock(w, body);
      EmbedBlock(w, handler);
      EmbedBlock(w, cleanup);
  }

  lemma {:induction false} EmbedTops(w: Workflow, p: seq<Stmt>, n: nat)
    requires n <= |p| && SoundBlock(p) && Files(w, TopHoisted(p, n)) && Files(w, TopNodes(p))
    ensures forall i: nat :: i < n ==> Embedded(w, p[i], TopNext(p, i))
    decreases n
  {
    if n > 0 {
      FilesParts(w, TopHoisted(p, n - 1), Descendants(p[n - 1]));
      EmbedTops(w, p, n - 1);
      assert TopNodes(p)[n - 1] == NodeOf(p[n - 1], TopNext(p, n - 1));
      assert TopNodes(p)[n - 1].id in w.index;
      EmbedStmt(w, p[n - 1], TopNext(p, n - 1));
    }
  }

  /** A program the parser accepts: no missing or malformed part, no id used twice. */
  ghost predicate Accepted(p: seq<Stmt>, maxNodes: nat) {
    0 < |p| <= maxNodes && SoundBlock(NamedProgram(p)) && UniqueIds(Flat(NamedProgram(p)))
  }

  lemma {:induction false} HoistedIdsNonEmpty(ss: seq<Stmt>, n: nat, k: nat)
    requires n <= |ss| && SoundBlock(ss) && k < |Hoisted(ss, n)|
    ensures Hoisted(ss, n)[k].id != "" && Hoisted(ss, n)[k].onError == None && Hoisted(ss, n)[k].next == None
    ensures BodiesFilled(Hoisted(ss, n)[k])
    decreases ss, 0, n
  {
    var s := ss[n - 1];
    var a, b := Hoisted(ss, n - 1), Descendants(s);
    assert Sound(s);
    if k < |a| {
      HoistedIdsNonEmpty(ss, n - 1, k);
    } else if k < |a| + |b| {
      DescendantIdsNonEmpty(s, k - |a|);
      assert Hoisted(ss, n)[k] == b[k - |a|];
    }
  }

  predicate BodiesFilled(n: Node) {
    match n.kind
    case Loop(body, _, _, _, _) => body != []
    case Try(body, _, _, _, _) => body != []
    case _ => true
  }

  lemma {:induction false} DescendantIdsNonEmpty(s: Stmt, k: nat)
    requires Sound(s) && k < |Descendants(s)|
    ensures Descendants(s)[k].id != "" && Descendants(s)[k].onError == None && Descendants(s)[k].next == None
    ensures BodiesFilled(Descendants(s)[k])
    decreases s, 1, 0
  {
    match s
    case Task(_, _, _) =>
    case If(_, _, a, b) =>
      if k < |Hoisted(a, |a|)| { HoistedIdsNonEmpty(a, |a|, k); }
      else { HoistedIdsNonEmpty(b, |b|, k - |Hoisted(a, |a|)|); }
    case Repeat(_, _, _, _, _, _, body) =>
      HoistedIdsNonEmpty(body, |body|, k);
    case Guarded(_, _, _, a, b, c) =>
      var na, nb := |Hoisted(a, |a|)|, |Hoisted(b, |b|)|;
      if k < na { HoistedIdsNonEmpty(a, |a|, k); }
      else if k < na + nb { HoistedIdsNonEmpty(b, |b|, k - na); }
      else { HoistedIdsNonEmpty(c, |c|, k - na - nb); }
  }

  lemma {:induction false} TopHoistedIdsNonEmpty(p: seq<Stmt>, n: nat, k: nat)
    requires n <= |p| && SoundBlock(p) && k < |TopHoisted(p, n)|
    ensures var m := TopHoisted(p, n)[k]; m.id != "" && m.onError == None && m.next == None && BodiesFilled(m)
    decreases n
  {
    if k < |TopHoisted(p, n - 1)| {
      TopHoistedIdsNonEmpty(p, n - 1, k);
    } else {
      assert Sound(p[n - 1]);
      DescendantIdsNonEmpty(p[n - 1], k - |TopHoisted(p, n - 1)|);
    }
  }

  /** A node as inline bodies produce it. */
  predicate Inline(n: Node) {
    n.id != "" && n.onError == None && n.next != Some("") && BodiesFilled(n)
  }

  lemma TopsInline(q: seq<Stmt>)
    requires SoundBlock(q)
    ensures forall i :: 0 <= i < |q| ==> Inline(TopNodes(q)[i])
  {
    forall i | 0 <= i < |q|
      ensures Inline(TopNodes(q)[i])
    {
      assert Sound(q[i]);
      if i + 1 < |q| {
        assert Sound(q[i + 1]);
      }
    }
  }

  lemma FlatInline(q: seq<Stmt>)
    requires SoundBlock(q)
    ensures forall k :: 0 <= k < |Flat(q)| ==> Inline(Flat(q)[k])
  {
    TopsInline(q);
    hide SoundBlock, BodiesFilled, TopHoisted, TopNodes;
    forall k | 0 <= k < |TopHoisted(q, |q|)|
      ensures Inline(TopHoisted(q, |q|)[k])
    {
      TopHoistedIdsNonEmpty(q, |q|, k);
    }
  }

  lemma IndexedInline(ns: seq<Node>)
    requires UniqueIds(ns) && forall k :: 0 <= k < |ns| ==> Inline(ns[k])
    ensures forall id :: id in IndexOfNodes(ns) ==> IndexOfNodes(ns)[id].id == id && Inline(IndexOfNodes(ns)[id])
  {
    IndexHolds(ns);
    hide Inline;
  }

  lemma FlatIsGotoFree(q: seq<Stmt>)
    requires q != [] && SoundBlock(q) && UniqueIds(Flat(q))
    ensures GotoFree(Compile(q))
  {
    FlatInline(q);
    hide SoundBlock, Flat, IndexOfNodes;
    IndexedInline(Flat(q));
  }

  lemma CompiledIsEmbedded(q: seq<Stmt>)
    requires q != [] && SoundBlock(q) && UniqueIds(Flat(q))
    ensures GotoFree(Compile(q)) && EmbeddedProgram(Compile(q), q)
  {
    FlatIsGotoFree(q);
    IndexHolds(Flat(q));
    FilesParts(Compile(q), TopNodes(q), TopHoisted(q, |q|));
    EmbedTops(Compile(q), q, |q|);
  }

  /**
   * End to end: parse a structured program, run the flat graph on the frame machine. The run visits the nodes
   * the recursive interpreter visits, in its order, and ends with the same context and the same ending.
   */
  lemma ParsedProgramRuns(p: seq<Stmt>, maxNodes: nat, o: Oracle, env: Env)
    requires Accepted(p, maxNodes)
    requires !ExecTop(o, NamedProgram(p), 0, env).0.Jumped?
    ensures var q := NamedProgram(p);
            var (out, env') := ExecTop(o, q, 0, env);
            && GotoFree(Compile(q))
            && Report(Compile(q), o, State([], Compile(q).entry, "", env, false, Live)) == (env', EndingOf(out))
  {
    var q := NamedProgram(p);
    CompiledIsEmbedded(q);
    MachineRefinesStructure(Compile(q), o, q, env);
  }

  // ------------------------------------------------------------------ the parser itself

  lemma HoistNone(ss: seq<Stmt>)
    ensures Hoisted(ss, 0) == []
  {
  }

  lemma HoistOne(before: seq<Node>, ss: seq<Stmt>, k: nat)
    requires k < |ss|
    ensures ((before + Hoisted(ss, k)) + Descendants(ss[k])) + [NodeOf(ss[k], None)] == before + Hoisted(ss, k + 1)
  {
  }

  lemma NodeKeepsId(s: Stmt)
    ensures NodeOf(s, None).id == s.id
  {
  }

  /** What a named try is made of, and what it hoists behind what is there. */
  lemma TryParts(s: Stmt, auto: Id, before: seq<Node>)
    requires s.Guarded? && auto != ""
    ensures var id := if s.id == "" then auto else s.id;
            var a, b, c := NamedBlock(s.body, id, "try"), NamedBlock(s.handler, id, "catch"),
                           NamedBlock(s.cleanup, id, "finally");
            && (Sound(Named(s, auto)) <==> SoundBlock(a) && SoundBlock(b) && SoundBlock(c) &&
                                           Ids(a) != [] && (Ids(b) != [] || Ids(c) != []))
            && NodeOf(Named(s, auto), None) ==
               Node(id, None, None, s.enabled, Try(Ids(a), Ids(b), Ids(c), s.errorVar, map[]))
            && before + Descendants(Named(s, auto)) ==
               before + Hoisted(a, |s.body|) + Hoisted(b, |s.handler|) + Hoisted(c, |s.cleanup|)
  {
    hide Hoisted, SoundBlock, NamedBlock;
  }

  datatype ParseError = NoNodes | TooManyNodes | Malformed(node: Id) | DuplicateId(id: Id)

  /** Collects the nodes that inline bodies hoist into the graph. */
  class BodyExpander {
    var hoisted: seq<Node>

    constructor ()
      ensures hoisted == []
    {
      hoisted := [];
    }

    /** Parses one node; its inline children go to `hoisted`, deepest first. */
    method ParseNode(s: Stmt, auto: Id) returns (r: Result<Node, ParseError>)
      requires auto != ""
      modifies this
      ensures r.Ok? <==> Sound(Named(s, auto))
      ensures r.Ok? ==> r.value == NodeOf(Named(s, auto), None)
      ensures r.Ok? ==> hoisted == old(hoisted) + Descendants(Named(s, auto))
      decreases s, 2, 0
    {
      match s {
        case Task(_, enabled, terminal) =>
          return Ok(Node(if s.id == "" then auto else s.id, None, None, enabled, Leaf(terminal, [])));
        case If(_, _, _, _) => r := BuildCondition(s, auto);
        case Repeat(_, _, _, _, _, _, _) => r := BuildLoop(s, auto);
        case Guarded(_, _, _, _, _, _) => r := BuildTry(s, auto);
      }
    }

    method BuildCondition(s: Stmt, auto: Id) returns (r: Result<Node, ParseError>)
      requires s.If?
      requires auto != ""
      modifies this
      ensures r.Ok? <==> Sound(Named(s, auto))
      ensures r.Ok? ==> r.value == NodeOf(Named(s, auto), None)
      ensures r.Ok? ==> hoisted == old(hoisted) + Descendants(Named(s, auto))
      decreases s, 1, 0
    {
      hide Hoisted, SoundBlock, NamedBlock;
      var id := if s.id == "" then auto else s.id;
      var a := Expand(s.thenPart, id, "then");
      if a.Err? { return Err(a.error); }
      var b := Expand(s.elsePart, id, "else");
      if b.Err? { return Err(b.error); }
      if a.value == [] { return Err(Malformed(id)); }
      return Ok(Node(id, None, None, s.enabled, Condition("", "", a.value, b.value)));
    }

    method BuildLoop(s: Stmt, auto: Id) returns (r: Result<Node, ParseError>)
      requires s.Repeat?
      requires auto != ""
      modifies this
      ensures r.Ok? <==> Sound(Named(s, auto))
      ensures r.Ok? ==> r.value == NodeOf(Named(s, auto), None)
      ensures r.Ok? ==> hoisted == old(hoisted) + Descendants(Named(s, auto))
      decreases s, 1, 0
    {
      hide Hoisted, SoundBlock, NamedBlock;
      var id := if s.id == "" then auto else s.id;
      var a := Expand(s.body, id, "body");
      if a.Err? { return Err(a.error); }
      if s.onItemError != "fail" && s.onItemError != "continue" && s.onItemError != "retry" {
        return Err(Malformed(id));
      }
      if a.value == [] || s.limit < 1 { return Err(Malformed(id)); }
      return Ok(Node(id, None, None, s.enabled, Loop(a.value, s.limit, s.onItemError, s.itemVar, s.indexVar)));
    }

    method BuildTry(s: Stmt, auto: Id) returns (r: Result<Node, ParseError>)
      requires s.Guarded?
      requires auto != ""
      modifies this
      ensures r.Ok? <==> Sound(Named(s, auto))
      ensures r.Ok? ==> r.value == NodeOf(Named(s, auto), None)
      ensures r.Ok? ==> hoisted == old(hoisted) + Descendants(Named(s, auto))
      decreases s, 1, 0
    {
      TryParts(s, auto, hoisted);
      hide *;
      var id := if s.id == "" then auto else s.id;
      var a := Expand(s.body, id, "try");
      if a.Err? { return Err(a.error); }
      var b := Expand(s.handler, id, "catch");
      if b.Err? { return Err(b.error); }
      var c := Expand(s.cleanup, id, "finally");
      if c.Err? { return Err(c.error); }
      if a.value == [] || (b.value == [] && c.value == []) { return Err(Malformed(id)); }
      return Ok(Node(id, None, None, s.enabled, Try(a.value, b.value, c.value, s.errorVar, map[])));
    }

    /** Parses the nodes of one body and hoists them; yields their ids in order. */
    method Expand(items: seq<Stmt>, parent: Id, slot: string) returns (r: Result<seq<Id>, ParseError>)
      modifies this
      ensures r.Ok? <==> SoundBlock(NamedBlock(items, parent, slot))
      ensures r.Ok? ==> r.value == Ids(NamedBlock(items, parent, slot))
      ensures r.Ok? ==> hoisted == old(hoisted) + Hoisted(NamedBlock(items, parent, slot), |items|)
      decreases items, 0, 0
    {
      hide Descendants, Hoisted, Named, Sound, NodeOf, AutoId;
      var ids: seq<Id> := [];
      ghost var named := NamedBlock(items, parent, slot);
      var counter := 0;
      HoistNone(named);
      while counter < |items|
        invariant 0 <= counter <= |items|
        invariant forall i :: 0 <= i < counter ==> Sound(named[i])
        invariant |ids| == counter && forall i :: 0 <= i < counter ==> ids[i] == named[i].id
        invariant hoisted == old(hoisted) + Hoisted(named, counter)
      {
        var child := ParseNode(items[counter], AutoId(parent, slot, counter));
        if child.Err? {
          assert !Sound(named[counter]);
          return Err(child.error);
        }
        NodeKeepsId(named[counter]);
        HoistOne(old(hoisted), named, counter);
        ids := ids + [child.value.id];
        hoisted := hoisted + [child.value];
        counter := counter + 1;
      }
      return Ok(ids);
    }
  }

  /** The nodes before fall-through edges are added. */
  function Unlinked(q: seq<Stmt>): (ns: seq<Node>)
    ensures |ns| == |q|
  {
    seq(|q|, i requires 0 <= i < |q| => NodeOf(q[i], None))
  }

  /** The nodes after edges were added to the first `k` top-level ones. */
  function Linked(q: seq<Stmt>, k: nat): (ns: seq<Node>)
    ensures |ns| == |q| + |TopHoisted(q, |q|)|
  {
    seq(|q|, i requires 0 <= i < |q| => NodeOf(q[i], if i < k then TopNext(q, i) else None)) + TopHoisted(q, |q|)
  }

  lemma LinkedIds(q: seq<Stmt>, k: nat)
    ensures forall i :: 0 <= i < |Flat(q)| ==> Linked(q, k)[i].id == Flat(q)[i].id
    ensures UniqueIds(Linked(q, k)) <==> UniqueIds(Flat(q))
    ensures |q| > 0 && k + 1 >= |q| ==> Linked(q, k) == Flat(q)
    ensures Linked(q, 0) == Unlinked(q) + TopHoisted(q, |q|)
  {
    var a, b := Linked(q, k), Flat(q);
    forall i | 0 <= i < |b|
      ensures a[i].id == b[i].id
    {
    }
  }

  lemma LinkOne(q: seq<Stmt>, k: nat)
    requires k < |q|
    ensures Linked(q, k + 1) == Linked(q, k)[k := NodeOf(q[k], TopNext(q, k))]
    ensures Linked(q, k)[k] == NodeOf(q[k], None)
  {
  }

  /** Re-filing a node that kept its id re-files just that node. */
  lemma Refile(ns: seq<Node>, k: nat, n: Node)
    requires UniqueIds(ns) && k < |ns| && n.id == ns[k].id
    ensures IndexOfNodes(ns[k := n]) == IndexOfNodes(ns)[n.id := n]
  {
    var ms := ns[k := n];
    assert UniqueIds(ms);
    IndexHolds(ns);
    IndexHolds(ms);
    var a, b := IndexOfNodes(ms), IndexOfNodes(ns)[n.id := n];
    forall id
      ensures id in a <==> id in b
    {
      if id in a {
        var i :| 0 <= i < |ms| && ms[i].id == id;
        assert ns[i].id == id;
      }
      if id in IndexOfNodes(ns) {
        var i :| 0 <= i < |ns| && ns[i].id == id;
        assert ms[i].id == id;
      }
    }
    forall id | id in a
      ensures a[id] == b[id]
    {
      var i :| 0 <= i < |ms| && ms[i].id == id;
      assert a[ms[i].id] == ms[i];
      if i != k {
        assert ns[i] == ms[i] && IndexOfNodes(ns)[ns[i].id] == ns[i];
      }
    }
  }

  lemma IndexSnoc(ns: seq<Node>, k: nat)
    requires k < |ns|
    ensures IndexOfNodes(ns[..k + 1]) == IndexOfNodes(ns[..k])[ns[k].id := ns[k]]
  {
    assert ns[..k + 1][..k] == ns[..k];
  }

  lemma TopHoistNone(q: seq<Stmt>)
    ensures TopHoisted(q, 0) == []
  {
  }

  lemma TopHoistOne(q: seq<Stmt>, k: nat)
    requires k < |q|
    ensures TopHoisted(q, k + 1) == TopHoisted(q, k) + Descendants(q[k])
  {
  }

  lemma AllUnlinked(q: seq<Stmt>, nodes: seq<Node>)
    requires |nodes| == |q| && forall j :: 0 <= j < |q| ==> nodes[j] == NodeOf(q[j], None)
    ensures nodes == Unlinked(q)
  {
  }

  lemma EntryIsFirst(q: seq<Stmt>, k: nat)
    requires q != []
    ensures Linked(q, k)[0].id == q[0].id
  {
  }

  /** Reads the top-level nodes in order. */
  method ParseNodes(p: seq<Stmt>) returns (r: Result<seq<Node>, ParseError>)
    ensures r.Ok? <==> SoundBlock(NamedProgram(p))
    ensures r.Ok? ==> r.value == Linked(NamedProgram(p), 0)
  {
    hide Sound, NodeOf, Named, Descendants, TopHoisted, Hoisted, Unlinked, Linked, TopId;
    ghost var q := NamedProgram(p);
    TopHoistNone(q);
    var expander := new BodyExpander();
    var nodes: seq<Node> := [];
    var i := 0;
    while i < |p|
      invariant 0 <= i <= |p|
      invariant forall j :: 0 <= j < i ==> Sound(q[j])
      invariant |nodes| == i && forall j :: 0 <= j < i ==> nodes[j] == NodeOf(q[j], None)
      invariant expander.hoisted == TopHoisted(q, i)
    {
      var node := expander.ParseNode(p[i], TopId(i));
      if node.Err? {
        assert !Sound(q[i]);
        return Err(node.error);
      }
      TopHoistOne(q, i);
      nodes := nodes + [node.value];
      i := i + 1;
    }
    AllUnlinked(q, nodes);
    LinkedIds(q, 0);
    return Ok(nodes + expander.hoisted);
  }

  lemma NoneRepeated(nodes: seq<Node>)
    ensures UniqueIds(nodes[..0])
  {
  }

  /** An id filed before is repeated; any other one is new. */
  lemma FiledBefore(nodes: seq<Node>, k: nat)
    requires k < |nodes| && UniqueIds(nodes[..k])
    ensures nodes[k].id in IndexOfNodes(nodes[..k]) ==> !UniqueIds(nodes)
    ensures nodes[k].id !in IndexOfNodes(nodes[..k]) ==> UniqueIds(nodes[..k + 1])
  {
    hide IndexOfNodes;
    IndexHolds(nodes[..k]);
    if nodes[k].id in IndexOfNodes(nodes[..k]) {
      var j :| 0 <= j < k && nodes[..k][j].id == nodes[k].id;
      assert nodes[j].id == nodes[k].id;
    } else {
      forall j | 0 <= j < k
        ensures nodes[j].id != nodes[k].id
      {
        assert nodes[..k][j].id == nodes[j].id;
      }
      assert forall j :: 0 <= j < k ==> nodes[..k + 1][j] == nodes[..k][j];
    }
  }

  /** The id index; an id used twice rejects the blueprint. */
  method BuildIndex(nodes: seq<Node>) returns (r: Result<map<Id, Node>, ParseError>)
    ensures r.Ok? <==> UniqueIds(nodes)
    ensures r.Ok? ==> r.value == IndexOfNodes(nodes)
  {
    hide UniqueIds;
    var index: map<Id, Node> := map[];
    var k := 0;
    NoneRepeated(nodes);
    while k < |nodes|
      invariant 0 <= k <= |nodes|
      invariant index == IndexOfNodes(nodes[..k]) && UniqueIds(nodes[..k])
    {
      FiledBefore(nodes, k);
      if nodes[k].id in index {
        return Err(DuplicateId(nodes[k].id));
      }
      IndexSnoc(nodes, k);
      index := index[nodes[k].id := nodes[k]];
      k := k + 1;
    }
    assert nodes[..k] == nodes;
    return Ok(index);
  }

  /** Parses a blueprint: nodes, hoisted bodies, index, and one edge per top-level fall-through. */
  method ParseWorkflow(p: seq<Stmt>, maxNodes: nat) returns (r: Result<Workflow, ParseError>)
    ensures r.Ok? <==> Accepted(p, maxNodes)
    ensures r.Ok? ==> r.value == Compile(NamedProgram(p))
  {
    hide Sound, SoundBlock, NodeOf, Named, Descendants, TopHoisted, IndexOfNodes, Linked;
    if p == [] { return Err(NoNodes); }
    if |p| > maxNodes { return Err(TooManyNodes); }
    ghost var q := NamedProgram(p);
    var parsed := ParseNodes(p);
    if parsed.Err? { return Err(parsed.error); }
    var nodes := parsed.value;
    LinkedIds(q, 0);
    var filed := BuildIndex(nodes);
    if filed.Err? { return Err(filed.error); }
    var index := filed.value;
    var i := 0;
    while i + 1 < |p|
      invariant 0 <= i < |p|
      invariant nodes == Linked(q, i) && index == IndexOfNodes(nodes) && UniqueIds(nodes)
    {
      LinkOne(q, i);
      LinkedIds(q, i);
      LinkedIds(q, i + 1);
      var node := nodes[i];
      KeepsNext(q, i);
      if !(node.kind.Leaf? && node.kind.terminal) {
        var linked := node.(next := Some(nodes[i + 1].id));
        Refile(nodes, i, linked);
        nodes := nodes[i := linked];
        index := index[linked.id := linked];
      }
      i := i + 1;
    }
    LinkedIds(q, i);
    EntryIsFirst(q, i);
    return Ok(Workflow(nodes, nodes[0].id, index));
  }

  lemma KeepsNext(q: seq<Stmt>, i: nat)
    requires i + 1 < |q|
    ensures var n := NodeOf(q[i], None);
            && (n.kind.Leaf? && n.kind.terminal <==> TopNext(q, i) == None)
            && NodeOf(q[i], Some(q[i + 1].id)) == n.(next := Some(q[i + 1].id))
            && (TopNext(q, i).Some? ==> TopNext(q, i).value == q[i + 1].id)
            && Linked(q, i)[i + 1].id == q[i + 1].id
            && (TopNext(q, i).None? ==> Linked(q, i + 1) == Linked(q, i))
  {
    if TopNext(q, i).None? {
      LinkOne(q, i);
      assert Linked(q, i)[i := NodeOf(q[i], None)] == Linked(q, i);
    }
  }
}
