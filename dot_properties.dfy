/** What `DotGraphSerializer.read` and `write` guarantee, stated against
    reference definitions and proved about the model in `DotGraph`. */
module DotProperties {
  import opened Wrappers
  import opened Geom
  import opened JavaText
  import opened DotGraph

  // ---------------------------------------------------------------------
  // Reading

  /** The parsed line, when it parses. */
  function Parsed(line: string, num: string -> Option<real>): Option<Line> {
    var r := ParseLine(line, num);
    if r.Success? then Some(r.value) else None
  }

  /** How many lines are edge lines. */
  function EdgeLineCount(lines: seq<string>, num: string -> Option<real>): nat {
    if lines == [] then 0
    else (var l := Parsed(lines[0], num); if l.Some? && l.value.EdgeLine? then 1 else 0)
         + EdgeLineCount(lines[1..], num)
  }

  /** The node map built from the node lines alone: each node line binds
      its name, a later line with the same name rebinding it. */
  function Declared(m: map<string, Point>, lines: seq<string>, num: string -> Option<real>): map<string, Point>
    decreases |lines|
  {
    if lines == [] then m
    else
      var l := Parsed(lines[0], num);
      Declared(if l.Some? && l.value.NodeLine? then m[l.value.name := l.value.p] else m, lines[1..], num)
  }

  /** A line is classified by `pos=` first and `->` second; a line with
      neither is skipped without error and never changes the graph. */
  lemma LineClassification(st: Loaded, line: string, nullFilters: bool, num: string -> Option<real>, dist: (Point, Point) -> real)
    ensures Parsed(line, num) == Some(Ignored) <==> !Contains(line, "pos=") && !Contains(line, "->")
    ensures (var l := Parsed(line, num); l.Some? && l.value.NodeLine? ==> Contains(line, "pos="))
    ensures (var l := Parsed(line, num); l.Some? && l.value.EdgeLine? ==> !Contains(line, "pos=") && Contains(line, "->"))
    ensures Parsed(line, num) == Some(Ignored) ==> LoadLine(st, line, nullFilters, num, dist) == Success(st)
  {
    if Contains(line, "pos=") {
      var r := ParseNodeLine(line, num);
      assert r.Success? ==> r.value.NodeLine?;
    } else if Contains(line, "->") {
      var r := ParseEdgeLine(line, num);
      assert r.Success? ==> r.value.EdgeLine?;
    }
  }

  /** The exceptions of parsing a line: `read` throws only
      `IndexOutOfBoundsException` or `NumberFormatException` on a line,
      never a `NullPointerException`. */
  lemma ParseErrors(line: string, num: string -> Option<real>)
    ensures var r := ParseLine(line, num);
      r.Failure? ==> r.error == IndexOutOfBounds || r.error.NumberFormat?
  {
    NodeLineErrors(line, num);
    EdgeLineErrors(line, num);
  }

  /** A node line without `[` is out of bounds; a parsed node is named by
      the trimmed text before the first `[`. */
  lemma NodeLineErrors(line: string, num: string -> Option<real>)
    ensures var r := ParseNodeLine(line, num);
      && (IndexOf(line, "[") < 0 ==> r == Failure(IndexOutOfBounds))
      && (r.Success? ==> r.value.NodeLine? && r.value.name == Trim(line[..IndexOf(line, "[")]))
      && (r.Failure? ==> r.error == IndexOutOfBounds || r.error.NumberFormat?)
  {
  }

  /** An edge line without `->` is out of bounds. */
  lemma EdgeLineErrors(line: string, num: string -> Option<real>)
    ensures var r := ParseEdgeLine(line, num);
      && (!Contains(line, "->") ==> r == Failure(IndexOutOfBounds))
      && (r.Success? ==> r.value.EdgeLine?)
      && (r.Failure? ==> r.error == IndexOutOfBounds || r.error.NumberFormat?)
  {
  }

  /** Reading is line by line: reading `xs + ys` reads `xs`, and, unless
      that threw, goes on with `ys` from where it stopped. */
  lemma {:induction false} ReadAppend(st: Loaded, xs: seq<string>, ys: seq<string>, nullFilters: bool,
                                      num: string -> Option<real>, dist: (Point, Point) -> real)
    ensures var r := ReadFrom(st, xs, nullFilters, num, dist);
      ReadFrom(st, xs + ys, nullFilters, num, dist)
      == if r.Failure? then r else ReadFrom(r.value, ys, nullFilters, num, dist)
    decreases |xs|
  {
    if xs == [] {
      assert xs + ys == ys;
    } else {
      assert (xs + ys)[0] == xs[0] && (xs + ys)[1..] == xs[1..] + ys;
      var next := LoadLine(st, xs[0], nullFilters, num, dist);
      if next.Success? {
        ReadAppend(next.value, xs[1..], ys, nullFilters, num, dist);
      }
    }
  }

  /** The node map `read` ends with is the one the node lines alone
      declare. */
  lemma {:induction false} ReadNodes(st: Loaded, lines: seq<string>, nullFilters: bool,
                                     num: string -> Option<real>, dist: (Point, Point) -> real)
    requires ReadFrom(st, lines, nullFilters, num, dist).Success?
    ensures ReadFrom(st, lines, nullFilters, num, dist).value.nodes == Declared(st.nodes, lines, num)
    decreases |lines|
  {
    if lines != [] {
      var next := LoadLine(st, lines[0], nullFilters, num, dist);
      ReadNodes(next.value, lines[1..], nullFilters, num, dist);
    }
  }

  /** Every edge line of a file read without error adds exactly one
      connection, in file order after the ones before it. */
  lemma {:induction false} ReadEdgeCount(st: Loaded, lines: seq<string>, nullFilters: bool,
                                         num: string -> Option<real>, dist: (Point, Point) -> real)
    requires ReadFrom(st, lines, nullFilters, num, dist).Success?
    ensures |ReadFrom(st, lines, nullFilters, num, dist).value.edges| == |st.edges| + EdgeLineCount(lines, num)
    decreases |lines|
  {
    if lines != [] {
      var next := LoadLine(st, lines[0], nullFilters, num, dist);
      LoadLineEdges(st, lines[0], nullFilters, num, dist);
      ReadEdgeCount(next.value, lines[1..], nullFilters, num, dist);
    }
  }

  /** One line adds a connection exactly when it is an edge line. */
  lemma LoadLineEdges(st: Loaded, line: string, nullFilters: bool,
                      num: string -> Option<real>, dist: (Point, Point) -> real)
    requires LoadLine(st, line, nullFilters, num, dist).Success?
    ensures var l := Parsed(line, num);
      |LoadLine(st, line, nullFilters, num, dist).value.edges|
      == |st.edges| + if l.Some? && l.value.EdgeLine? then 1 else 0
  {
  }

  /** One line read without error binds the name of a node line and leaves
      the node map alone otherwise. */
  lemma LoadLineNodes(st: Loaded, line: string, nullFilters: bool,
                      num: string -> Option<real>, dist: (Point, Point) -> real)
    requires LoadLine(st, line, nullFilters, num, dist).Success?
    ensures var l := Parsed(line, num);
      LoadLine(st, line, nullFilters, num, dist).value.nodes
      == if l.Some? && l.value.NodeLine? then st.nodes[l.value.name := l.value.p] else st.nodes
  {
  }

  /** Connection `k` of `r` is the one edge line `l` yields under the node
      map `m`: it joins the points `m` binds the two names to, and carries
      the stated distance exactly when that differs from `dist`. */
  predicate EdgeFrom(r: Loaded, k: nat, m: map<string, Point>, l: Line, dist: (Point, Point) -> real)
    requires l.EdgeLine?
  {
    && l.fromName in m && l.toName in m
    && k < |r.edges|
    && r.edges[k] == Edge(m[l.fromName], m[l.toName], EdgeData(m[l.fromName], m[l.toName], l.distance, dist))
  }

  /** The edge line `l` at index `j` of a file read without error yields
      connection `k`, numbered by the edge lines above it, under the node
      map `m` the node lines above it declare. */
  lemma {:induction false} ReadEdges(st: Loaded, lines: seq<string>, nullFilters: bool,
                                     num: string -> Option<real>, dist: (Point, Point) -> real,
                                     j: nat, l: Line, k: nat, m: map<string, Point>)
    requires ReadFrom(st, lines, nullFilters, num, dist).Success?
    requires j < |lines| && Parsed(lines[j], num) == Some(l) && l.EdgeLine?
    requires k == |st.edges| + EdgeLineCount(lines[..j], num)
    requires m == Declared(st.nodes, lines[..j], num)
    ensures EdgeFrom(ReadFrom(st, lines, nullFilters, num, dist).value, k, m, l, dist)
    decreases j
  {
    if j == 0 {
      assert lines[..0] == [];
      FirstEdge(st, lines, nullFilters, num, dist, l);
    } else {
      var next := LoadLine(st, lines[0], nullFilters, num, dist).value;
      assert ReadFrom(st, lines, nullFilters, num, dist) == ReadFrom(next, lines[1..], nullFilters, num, dist);
      PrefixStep(st, lines, nullFilters, num, dist, j);
      assert lines[1..][j - 1] == lines[j];
      ReadEdges(next, lines[1..], nullFilters, num, dist, j - 1, l, k, m);
    }
  }

  /** A file that starts with an edge line adds that line's connection
      first. */
  lemma FirstEdge(st: Loaded, lines: seq<string>, nullFilters: bool,
                  num: string -> Option<real>, dist: (Point, Point) -> real, l: Line)
    requires ReadFrom(st, lines, nullFilters, num, dist).Success?
    requires lines != [] && Parsed(lines[0], num) == Some(l) && l.EdgeLine?
    ensures EdgeFrom(ReadFrom(st, lines, nullFilters, num, dist).value, |st.edges|, st.nodes, l, dist)
  {
    var next := LoadLine(st, lines[0], nullFilters, num, dist);
    assert ReadFrom(st, lines, nullFilters, num, dist) == ReadFrom(next.value, lines[1..], nullFilters, num, dist);
    var r := ReadFrom(next.value, lines[1..], nullFilters, num, dist).value;
    assert next.value.edges <= r.edges;
  }

  /** The node map and the connection count above line `j`, seen from the
      state after the first line. */
  lemma PrefixStep(st: Loaded, lines: seq<string>, nullFilters: bool,
                   num: string -> Option<real>, dist: (Point, Point) -> real, j: nat)
    requires 0 < j <= |lines| && LoadLine(st, lines[0], nullFilters, num, dist).Success?
    ensures var next := LoadLine(st, lines[0], nullFilters, num, dist).value;
      && Declared(st.nodes, lines[..j], num) == Declared(next.nodes, lines[1..][..j - 1], num)
      && |st.edges| + EdgeLineCount(lines[..j], num) == |next.edges| + EdgeLineCount(lines[1..][..j - 1], num)
  {
    var pre, tail := lines[..j], lines[1..][..j - 1];
    assert pre[0] == lines[0] && pre[1..] == tail;
    PrefixNodes(st, pre, tail, nullFilters, num, dist);
    PrefixCount(st, pre, tail, nullFilters, num, dist);
  }

  lemma PrefixNodes(st: Loaded, pre: seq<string>, tail: seq<string>, nullFilters: bool,
                    num: string -> Option<real>, dist: (Point, Point) -> real)
    requires pre != [] && pre[1..] == tail && LoadLine(st, pre[0], nullFilters, num, dist).Success?
    ensures Declared(st.nodes, pre, num) == Declared(LoadLine(st, pre[0], nullFilters, num, dist).value.nodes, tail, num)
  {
    LoadLineNodes(st, pre[0], nullFilters, num, dist);
  }

  lemma PrefixCount(st: Loaded, pre: seq<string>, tail: seq<string>, nullFilters: bool,
                    num: string -> Option<real>, dist: (Point, Point) -> real)
    requires pre != [] && pre[1..] == tail && LoadLine(st, pre[0], nullFilters, num, dist).Success?
    ensures |st.edges| + EdgeLineCount(pre, num) == |LoadLine(st, pre[0], nullFilters, num, dist).value.edges| + EdgeLineCount(tail, num)
  {
    LoadLineEdges(st, pre[0], nullFilters, num, dist);
  }

  /** With a null filter array, a file without edge lines reads as with
      any filters. */
  lemma {:induction false} NullFiltersWithoutEdges(st: Loaded, lines: seq<string>,
                                                   num: string -> Option<real>, dist: (Point, Point) -> real)
    requires EdgeLineCount(lines, num) == 0
    ensures ReadFrom(st, lines, true, num, dist) == ReadFrom(st, lines, false, num, dist)
    decreases |lines|
  {
    if lines != [] {
      var next := LoadLine(st, lines[0], false, num, dist);
      assert LoadLine(st, lines[0], true, num, dist) == next;
      if next.Success? {
        NullFiltersWithoutEdges(next.value, lines[1..], num, dist);
      }
    }
  }

  /** With a null filter array, every file that reads without error and
      has an edge line throws a `NullPointerException` instead. */
  lemma {:induction false} NullFiltersRejectEdges(st: Loaded, lines: seq<string>,
                                                  num: string -> Option<real>, dist: (Point, Point) -> real)
    requires ReadFrom(st, lines, false, num, dist).Success?
    requires EdgeLineCount(lines, num) > 0
    ensures ReadFrom(st, lines, true, num, dist) == Failure(NullPointer)
    decreases |lines|
  {
    var l := Parsed(lines[0], num);
    var next := LoadLine(st, lines[0], false, num, dist);
    if !(l.Some? && l.value.EdgeLine?) {
      assert LoadLine(st, lines[0], true, num, dist) == next;
      NullFiltersRejectEdges(next.value, lines[1..], num, dist);
    }
  }

  /** The as-written constructor given a null array: `read` of a file whose
      edge lines name declared nodes throws, where the serializer with the
      null check on the field reads it. */
  lemma NullArrayBreaksRead(lines: seq<string>, num: string -> Option<real>, dist: (Point, Point) -> real)
    requires ReadGraph(lines, false, num, dist).Success?
    requires EdgeLineCount(lines, num) > 0
    ensures ReadGraph(lines, true, num, dist) == Failure(NullPointer)
  {
    NullFiltersRejectEdges(Loaded(map[], []), lines, num, dist);
  }

  // ---------------------------------------------------------------------
  // Writing

  /** Each declaration is one line: it starts with a node name and ends
      with the only line break the writer adds. */
  lemma RenderLine(d: Decl, fmt: real -> string, show: Point -> string)
    ensures var t := Render(d, fmt, show);
      |t| > 4 && t[..4] == "node" && t[|t| - 1] == '\n'
  {
  }

  /** The ids of the node lines, in order. */
  function NodeIds(ds: seq<Decl>): seq<nat> {
    if ds == [] then []
    else NodeIds(ds[..|ds| - 1]) + (if ds[|ds| - 1].NodeDecl? then [ds[|ds| - 1].id] else [])
  }

  /** The edge lines, in order. */
  function EdgeDecls(ds: seq<Decl>): seq<Decl> {
    if ds == [] then []
    else EdgeDecls(ds[..|ds| - 1]) + (if ds[|ds| - 1].EdgeDecl? then [ds[|ds| - 1]] else [])
  }

  /** `0, 1, ..., n - 1`. */
  function Range(n: nat): seq<nat> {
    seq(n, i => i)
  }

  /** What `write` keeps true of its id map: every id is below the next one,
      no two points share an id, and the node lines carry the ids
      0, 1, 2, ... in order. */
  predicate Numbered(w: Written) {
    && (forall p | p in w.ids :: w.ids[p] < w.next)
    && (forall p, q | p in w.ids && q in w.ids && p != q :: w.ids[p] != w.ids[q])
    && NodeIds(w.decls) == Range(w.next)
  }

  lemma Appended(ds: seq<Decl>, d: Decl)
    ensures NodeIds(ds + [d]) == NodeIds(ds) + (if d.NodeDecl? then [d.id] else [])
    ensures EdgeDecls(ds + [d]) == EdgeDecls(ds) + (if d.EdgeDecl? then [d] else [])
  {
    assert (ds + [d])[..|ds|] == ds;
  }

  /** Declaring a point keeps the numbering: the point gets a fresh id, the
      others keep theirs. */
  lemma DeclareNumbered(w: Written, p: Point)
    requires Numbered(w)
    ensures Numbered(Declare(w, p))
    ensures EdgeDecls(Declare(w, p).decls) == EdgeDecls(w.decls)
  {
    Appended(w.decls, NodeDecl(w.next, p));
    assert Range(w.next + 1) == Range(w.next) + [w.next];
  }

  /** A connection keeps the numbering. */
  lemma ConnectNumbered(w: Written, a: Arc, len: (Point, Point) -> real)
    requires Numbered(w)
    ensures Numbered(Connect(w, a, len))
  {
    var v := if a.to in w.ids then w else Declare(w, a.to);
    if a.to !in w.ids {
      DeclareNumbered(w, a.to);
    }
    Appended(v.decls, EdgeDecl(Find(v.ids, a.from), Find(v.ids, a.to), len(a.from, a.to)));
  }

  /** A connection gives its target an id if it had none and keeps every
      other id; it adds one edge line from the source's id (null if it has
      none) to the target's id, labelled with the connection's length. */
  lemma ConnectEdge(w: Written, a: Arc, len: (Point, Point) -> real)
    ensures var r := Connect(w, a, len);
      && r.ids.Keys == w.ids.Keys + {a.to}
      && (forall p | p in w.ids :: r.ids[p] == w.ids[p])
      && EdgeDecls(r.decls) == EdgeDecls(w.decls) + [EdgeDecl(Find(r.ids, a.from), Some(r.ids[a.to]), len(a.from, a.to))]
  {
    var v := if a.to in w.ids then w else Declare(w, a.to);
    if a.to !in w.ids {
      Appended(w.decls, NodeDecl(w.next, a.to));
    }
    Appended(v.decls, EdgeDecl(Find(v.ids, a.from), Find(v.ids, a.to), len(a.from, a.to)));
  }

  /** The first loop numbers the points 0, 1, 2, ... in order, one node line
      each, and writes no edge line. */
  lemma {:induction false} NodesNumbered(nodes: seq<Point>)
    ensures var w := DeclareNodes(nodes);
      && Numbered(w)
      && w.next == |nodes|
      && (forall p :: p in w.ids <==> p in nodes)
      && EdgeDecls(w.decls) == []
  {
    if nodes != [] {
      var init := nodes[..|nodes| - 1];
      NodesNumbered(init);
      DeclareNumbered(DeclareNodes(init), nodes[|nodes| - 1]);
      forall p
        ensures p in nodes <==> p in init || p == nodes[|nodes| - 1]
      {
        assert nodes == init + [nodes[|nodes| - 1]];
      }
    }
  }

  /** The targets of the connections. */
  function Targets(arcs: seq<Arc>): set<Point> {
    if arcs == [] then {} else Targets(arcs[..|arcs| - 1]) + {arcs[|arcs| - 1].to}
  }

  /** The second loop keeps the numbering. */
  lemma {:induction false} ArcsNumbered(w: Written, arcs: seq<Arc>, len: (Point, Point) -> real)
    requires Numbered(w)
    ensures Numbered(DeclareArcs(w, arcs, len))
  {
    if arcs != [] {
      var init := arcs[..|arcs| - 1];
      ArcsNumbered(w, init, len);
      ConnectNumbered(DeclareArcs(w, init, len), arcs[|arcs| - 1], len);
    }
  }

  /** The second loop keeps every id given so far and gives an id to
      every target. */
  lemma {:induction false} ArcsIds(w: Written, arcs: seq<Arc>, len: (Point, Point) -> real)
    ensures var r := DeclareArcs(w, arcs, len);
      && r.ids.Keys == w.ids.Keys + Targets(arcs)
      && (forall p | p in w.ids :: r.ids[p] == w.ids[p])
  {
    if arcs != [] {
      var init := arcs[..|arcs| - 1];
      ArcsIds(w, init, len);
      ConnectEdge(DeclareArcs(w, init, len), arcs[|arcs| - 1], len);
    }
  }

  /** The second loop writes one edge line per connection. */
  lemma {:induction false} ArcsEdgeCount(w: Written, arcs: seq<Arc>, len: (Point, Point) -> real)
    ensures |EdgeDecls(DeclareArcs(w, arcs, len).decls)| == |EdgeDecls(w.decls)| + |arcs|
  {
    if arcs != [] {
      var init := arcs[..|arcs| - 1];
      ArcsEdgeCount(w, init, len);
      ConnectEdge(DeclareArcs(w, init, len), arcs[|arcs| - 1], len);
    }
  }

  /** Every point `write` numbers is a node or the target of a connection;
      no two share an id; there is one edge line per connection. */
  lemma DeclarationsNumbered(nodes: seq<Point>, arcs: seq<Arc>, len: (Point, Point) -> real)
    ensures var w := Declarations(nodes, arcs, len);
      && Numbered(w)
      && (forall p :: p in w.ids <==> p in nodes || p in Targets(arcs))
      && |EdgeDecls(w.decls)| == |arcs|
  {
    NodesNumbered(nodes);
    ArcsNumbered(DeclareNodes(nodes), arcs, len);
    ArcsIds(DeclareNodes(nodes), arcs, len);
    ArcsEdgeCount(DeclareNodes(nodes), arcs, len);
  }

  // ---------------------------------------------------------------------
  // Writing a graph

  /** No point occurs twice, as in the node set of a graph. */
  predicate Distinct(nodes: seq<Point>) {
    forall i, j | 0 <= i < j < |nodes| :: nodes[i] != nodes[j]
  }

  /** The node lines: point `i` is `node<i>`. */
  function NodeLines(nodes: seq<Point>): seq<Decl> {
    seq(|nodes|, i requires 0 <= i < |nodes| => NodeDecl(i, nodes[i]))
  }

  /** Every connection joins two points that have ids. */
  predicate Joined(ids: map<Point, nat>, arcs: seq<Arc>) {
    forall k | 0 <= k < |arcs| :: arcs[k].from in ids && arcs[k].to in ids
  }

  /** The edge lines: one per connection, between the ids of its ends. */
  function EdgeLines(ids: map<Point, nat>, arcs: seq<Arc>, len: (Point, Point) -> real): seq<Decl>
    requires Joined(ids, arcs)
  {
    seq(|arcs|, k requires 0 <= k < |arcs| && Joined(ids, arcs) =>
      EdgeDecl(Some(ids[arcs[k].from]), Some(ids[arcs[k].to]), len(arcs[k].from, arcs[k].to)))
  }

  /** Distinct points are numbered by their position. */
  lemma {:induction false} NodesByPosition(nodes: seq<Point>)
    requires Distinct(nodes)
    ensures var w := DeclareNodes(nodes);
      && w.decls == NodeLines(nodes)
      && w.next == |nodes|
      && (forall p :: p in w.ids <==> p in nodes)
      && (forall i | 0 <= i < |nodes| :: w.ids[nodes[i]] == i)
  {
    if nodes != [] {
      var init := nodes[..|nodes| - 1];
      var last := nodes[|nodes| - 1];
      NodesByPosition(init);
      assert NodeLines(nodes) == NodeLines(init) + [NodeDecl(|init|, last)];
      forall p
        ensures p in nodes <==> p in init || p == last
      {
        assert nodes == init + [last];
      }
      forall i | 0 <= i < |nodes|
        ensures DeclareNodes(nodes).ids[nodes[i]] == i
      {
        if i < |init| {
          assert nodes[i] == init[i] != last;
        }
      }
    }
  }

  /** When every connection joins points that have ids, the second loop
      declares no node and writes exactly the edge lines. */
  lemma {:induction false} ArcsBetweenKnownPoints(w: Written, arcs: seq<Arc>, len: (Point, Point) -> real)
    requires Joined(w.ids, arcs)
    ensures DeclareArcs(w, arcs, len) == w.(decls := w.decls + EdgeLines(w.ids, arcs, len))
  {
    if arcs != [] {
      var init := arcs[..|arcs| - 1];
      var a := arcs[|arcs| - 1];
      assert Joined(w.ids, init);
      ArcsBetweenKnownPoints(w, init, len);
      var e := EdgeDecl(Some(w.ids[a.from]), Some(w.ids[a.to]), len(a.from, a.to));
      assert EdgeLines(w.ids, arcs, len) == EdgeLines(w.ids, init, len) + [e];
    }
  }

  /** `d` is the edge line of connection `a`: from the node line of its
      source to the node line of its target, labelled with its length. */
  predicate EdgeLineOf(d: Decl, nodes: seq<Point>, a: Arc, len: (Point, Point) -> real) {
    && d.EdgeDecl?
    && d.fromId.Some? && d.fromId.value < |nodes| && nodes[d.fromId.value] == a.from
    && d.toId.Some? && d.toId.value < |nodes| && nodes[d.toId.value] == a.to
    && d.length == len(a.from, a.to)
  }

  /** `write` of a graph, whose connections join its own nodes: node `i` is
      `node<i>`, then one edge line per connection, in order. */
  lemma WriteGraph(nodes: seq<Point>, arcs: seq<Arc>, len: (Point, Point) -> real)
    requires Distinct(nodes)
    requires forall k | 0 <= k < |arcs| :: arcs[k].from in nodes && arcs[k].to in nodes
    ensures var ds := Declarations(nodes, arcs, len).decls;
      && |ds| == |nodes| + |arcs|
      && (forall i | 0 <= i < |nodes| :: ds[i] == NodeDecl(i, nodes[i]))
      && (forall k | 0 <= k < |arcs| :: EdgeLineOf(ds[|nodes| + k], nodes, arcs[k], len))
  {
    NodesByPosition(nodes);
    var w := DeclareNodes(nodes);
    assert Joined(w.ids, arcs);
    ArcsBetweenKnownPoints(w, arcs, len);
    var ds := Declarations(nodes, arcs, len).decls;
    var es := EdgeLines(w.ids, arcs, len);
    assert ds == NodeLines(nodes) + es;
    forall k | 0 <= k < |arcs|
      ensures EdgeLineOf(ds[|nodes| + k], nodes, arcs[k], len)
    {
      assert ds[|nodes| + k] == es[k];
      IdOfPosition(nodes, arcs[k].from);
      IdOfPosition(nodes, arcs[k].to);
    }
  }

  /** The node loop gives a point of a graph the id of its position. */
  lemma IdOfPosition(nodes: seq<Point>, p: Point)
    requires Distinct(nodes) && p in nodes
    ensures var ids := DeclareNodes(nodes).ids;
      p in ids && ids[p] < |nodes| && nodes[ids[p]] == p
  {
    NodesByPosition(nodes);
    var i :| 0 <= i < |nodes| && nodes[i] == p;
  }

  // ---------------------------------------------------------------------
  // Numbers in the written text

  /** The value of a string of decimal digits. */
  function DecimalValue(s: string): nat
    requires forall i | 0 <= i < |s| :: '0' <= s[i] <= '9'
  {
    if s == [] then 0
    else DecimalValue(s[..|s| - 1]) * 10 + ((s[|s| - 1] as int) - ('0' as int))
  }

  /** `"" + n` reads back as `n`, so distinct ids give distinct node
      names. */
  lemma {:induction false} NatTextValue(n: nat)
    ensures DecimalValue(NatText(n)) == n
    decreases n
  {
    if n >= 10 {
      NatTextValue(n / 10);
      var s := NatText(n);
      assert s[..|s| - 1] == NatText(n / 10);
    }
  }

  /** Different ids are written as different node names. */
  lemma NodeNamesDistinct(i: nat, j: nat)
    requires i != j
    ensures "node" + NatText(i) != "node" + NatText(j)
  {
    NatTextValue(i);
    NatTextValue(j);
    PrefixDiffers("node", NatText(i), NatText(j));
  }

  lemma PrefixDiffers(a: string, s: string, t: string)
    requires s != t
    ensures a + s != a + t
  {
    assert (a + s)[|a|..] == s && (a + t)[|a|..] == t;
  }
}
