/** `DotGraphSerializer`: reads a road graph from, and writes it to, the
    subset of the Graphviz DOT language the simulator uses. Reading works
    line by line: a line with `pos=` declares a named node, a line with `->`
    connects two declared nodes. Writing numbers the points and emits one
    node line per point and one edge line per connection. Number parsing,
    number formatting, `Point.toString` and `Point.distance` are parameters. */
module DotGraph {
  import opened Wrappers
  import opened Geom
  import opened JavaText

  // ---------------------------------------------------------------------
  // Reading

  /** The exceptions `read` lets escape on a malformed file. */
  datatype ReadError =
    | IndexOutOfBounds         // a missing `[`, or too few `"`- or `,`-separated parts
    | NumberFormat(text: string) // `Double.parseDouble` refused `text`
    | NullPointer              // an edge names an undeclared node, or the filter array is null

  /** What one line of the file says. */
  datatype Line =
    | NodeLine(name: string, p: Point)
    | EdgeLine(fromName: string, toName: string, distance: real)
    | Ignored

  /** A connection added to the graph: with the default edge data
      (`length == None`) when the stated distance is the distance between
      the points, with `LengthEdgeData(distance)` otherwise. */
  datatype Edge = Edge(from: Point, to: Point, length: Option<real>)

  /** The node map and the connections added so far. */
  datatype Loaded = Loaded(nodes: map<string, Point>, edges: seq<Edge>)

  /** `map.get(key)`: the value, or null. */
  function Find<K, V>(m: map<K, V>, key: K): (r: Option<V>)
    ensures r.Some? <==> key in m
    ensures r.Some? ==> r.value == m[key]
  {
    if key in m then Some(m[key]) else None
  }

  /** `Double.parseDouble(text)`, with `num` standing for the Java parser. */
  function Number(text: string, num: string -> Option<real>): Result<real, ReadError> {
    match num(text)
    case None => Failure(NumberFormat(text))
    case Some(x) => Success(x)
  }

  /** A node line: the trimmed text before the first `[` names a point
      whose coordinates are the two `,`-separated parts of the second
      `"`-separated field. */
  function ParseNodeLine(line: string, num: string -> Option<real>): Result<Line, ReadError> {
    var b := IndexOf(line, "[");
    if b < 0 then Failure(IndexOutOfBounds)
    else
      var quoted := Split(line, "\"");
      if |quoted| < 2 then Failure(IndexOutOfBounds)
      else
        var position := Split(quoted[1], ",");
        if |position| < 1 then Failure(IndexOutOfBounds)
        else match Number(position[0], num)
          case Failure(e) => Failure(e)
          case Success(x) =>
            if |position| < 2 then Failure(IndexOutOfBounds)
            else match Number(position[1], num)
              case Failure(e) => Failure(e)
              case Success(y) => Success(NodeLine(Trim(line[..b]), Point(x, y)))
  }

  /** An edge line: the trimmed text before the first `->` names the
      source, the trimmed text after it up to its first `[` names the
      target, and the second `"`-separated field of the line is the
      distance. */
  function ParseEdgeLine(line: string, num: string -> Option<real>): Result<Line, ReadError> {
    var names := Split(line, "->");
    if |names| < 2 then Failure(IndexOutOfBounds)
    else
      var b := IndexOf(names[1], "[");
      if b < 0 then Failure(IndexOutOfBounds)
      else
        var quoted := Split(line, "\"");
        if |quoted| < 2 then Failure(IndexOutOfBounds)
        else match Number(quoted[1], num)
          case Failure(e) => Failure(e)
          case Success(d) => Success(EdgeLine(Trim(names[0]), Trim(names[1][..b]), d))
  }

  /** How `read` classifies a line: `pos=` first, then `->`, otherwise the
      line is skipped. */
  function ParseLine(line: string, num: string -> Option<real>): Result<Line, ReadError> {
    if Contains(line, "pos=") then ParseNodeLine(line, num)
    else if Contains(line, "->") then ParseEdgeLine(line, num)
    else Success(Ignored)
  }

  /** The edge data `read` attaches to a connection. */
  function EdgeData(from: Point, to: Point, distance: real, dist: (Point, Point) -> real): (r: Option<real>)
    ensures r.None? <==> dist(from, to) == distance
    ensures r.Some? ==> r.value == distance
  {
    if dist(from, to) == distance then None else Some(distance)
  }

  /** What a parsed line does to the graph being read. The filter loop runs
      over a null array when `nullFilters`, and its `continue` never skips
      the connection. */
  function Load(st: Loaded, l: Line, nullFilters: bool, dist: (Point, Point) -> real): (r: Result<Loaded, ReadError>)
    ensures r.Success? ==> st.nodes.Keys <= r.value.nodes.Keys
    ensures r.Success? ==> r.value.edges == st.edges || (l.EdgeLine? && |r.value.edges| == |st.edges| + 1 && r.value.edges[..|st.edges|] == st.edges)
    ensures r.Success? && !l.EdgeLine? ==> r.value.edges == st.edges
    ensures l.NodeLine? ==> r == Success(st.(nodes := st.nodes[l.name := l.p]))
    ensures l.Ignored? ==> r == Success(st)
    ensures l.EdgeLine? ==>
      && (r.Success? <==> !nullFilters && l.fromName in st.nodes && l.toName in st.nodes)
      && (r.Failure? ==> r.error == NullPointer)
    ensures l.EdgeLine? && r.Success? ==>
      && r.value.nodes == st.nodes
      && |r.value.edges| == |st.edges| + 1
      && r.value.edges[..|st.edges|] == st.edges
      && var e := r.value.edges[|st.edges|];
      && e.from == st.nodes[l.fromName] && e.to == st.nodes[l.toName]
      && (e.length.None? <==> dist(e.from, e.to) == l.distance)
      && (e.length.Some? ==> e.length.value == l.distance)
  {
    match l
    case NodeLine(name, p) => Success(st.(nodes := st.nodes[name := p]))
    case EdgeLine(fromName, toName, d) =>
      var from, to := Find(st.nodes, fromName), Find(st.nodes, toName);
      if nullFilters || from.None? || to.None? then Failure(NullPointer)
      else Success(st.(edges := st.edges + [Edge(from.value, to.value, EdgeData(from.value, to.value, d, dist))]))
    case Ignored => Success(st)
  }

  /** One line of the file: parsed, then loaded. */
  function LoadLine(st: Loaded, line: string, nullFilters: bool, num: string -> Option<real>, dist: (Point, Point) -> real): Result<Loaded, ReadError> {
    match ParseLine(line, num)
    case Failure(e) => Failure(e)
    case Success(l) => Load(st, l, nullFilters, dist)
  }

  /** Reading `lines` from state `st`: each line is loaded in turn, and the
      first exception ends the read. */
  function ReadFrom(st: Loaded, lines: seq<string>, nullFilters: bool, num: string -> Option<real>, dist: (Point, Point) -> real): (r: Result<Loaded, ReadError>)
    ensures r.Success? ==> st.nodes.Keys <= r.value.nodes.Keys && st.edges <= r.value.edges
    decreases |lines|
  {
    if lines == [] then Success(st)
    else
      var next := LoadLine(st, lines[0], nullFilters, num, dist);
      if next.Failure? then next
      else ReadFrom(next.value, lines[1..], nullFilters, num, dist)
  }

  /** One turn of the reading loop, unfolded. */
  lemma ReadFromUnfold(st: Loaded, lines: seq<string>, i: nat, nullFilters: bool, num: string -> Option<real>, dist: (Point, Point) -> real)
    requires i < |lines|
    ensures var next := LoadLine(st, lines[i], nullFilters, num, dist);
      ReadFrom(st, lines[i..], nullFilters, num, dist)
      == if next.Failure? then next else ReadFrom(next.value, lines[i + 1..], nullFilters, num, dist)
  {
    assert lines[i..][0] == lines[i] && lines[i..][1..] == lines[i + 1..];
  }

  /** `read`: the lines of the file, from an empty node map and an empty
      graph. */
  function ReadGraph(lines: seq<string>, nullFilters: bool, num: string -> Option<real>, dist: (Point, Point) -> real): Result<Loaded, ReadError> {
    ReadFrom(Loaded(map[], []), lines, nullFilters, num, dist)
  }

  // ---------------------------------------------------------------------
  // Writing

  /** A connection of the graph to write. */
  datatype Arc = Arc(from: Point, to: Point)

  /** A line of the written document: a node with its id, or an edge
      between the ids of its end points (null when the source point has no
      id yet) with the connection's length. */
  datatype Decl =
    | NodeDecl(id: nat, p: Point)
    | EdgeDecl(fromId: Option<nat>, toId: Option<nat>, length: real)

  /** The id map, the next id and the lines `write` has produced so far. */
  datatype Written = Written(ids: map<Point, nat>, next: nat, decls: seq<Decl>)

  /** One node line for `p`, which gets the next id. */
  function Declare(w: Written, p: Point): Written {
    Written(w.ids[p := w.next], w.next + 1, w.decls + [NodeDecl(w.next, p)])
  }

  /** The first loop of `write`: one node line per point of `getNodes()`,
      ids in iteration order. */
  function DeclareNodes(nodes: seq<Point>): Written {
    if nodes == [] then Written(map[], 0, [])
    else Declare(DeclareNodes(nodes[..|nodes| - 1]), nodes[|nodes| - 1])
  }

  /** One iteration of the second loop of `write`: a node line for a target
      not seen yet, then the edge line between the ids of the end points. */
  function Connect(w: Written, a: Arc, len: (Point, Point) -> real): Written {
    var v := if a.to in w.ids then w else Declare(w, a.to);
    v.(decls := v.decls + [EdgeDecl(Find(v.ids, a.from), Find(v.ids, a.to), len(a.from, a.to))])
  }

  /** The second loop of `write`, over `getConnections()`. */
  function DeclareArcs(w: Written, arcs: seq<Arc>, len: (Point, Point) -> real): Written {
    if arcs == [] then w
    else Connect(DeclareArcs(w, arcs[..|arcs| - 1], len), arcs[|arcs| - 1], len)
  }

  /** Every line `write` produces, in order. */
  function Declarations(nodes: seq<Point>, arcs: seq<Arc>, len: (Point, Point) -> real): Written {
    DeclareArcs(DeclareNodes(nodes), arcs, len)
  }

  /** `Math.round`: the nearest integer, halves rounded up. */
  function Round(x: real): (r: int)
    ensures x - 0.5 < r as real <= x + 0.5
  {
    (x + 0.5).Floor
  }

  /** A decimal digit. */
  function Digit(d: nat): (c: char)
    requires d < 10
    ensures '0' <= c <= '9' && (c as int) - ('0' as int) == d
  {
    ((d + '0' as int) as char)
  }

  /** `"" + n` for a non-negative `int`: its decimal digits, no sign, no
      leading zero. */
  function NatText(n: nat): (s: string)
    ensures s != [] && forall i | 0 <= i < |s| :: '0' <= s[i] <= '9'
    ensures |s| > 1 ==> s[0] != '0'
    decreases n
  {
    if n < 10 then [Digit(n)] else NatText(n / 10) + [Digit(n % 10)]
  }

  /** An id as Java concatenates an `Integer`: `null` when absent. */
  function IdText(id: Option<nat>): string {
    match id
    case None => "null"
    case Some(n) => NatText(n)
  }

  /** The text of one line; `fmt` stands for `"" + double` and `show` for
      `Point.toString()`. A node is placed at a third of its coordinates;
      an edge is labelled with its length rounded to one decimal. */
  function Render(d: Decl, fmt: real -> string, show: Point -> string): string {
    match d
    case NodeDecl(id, p) =>
      "node" + NatText(id) + "[pos=\"" + fmt(p.x / 3.0) + "," + fmt(p.y / 3.0)
      + "\", label=\"" + show(p) + "\", pin=true]\n"
    case EdgeDecl(from, to, length) =>
      "node" + IdText(from) + " -> node" + IdText(to)
      + "[label=\"" + fmt(Round(length * 10.0) as real / 10.0) + "\"]\n"
  }

  /** The lines' texts, one after the other. */
  function RenderAll(ds: seq<Decl>, fmt: real -> string, show: Point -> string): string {
    if ds == [] then [] else RenderAll(ds[..|ds| - 1], fmt, show) + Render(ds[|ds| - 1], fmt, show)
  }

  /** Rendering one more line appends its text to what was rendered. */
  lemma RenderAppend(h: string, ds: seq<Decl>, d: Decl, fmt: real -> string, show: Point -> string)
    ensures h + RenderAll(ds + [d], fmt, show) == h + RenderAll(ds, fmt, show) + Render(d, fmt, show)
  {
    assert (ds + [d])[..|ds|] == ds;
  }

  const Header: string := "digraph genegraph {\n"

  /** The document `write` builds: the header, every line, and a closing
      brace. */
  function Document(nodes: seq<Point>, arcs: seq<Arc>, len: (Point, Point) -> real,
                    fmt: real -> string, show: Point -> string): (doc: string)
    ensures |doc| > |Header| && doc[..|Header|] == Header && doc[|doc| - 1] == '}'
  {
    var doc := Header + RenderAll(Declarations(nodes, arcs, len).decls, fmt, show) + "}";
    assert doc[..|Header|] == Header;
    doc
  }

  /** The first loop of `write`: a node line per point, numbered from 0. */
  method WriteNodes(nodes: seq<Point>, fmt: real -> string, show: Point -> string)
    returns (text: string, idMap: map<Point, nat>, nodeId: nat, ghost decls: seq<Decl>)
    ensures var w := DeclareNodes(nodes);
      idMap == w.ids && nodeId == w.next && text == Header + RenderAll(w.decls, fmt, show)
    ensures decls == DeclareNodes(nodes).decls
  {
    text := Header;
    nodeId := 0;
    idMap := map[];
    decls := [];
    for i := 0 to |nodes|
      invariant Written(idMap, nodeId, decls) == DeclareNodes(nodes[..i])
      invariant text == Header + RenderAll(decls, fmt, show)
    {
      ghost var w := Written(idMap, nodeId, decls);
      assert nodes[..i + 1][..i] == nodes[..i];
      var p := nodes[i];
      var d := NodeDecl(nodeId, p);
      RenderAppend(Header, decls, d, fmt, show);
      text := text + Render(d, fmt, show);
      decls := decls + [d];
      idMap := idMap[p := nodeId];
      nodeId := nodeId + 1;
      assert Written(idMap, nodeId, decls) == Declare(w, p);
    }
    assert nodes[..|nodes|] == nodes;
  }

  /** One iteration of the second loop of `write`. */
  method WriteArc(text0: string, ids0: map<Point, nat>, next0: nat, ghost decls0: seq<Decl>,
                  a: Arc, len: (Point, Point) -> real, fmt: real -> string, show: Point -> string)
    returns (text: string, idMap: map<Point, nat>, nodeId: nat, ghost decls: seq<Decl>)
    requires text0 == Header + RenderAll(decls0, fmt, show)
    ensures var w := Connect(Written(ids0, next0, decls0), a, len);
      idMap == w.ids && nodeId == w.next && text == Header + RenderAll(w.decls, fmt, show)
    ensures decls == Connect(Written(ids0, next0, decls0), a, len).decls
  {
    text, idMap, nodeId, decls := text0, ids0, next0, decls0;
    if a.to !in idMap {
      var d := NodeDecl(nodeId, a.to);
      RenderAppend(Header, decls, d, fmt, show);
      text := text + Render(d, fmt, show);
      decls := decls + [d];
      idMap := idMap[a.to := nodeId];
      nodeId := nodeId + 1;
    }
    var e := EdgeDecl(Find(idMap, a.from), Find(idMap, a.to), len(a.from, a.to));
    RenderAppend(Header, decls, e, fmt, show);
    text := text + Render(e, fmt, show);
    decls := decls + [e];
  }

  /** The second loop of `write`, over the connections. */
  method WriteArcs(text0: string, ids0: map<Point, nat>, next0: nat, ghost decls0: seq<Decl>,
                   arcs: seq<Arc>, len: (Point, Point) -> real, fmt: real -> string, show: Point -> string)
    returns (text: string, idMap: map<Point, nat>, nodeId: nat, ghost decls: seq<Decl>)
    requires text0 == Header + RenderAll(decls0, fmt, show)
    ensures var w := DeclareArcs(Written(ids0, next0, decls0), arcs, len);
      idMap == w.ids && nodeId == w.next && text == Header + RenderAll(w.decls, fmt, show)
    ensures decls == DeclareArcs(Written(ids0, next0, decls0), arcs, len).decls
  {
    text, idMap, nodeId, decls := text0, ids0, next0, decls0;
    for k := 0 to |arcs|
      invariant Written(idMap, nodeId, decls) == DeclareArcs(Written(ids0, next0, decls0), arcs[..k], len)
      invariant text == Header + RenderAll(decls, fmt, show)
    {
      assert arcs[..k + 1][..k] == arcs[..k];
      text, idMap, nodeId, decls := WriteArc(text, idMap, nodeId, decls, arcs[k], len, fmt, show);
    }
    assert arcs[..|arcs|] == arcs;
  }

  // ---------------------------------------------------------------------
  // The serializer

  /** `SerializerFilter.filterOut(from, to)`. */
  type Filter = (Option<Point>, Option<Point>) -> bool

  class DotGraphSerializer {
    /** The filter array; `None` is a null array. */
    const filters: Option<seq<Filter>>

    /** `DotGraphSerializer(SerializerFilter... filters)` as written: the
        null check assigns the parameter, not the field, so a null array
        stays null. */
    constructor (fs: Option<seq<Filter>>)
      ensures filters == fs
    {
      filters := fs;
    }

    /** The same constructor with the null check assigning the field, as
        evidently intended: the filter array is never null. */
    constructor Guarded(fs: Option<seq<Filter>>)
      ensures filters.Some?
      ensures fs.Some? ==> filters == fs
    {
      filters := if fs.None? then Some([]) else fs;
    }

    /** `DotGraphSerializer()`: an empty filter array. */
    constructor NoFilters()
      ensures filters == Some([])
    {
      filters := Some([]);
    }

    /** `read`: the `while` loop over the lines of the reader. Whatever the
        filters answer, the outcome is the same: only a null filter array
        makes a difference. */
    method Read(lines: seq<string>, num: string -> Option<real>, dist: (Point, Point) -> real)
      returns (r: Result<Loaded, ReadError>)
      ensures r == ReadGraph(lines, filters.None?, num, dist)
    {
      var nodeMapping: map<string, Point> := map[];
      var graph: seq<Edge> := [];
      var i := 0;
      while i < |lines|
        invariant 0 <= i <= |lines|
        invariant ReadGraph(lines, filters.None?, num, dist)
                  == ReadFrom(Loaded(nodeMapping, graph), lines[i..], filters.None?, num, dist)
      {
        ghost var st := Loaded(nodeMapping, graph);
        ReadFromUnfold(st, lines, i, filters.None?, num, dist);
        var parsed := ParseLine(lines[i], num);
        if parsed.Failure? {
          return Failure(parsed.error);
        }
        match parsed.value {
          case NodeLine(name, p) =>
            nodeMapping := nodeMapping[name := p];
          case EdgeLine(fromName, toName, distance) =>
            var from := Find(nodeMapping, fromName);
            var to := Find(nodeMapping, toName);
            if filters.None? {
              return Failure(NullPointer);
            }
            var fs := filters.value;
            for k := 0 to |fs| {
              if fs[k](from, to) {
                continue;
              }
            }
            if from.None? || to.None? {
              return Failure(NullPointer);
            }
            if dist(from.value, to.value) == distance {
              graph := graph + [Edge(from.value, to.value, None)];
            } else {
              graph := graph + [Edge(from.value, to.value, Some(distance))];
            }
          case Ignored =>
        }
        assert LoadLine(st, lines[i], filters.None?, num, dist) == Success(Loaded(nodeMapping, graph));
        i := i + 1;
      }
      return Success(Loaded(nodeMapping, graph));
    }

    /** `write`: number the points, build the document in a string
        builder, and return what reaches the writer, which is nothing: the
        built string is never written. */
    method Write(nodes: seq<Point>, arcs: seq<Arc>, len: (Point, Point) -> real,
                 fmt: real -> string, show: Point -> string)
      returns (built: string, written: string)
      ensures built == Document(nodes, arcs, len, fmt, show)
      ensures written == []
    {
      var text, idMap, nodeId;
      ghost var decls;
      text, idMap, nodeId, decls := WriteNodes(nodes, fmt, show);
      text, idMap, nodeId, decls := WriteArcs(text, idMap, nodeId, decls, arcs, len, fmt, show);
      built := text + "}";
      written := [];
    }

    /** `write` with the built string handed to the writer, as evidently
        intended: what reaches the writer is the whole document. */
    method WriteOut(nodes: seq<Point>, arcs: seq<Arc>, len: (Point, Point) -> real,
                    fmt: real -> string, show: Point -> string)
      returns (written: string)
      ensures written == Document(nodes, arcs, len, fmt, show)
      ensures |written| > |Header| && written[..|Header|] == Header && written[|written| - 1] == '}'
    {
      var built, discarded := Write(nodes, arcs, len, fmt, show);
      written := built;
    }
  }
}
