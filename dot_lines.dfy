/** What `read` of DotGraphSerializer.java makes of one line that `write`
    emits: a node line gives back the node's name and position, an edge
    line the two names and the label. */
module DotLines {
  import opened Wrappers
  import opened Geom
  import opened JavaText
  import opened DotGraph

  /** A text `"" + double` can produce, as far as `read` cares: not empty
      and without the characters `read` classifies or splits on. Java
      writes a double with digits, a sign, a point and an exponent `E`, or
      as `Infinity` or `NaN`, so each of its texts qualifies. */
  predicate NumberText(t: string) {
    && t != []
    && Free(t, '[') && Free(t, '"') && Free(t, ',') && Free(t, '>') && Free(t, 'p')
  }

  /** The name `write` gives the node with id `id`: it starts and ends with
      a non-blank character and holds none of the characters `read` splits
      or classifies on. */
  function NodeName(id: nat): (s: string)
    ensures s != [] && !Blank(s[0]) && !Blank(s[|s| - 1])
    ensures Free(s, '[') && Free(s, '"') && Free(s, '-') && Free(s, '>') && Free(s, 'p')
  {
    var n := NatText(id);
    assert forall i | 4 <= i < 4 + |n| :: ("node" + n)[i] == n[i - 4];
    "node" + n
  }

  /** A node name is its own trimmed text. */
  lemma NameTrimmed(id: nat)
    ensures Trim(NodeName(id)) == NodeName(id)
  {
    TrimmedStart(NodeName(id));
    TrimmedEnd(NodeName(id));
  }

  /** The shape of a node line `write` emits, with its name, its two
      coordinate texts and what follows the position left open. */
  function NodeText(name: string, xs: string, ys: string, tail: string): string {
    name + "[pos=\"" + xs + "," + ys + "\"" + tail
  }

  /** `read` takes a line shaped like a written node line for a node line
      naming `name` at the point whose coordinates `num` reads. */
  lemma NodeLineParse(name: string, xs: string, ys: string, tail: string,
                      num: string -> Option<real>, x: real, y: real)
    requires Free(name, '[') && Free(name, '"') && Trim(name) == name
    requires NumberText(xs) && NumberText(ys) && num(xs) == Some(x) && num(ys) == Some(y)
    ensures ParseLine(NodeText(name, xs, ys, tail), num) == Success(NodeLine(name, Point(x, y)))
  {
    NodeLineIsNode(name, xs, ys, tail);
    NodeLineName(name, xs, ys, tail);
    NodeLineCoords(name, xs, ys, tail);
    SplitPair(xs, ',', ys);
    NodeFields(NodeText(name, xs, ys, tail), name, xs, ys, num, x, y);
  }

  /** `read` of a node line whose name and coordinate texts sit where
      `read` looks for them. */
  lemma NodeFields(line: string, name: string, xs: string, ys: string,
                   num: string -> Option<real>, x: real, y: real)
    requires Contains(line, "pos=")
    requires IndexOf(line, "[") == |name| && line[..|name|] == name && Trim(name) == name
    requires var quoted := Split(line, "\"");
      |quoted| >= 2 && Split(quoted[1], ",") == [xs, ys]
    requires num(xs) == Some(x) && num(ys) == Some(y)
    ensures ParseLine(line, num) == Success(NodeLine(name, Point(x, y)))
  {
  }

  lemma NodeLineIsNode(name: string, xs: string, ys: string, tail: string)
    ensures Contains(NodeText(name, xs, ys, tail), "pos=")
  {
    var rest := "\"" + xs + "," + ys + "\"" + tail;
    assert NodeText(name, xs, ys, tail) == name + "[" + "pos=" + rest;
    ContainsMiddle(name + "[", "pos=", rest);
  }

  lemma NodeLineName(name: string, xs: string, ys: string, tail: string)
    requires Free(name, '[')
    ensures var line := NodeText(name, xs, ys, tail);
      IndexOf(line, "[") == |name| && line[..|name|] == name
  {
    var rest := "pos=\"" + xs + "," + ys + "\"" + tail;
    assert NodeText(name, xs, ys, tail) == name + ['['] + rest;
    IndexOfChar(name, '[', rest);
  }

  lemma NodeLineCoords(name: string, xs: string, ys: string, tail: string)
    requires Free(name, '"') && Free(xs, '"') && Free(ys, '"') && ys != []
    ensures var quoted := Split(NodeText(name, xs, ys, tail), "\"");
      |quoted| >= 2 && quoted[1] == xs + "," + ys
  {
    var coords := xs + "," + ys;
    assert NodeText(name, xs, ys, tail) == (name + "[pos=") + ['"'] + coords + ['"'] + tail;
    FreeAppend(name, "[pos=", '"');
    FreeAppend(xs, ",", '"');
    FreeAppend(xs + ",", ys, '"');
    SplitSecond(name + "[pos=", '"', coords, tail);
  }

  /** A node line that `write` emits, read without its line break, is a
      node line naming `node<id>` at the point whose coordinates `num`
      reads from the two written coordinates. */
  lemma NodeLineReadsBack(id: nat, p: Point, fmt: real -> string, show: Point -> string,
                          num: string -> Option<real>, x: real, y: real)
    requires NumberText(fmt(p.x / 3.0)) && NumberText(fmt(p.y / 3.0))
    requires num(fmt(p.x / 3.0)) == Some(x) && num(fmt(p.y / 3.0)) == Some(y)
    ensures var t := Render(NodeDecl(id, p), fmt, show);
      && t != [] && t[|t| - 1] == '\n'
      && ParseLine(t[..|t| - 1], num) == Success(NodeLine(NodeName(id), Point(x, y)))
  {
    var name, xs, ys := NodeName(id), fmt(p.x / 3.0), fmt(p.y / 3.0);
    var tail := ", label=\"" + show(p) + "\", pin=true]";
    var line := NodeText(name, xs, ys, tail);
    var t := Render(NodeDecl(id, p), fmt, show);
    assert t == line + "\n";
    assert t[..|t| - 1] == line;
    NameTrimmed(id);
    NodeLineParse(name, xs, ys, tail, num, x, y);
  }

  /** The shape of an edge line `write` emits, with its two names and its
      label text left open. */
  function EdgeText(a: string, b: string, tag: string): string {
    a + " -> " + b + "[label=\"" + tag + "\"]"
  }

  /** The part of an edge line after its arrow. */
  function EdgeTarget(b: string, tag: string): string {
    " " + b + "[label=\"" + tag + "\"]"
  }

  /** `read` takes a line shaped like a written edge line for an edge line
      from `a` to `b` whose distance `num` reads from the label. */
  lemma EdgeLineParse(a: string, b: string, tag: string, num: string -> Option<real>, d: real)
    requires Free(a, '-') && Free(a, '"') && Free(a, 'p') && Trim(a) == a
    requires Free(b, '[') && Free(b, '"') && Free(b, '>') && Free(b, 'p') && Trim(b) == b
    requires NumberText(tag) && num(tag) == Some(d)
    ensures ParseLine(EdgeText(a, b, tag), num) == Success(EdgeLine(a, b, d))
  {
    EdgeLineIsEdge(a, b, tag);
    EdgeLineNames(a, b, tag);
    EdgeLineTarget(b, tag);
    EdgeLineLabel(a, b, tag);
    TrimSpaced(a, b);
    EdgeFields(EdgeText(a, b, tag), a + " ", EdgeTarget(b, tag), " " + b, tag, num, d);
  }

  /** `read` of an edge line whose names and label sit where `read` looks
      for them. */
  lemma EdgeFields(line: string, left: string, right: string, target: string, tag: string,
                   num: string -> Option<real>, d: real)
    requires !Contains(line, "pos=") && Contains(line, "->")
    requires Split(line, "->") == [left, right]
    requires IndexOf(right, "[") == |target| && right[..|target|] == target
    requires var quoted := Split(line, "\""); |quoted| >= 2 && quoted[1] == tag
    requires num(tag) == Some(d)
    ensures ParseLine(line, num) == Success(EdgeLine(Trim(left), Trim(target), d))
  {
  }

  lemma EdgeLineIsEdge(a: string, b: string, tag: string)
    requires Free(a, 'p') && Free(b, 'p') && Free(tag, 'p')
    ensures !Contains(EdgeText(a, b, tag), "pos=") && Contains(EdgeText(a, b, tag), "->")
  {
    var right := EdgeTarget(b, tag);
    assert EdgeText(a, b, tag) == (a + " ") + "->" + right;
    FreeAppend(a, " -> ", 'p');
    FreeAppend(a + " -> ", b, 'p');
    FreeAppend(a + " -> " + b, "[label=\"", 'p');
    FreeAppend(a + " -> " + b + "[label=\"", tag, 'p');
    FreeAppend(a + " -> " + b + "[label=\"" + tag, "\"]", 'p');
    FreeLacks(EdgeText(a, b, tag), "pos=");
    ContainsMiddle(a + " ", "->", right);
  }

  lemma EdgeLineNames(a: string, b: string, tag: string)
    requires Free(a, '-') && Free(b, '>') && Free(tag, '>')
    ensures Split(EdgeText(a, b, tag), "->") == [a + " ", EdgeTarget(b, tag)]
  {
    assert EdgeText(a, b, tag) == (a + " ") + "->" + EdgeTarget(b, tag);
    FreeAppend(a, " ", '-');
    FreeAppend(" ", b, '>');
    FreeAppend(" " + b, "[label=\"", '>');
    FreeAppend(" " + b + "[label=\"", tag, '>');
    FreeAppend(" " + b + "[label=\"" + tag, "\"]", '>');
    SplitArrow(a + " ", EdgeTarget(b, tag));
  }

  lemma EdgeLineTarget(b: string, tag: string)
    requires Free(b, '[')
    ensures var right := EdgeTarget(b, tag);
      IndexOf(right, "[") == |b| + 1 && right[..|b| + 1] == " " + b
  {
    var rest := "label=\"" + tag + "\"]";
    assert EdgeTarget(b, tag) == (" " + b) + ['['] + rest;
    FreeAppend(" ", b, '[');
    IndexOfChar(" " + b, '[', rest);
  }

  lemma EdgeLineLabel(a: string, b: string, tag: string)
    requires Free(a, '"') && Free(b, '"') && Free(tag, '"') && tag != []
    ensures var quoted := Split(EdgeText(a, b, tag), "\"");
      |quoted| >= 2 && quoted[1] == tag
  {
    var head := a + " -> " + b + "[label=";
    assert EdgeText(a, b, tag) == head + ['"'] + tag + ['"'] + "]";
    FreeAppend(a, " -> ", '"');
    FreeAppend(a + " -> ", b, '"');
    FreeAppend(a + " -> " + b, "[label=", '"');
    SplitSecond(head, '"', tag, "]");
  }

  /** The single spaces around the arrow are trimmed away. */
  lemma TrimSpaced(a: string, b: string)
    requires Trim(a) == a && Trim(b) == b
    ensures Trim(a + " ") == a && Trim(" " + b) == b
  {
    TrimTrailingSpace(a);
    TrimLeadingSpace(b);
  }

  lemma TrimTrailingSpace(a: string)
    ensures Trim(a + " ") == Trim(a)
  {
    var e: string := [];
    assert e + a + " " == a + " ";
    TrimPadded(e, a, " ");
  }

  lemma TrimLeadingSpace(b: string)
    ensures Trim(" " + b) == Trim(b)
  {
    var e: string := [];
    assert " " + b + e == " " + b;
    TrimPadded(" ", b, e);
  }

  /** An edge line that `write` emits for two declared nodes, read without
      its line break, is an edge line from `node<from>` to `node<to>` whose
      distance is what `num` reads from the written label. */
  lemma EdgeLineReadsBack(from: nat, to: nat, length: real, fmt: real -> string, show: Point -> string,
                          num: string -> Option<real>, d: real)
    requires NumberText(fmt(Round(length * 10.0) as real / 10.0))
    requires num(fmt(Round(length * 10.0) as real / 10.0)) == Some(d)
    ensures var t := Render(EdgeDecl(Some(from), Some(to), length), fmt, show);
      && t != [] && t[|t| - 1] == '\n'
      && ParseLine(t[..|t| - 1], num) == Success(EdgeLine(NodeName(from), NodeName(to), d))
  {
    var a, b, tag := NodeName(from), NodeName(to), fmt(Round(length * 10.0) as real / 10.0);
    var line := EdgeText(a, b, tag);
    var t := Render(EdgeDecl(Some(from), Some(to), length), fmt, show);
    assert t == line + "\n";
    assert t[..|t| - 1] == line;
    NameTrimmed(from);
    NameTrimmed(to);
    EdgeLineParse(a, b, tag, num, d);
  }
}
