/** The `java.lang.String` operations the DOT reader relies on: `indexOf`,
    `contains`, `split` around a literal separator and `trim`, with their
    Java semantics spelled out. */
module JavaText {

  /** `pat` occurs in `s` at index `i`. */
  predicate At(s: string, pat: string, i: int) {
    0 <= i && i + |pat| <= |s| && s[i..i + |pat|] == pat
  }

  /** `s.indexOf(pat, from)`: the first occurrence at or after `from`, or -1. */
  function IndexFrom(s: string, pat: string, from: nat): (i: int)
    ensures i == -1 || (from <= i && At(s, pat, i))
    ensures i == -1 ==> forall k | from <= k :: !At(s, pat, k)
    ensures i >= 0 ==> forall k | from <= k < i :: !At(s, pat, k)
    decreases |s| - from
  {
    if from + |pat| > |s| then -1
    else if s[from..from + |pat|] == pat then from
    else IndexFrom(s, pat, from + 1)
  }

  /** `s.indexOf(pat)`. */
  function IndexOf(s: string, pat: string): (i: int)
    ensures i == -1 || At(s, pat, i)
    ensures i == -1 <==> forall k :: !At(s, pat, k)
    ensures forall k | 0 <= k < i :: !At(s, pat, k)
  {
    IndexFrom(s, pat, 0)
  }

  /** `s.contains(pat)`. */
  predicate Contains(s: string, pat: string) {
    IndexOf(s, pat) >= 0
  }

  /** `s` cut at every occurrence of `pat`, left to right, keeping every
      piece, the empty ones included. */
  function Pieces(s: string, pat: string): (ps: seq<string>)
    requires pat != []
    ensures |ps| >= 1
    decreases |s|
  {
    var i := IndexOf(s, pat);
    if i < 0 then [s] else [s[..i]] + Pieces(s[i + |pat|..], pat)
  }

  /** The pieces glued back together with `pat` between them. */
  function Join(ps: seq<string>, pat: string): string
    requires ps != []
  {
    if |ps| == 1 then ps[0] else ps[0] + pat + Join(ps[1..], pat)
  }

  /** `ps` without its trailing empty strings. */
  function DropTrailingEmpty(ps: seq<string>): (r: seq<string>)
    ensures r <= ps
    ensures r == [] || r[|r| - 1] != []
    ensures forall k | |r| <= k < |ps| :: ps[k] == []
  {
    if ps == [] then []
    else if ps[|ps| - 1] == [] then DropTrailingEmpty(ps[..|ps| - 1])
    else ps
  }

  /** `s.split(pat)` for a separator without regular-expression meta
      characters: the whole string when `pat` does not occur, otherwise the
      pieces with the trailing empty ones removed (so possibly none). */
  function Split(s: string, pat: string): (ps: seq<string>)
    requires pat != []
    ensures !Contains(s, pat) ==> ps == [s]
    ensures ps <= Pieces(s, pat)
    ensures forall k | |ps| <= k < |Pieces(s, pat)| :: Pieces(s, pat)[k] == []
    ensures Contains(s, pat) ==> ps == [] || ps[|ps| - 1] != []
  {
    if IndexOf(s, pat) < 0 then [s] else DropTrailingEmpty(Pieces(s, pat))
  }

  /** `Character <= ' '`: what `String.trim` strips. */
  predicate Blank(c: char) {
    c <= ' '
  }

  /** `s` without its leading blank characters. */
  function TrimStart(s: string): (r: string)
    ensures r == [] || !Blank(r[0])
    ensures |r| <= |s| && r == s[|s| - |r|..]
    ensures forall j | 0 <= j < |s| - |r| :: Blank(s[j])
    decreases |s|
  {
    if s != [] && Blank(s[0]) then TrimStart(s[1..]) else s
  }

  /** `s` without its trailing blank characters. */
  function TrimEnd(s: string): (r: string)
    ensures r == [] || !Blank(r[|r| - 1])
    ensures r <= s
    ensures forall j | |r| <= j < |s| :: Blank(s[j])
    decreases |s|
  {
    if s != [] && Blank(s[|s| - 1]) then TrimEnd(s[..|s| - 1]) else s
  }

  /** `s.trim()`. */
  function Trim(s: string): (r: string)
    ensures r == [] || (!Blank(r[0]) && !Blank(r[|r| - 1]))
    ensures |r| <= |s|
    ensures (forall j | 0 <= j < |s| :: Blank(s[j])) ==> r == []
    ensures exists i :: TrimmedAt(s, r, i)
  {
    TrimInfix(s);
    TrimEnd(TrimStart(s))
  }

  /** Every character of `t` is blank. */
  predicate AllBlank(t: string) {
    forall k | 0 <= k < |t| :: Blank(t[k])
  }

  /** `r` stands in `s` at `i`, and everything before and after it is
      blank. */
  predicate TrimmedAt(s: string, r: string, i: int) {
    && 0 <= i <= |s| - |r|
    && r == s[i..i + |r|]
    && AllBlank(s[..i])
    && AllBlank(s[i + |r|..])
  }

  /** What `trim` keeps is the part of `s` between its leading and its
      trailing blanks. */
  lemma TrimInfix(s: string)
    ensures TrimmedAt(s, TrimEnd(TrimStart(s)), |s| - |TrimStart(s)|)
  {
    InfixOf(s, TrimStart(s), TrimEnd(TrimStart(s)));
  }

  /** A prefix `r` of a suffix `t` of `s`, with blanks before `t` and after
      `r`, stands in `s` between blanks. */
  lemma InfixOf(s: string, t: string, r: string)
    requires |t| <= |s| && t == s[|s| - |t|..] && forall j | 0 <= j < |s| - |t| :: Blank(s[j])
    requires r <= t && forall j | |r| <= j < |t| :: Blank(t[j])
    ensures TrimmedAt(s, r, |s| - |t|)
  {
    var i := |s| - |t|;
    assert r == s[i..i + |r|];
    var before, after := s[..i], s[i + |r|..];
    forall k | 0 <= k < |before|
      ensures Blank(before[k])
    {
      assert before[k] == s[k];
    }
    forall k | 0 <= k < |after|
      ensures Blank(after[k])
    {
      assert after[k] == t[|r| + k];
    }
  }


  // ---------------------------------------------------------------------
  // Properties

  /** Cutting at `pat` loses nothing: the pieces joined with `pat` give the
      string back. */
  lemma {:induction false} JoinPieces(s: string, pat: string)
    requires pat != []
    ensures Join(Pieces(s, pat), pat) == s
    decreases |s|
  {
    var i := IndexOf(s, pat);
    if i >= 0 {
      var rest := s[i + |pat|..];
      JoinPieces(rest, pat);
      PiecesCons(s, pat);
      JoinCons(s[..i], Pieces(rest, pat), pat);
      CutAt(s, pat, i);
    }
  }

  lemma PiecesCons(s: string, pat: string)
    requires pat != [] && IndexOf(s, pat) >= 0
    ensures Pieces(s, pat) == [s[..IndexOf(s, pat)]] + Pieces(s[IndexOf(s, pat) + |pat|..], pat)
  {
  }

  lemma JoinCons(h: string, ps: seq<string>, pat: string)
    requires ps != []
    ensures Join([h] + ps, pat) == h + pat + Join(ps, pat)
  {
    assert ([h] + ps)[1..] == ps;
  }

  lemma CutAt(s: string, pat: string, i: int)
    requires At(s, pat, i)
    ensures s == s[..i] + pat + s[i + |pat|..]
  {
    assert s[i..] == s[i..i + |pat|] + s[i + |pat|..];
    assert s == s[..i] + s[i..];
  }

  /** No piece contains the separator. */
  lemma {:induction false} PiecesAvoid(s: string, pat: string)
    requires pat != []
    ensures forall p | p in Pieces(s, pat) :: !Contains(p, pat)
    decreases |s|
  {
    var i := IndexOf(s, pat);
    if i >= 0 {
      var rest := s[i + |pat|..];
      PiecesAvoid(rest, pat);
      var head := s[..i];
      if Contains(head, pat) {
        AtPrefix(s, pat, i, IndexOf(head, pat));
      }
    }
  }

  /** An occurrence in a prefix is an occurrence in the whole string. */
  lemma AtPrefix(s: string, pat: string, i: nat, k: int)
    requires i <= |s| && At(s[..i], pat, k)
    ensures At(s, pat, k)
  {
    assert s[k..k + |pat|] == s[..i][k..k + |pat|];
  }

  /** An occurrence with none before it is the one `indexOf` finds. */
  lemma FirstAt(s: string, pat: string, i: nat)
    requires At(s, pat, i) && forall k | 0 <= k < i :: !At(s, pat, k)
    ensures IndexOf(s, pat) == i
  {
    var r := IndexOf(s, pat);
    assert r != -1;
    if r < i {
      assert At(s, pat, r);
    }
  }

  /** `c` contains no character `c`. */
  predicate Free(s: string, c: char) {
    forall i | 0 <= i < |s| :: s[i] != c
  }

  lemma FreeAppend(a: string, b: string, c: char)
    requires Free(a, c) && Free(b, c)
    ensures Free(a + b, c)
  {
    forall i | 0 <= i < |a + b|
      ensures (a + b)[i] != c
    {
      if i >= |a| {
        assert (a + b)[i] == b[i - |a|];
      }
    }
  }

  /** A one-character pattern occurs exactly where that character stands. */
  lemma AtChar(s: string, c: char, k: int)
    ensures At(s, [c], k) <==> 0 <= k < |s| && s[k] == c
  {
    if 0 <= k < |s| {
      assert s[k..k + 1] == [s[k]];
    }
  }

  /** The first `c` in `a + [c] + b`, for an `a` free of `c`. */
  lemma IndexOfChar(a: string, c: char, b: string)
    requires Free(a, c)
    ensures IndexOf(a + [c] + b, [c]) == |a|
  {
    var s := a + [c] + b;
    AtChar(s, c, |a|);
    forall k | 0 <= k < |a|
      ensures !At(s, [c], k)
    {
      AtChar(s, c, k);
      assert s[k] == a[k];
    }
    FirstAt(s, [c], |a|);
  }

  lemma NoIndexOfChar(s: string, c: char)
    requires Free(s, c)
    ensures IndexOf(s, [c]) == -1
  {
    forall k
      ensures !At(s, [c], k)
    {
      AtChar(s, c, k);
    }
  }

  /** Cutting at the first `c` of `a + [c] + b`. */
  lemma PiecesChar(a: string, c: char, b: string)
    requires Free(a, c)
    ensures Pieces(a + [c] + b, [c]) == [a] + Pieces(b, [c])
  {
    var s := a + [c] + b;
    IndexOfChar(a, c, b);
    assert s[..|a|] == a && s[|a| + 1..] == b;
  }

  /** A piece that is not empty survives `split`'s removal of the trailing
      empty pieces. */
  lemma DropKeeps(ps: seq<string>, k: nat)
    requires k < |ps| && ps[k] != []
    ensures |DropTrailingEmpty(ps)| > k && DropTrailingEmpty(ps)[k] == ps[k]
  {
  }

  /** `split` of `x + [c] + y` at `c`, where neither part contains `c` and
      `y` is not empty, gives the two parts. */
  lemma SplitPair(x: string, c: char, y: string)
    requires Free(x, c) && Free(y, c) && y != []
    ensures Split(x + [c] + y, [c]) == [x, y]
  {
    IndexOfChar(x, c, y);
    PiecesChar(x, c, y);
    NoIndexOfChar(y, c);
    assert Pieces(x + [c] + y, [c]) == [x, y];
  }

  /** The second `c`-separated field of `a + [c] + m + [c] + b`, where
      neither `a` nor `m` contains `c` and `m` is not empty, is `m`. */
  lemma SplitSecond(a: string, c: char, m: string, b: string)
    requires Free(a, c) && Free(m, c) && m != []
    ensures var ps := Split(a + [c] + m + [c] + b, [c]);
      |ps| >= 2 && ps[1] == m
  {
    var s := a + [c] + m + [c] + b;
    assert s == a + [c] + (m + [c] + b);
    IndexOfChar(a, c, m + [c] + b);
    PiecesChar(a, c, m + [c] + b);
    PiecesChar(m, c, b);
    var ps := Pieces(s, [c]);
    assert ps[1] == m;
    DropKeeps(ps, 1);
  }

  /** `split("->")` of `a + "->" + b`, where `a` has no `-` and `b` no `>`,
      gives the two sides. */
  lemma SplitArrow(a: string, b: string)
    requires Free(a, '-') && Free(b, '>') && b != []
    ensures Split(a + "->" + b, "->") == [a, b]
  {
    var s := a + "->" + b;
    assert s[|a|..|a| + 2] == "->";
    forall k | 0 <= k < |a|
      ensures !At(s, "->", k)
    {
      assert s[k] == a[k];
      if k + 2 <= |s| {
        assert s[k..k + 2][0] == s[k];
      }
    }
    FirstAt(s, "->", |a|);
    forall k
      ensures !At(b, "->", k)
    {
      if 0 <= k && k + 2 <= |b| {
        assert b[k..k + 2][1] == b[k + 1];
      }
    }
    assert s[..|a|] == a && s[|a| + 2..] == b;
    assert Pieces(s, "->") == [a, b];
  }

  /** A string free of the first character of `pat` does not contain it. */
  lemma FreeLacks(s: string, pat: string)
    requires pat != [] && Free(s, pat[0])
    ensures !Contains(s, pat)
  {
    forall k
      ensures !At(s, pat, k)
    {
      if 0 <= k && k + |pat| <= |s| {
        assert s[k..k + |pat|][0] == s[k];
      }
    }
  }

  /** `pat` occurs in `a + pat + b`. */
  lemma ContainsMiddle(a: string, pat: string, b: string)
    ensures Contains(a + pat + b, pat)
  {
    var s := a + pat + b;
    assert s[|a|..|a| + |pat|] == pat;
    assert At(s, pat, |a|);
  }

  lemma {:induction false} TrimStartPadded(a: string, s: string)
    requires forall j | 0 <= j < |a| :: Blank(a[j])
    ensures TrimStart(a + s) == TrimStart(s)
    decreases |a|
  {
    if a != [] {
      assert (a + s)[0] == a[0];
      assert (a + s)[1..] == a[1..] + s;
      assert TrimStart(a + s) == TrimStart(a[1..] + s);
      TrimStartPadded(a[1..], s);
    } else {
      assert a + s == s;
    }
  }

  lemma {:induction false} TrimEndPadded(s: string, b: string)
    requires forall j | 0 <= j < |b| :: Blank(b[j])
    ensures TrimEnd(s + b) == TrimEnd(s)
    decreases |b|
  {
    if b != [] {
      var b' := b[..|b| - 1];
      assert (s + b)[|s + b| - 1] == b[|b| - 1];
      assert (s + b)[..|s + b| - 1] == s + b';
      assert TrimEnd(s + b) == TrimEnd(s + b');
      TrimEndPadded(s, b');
    } else {
      assert s + b == s;
    }
  }

  /** Trimming a string that starts with a non-blank character keeps its
      start; trimming `s + b` for a blank `b` does not see `b`. */
  lemma {:induction false} TrimStartAppend(s: string, b: string)
    requires forall j | 0 <= j < |b| :: Blank(b[j])
    ensures TrimStart(s + b) == TrimStart(s) + b || (TrimStart(s + b) == [] && TrimStart(s) == [])
    decreases |s|
  {
    if s == [] {
      TrimStartPadded(b, []);
      assert b + [] == b;
    } else if Blank(s[0]) {
      assert (s + b)[1..] == s[1..] + b;
      TrimStartAppend(s[1..], b);
    }
  }

  /** `trim` ignores blank padding on either side, so `" a "` and `"a"`
      name the same node. */
  lemma TrimPadded(a: string, s: string, b: string)
    requires forall j | 0 <= j < |a| :: Blank(a[j])
    requires forall j | 0 <= j < |b| :: Blank(b[j])
    ensures Trim(a + s + b) == Trim(s)
  {
    assert a + s + b == a + (s + b);
    TrimStartPadded(a, s + b);
    TrimStartAppend(s, b);
    if TrimStart(s + b) != [] {
      TrimEndPadded(TrimStart(s), b);
    }
  }

  lemma TrimmedStart(t: string)
    requires t == [] || !Blank(t[0])
    ensures TrimStart(t) == t
  {
  }

  lemma TrimmedEnd(t: string)
    requires t == [] || !Blank(t[|t| - 1])
    ensures TrimEnd(t) == t
  {
  }

  /** Trimming twice is trimming once. */
  lemma TrimIdempotent(s: string)
    ensures Trim(Trim(s)) == Trim(s)
  {
    TrimFixed(Trim(s));
  }

  /** A text with non-blank ends is its own trimmed text. */
  lemma TrimFixed(t: string)
    requires t == [] || (!Blank(t[0]) && !Blank(t[|t| - 1]))
    ensures Trim(t) == t
  {
    TrimmedStart(t);
    TrimmedEnd(t);
  }
}
