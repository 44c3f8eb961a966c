/** The point-join grammars of the emitter: coordinates, open polylines,
    closed polygons and paired segments, each as a specification function,
    the loop that builds it, and a parser that reads a path back. */
module Paths {
  import opened Wrappers
  import opened Text

  /** One row of a numpy array of shape (n, 2). */
  datatype Point = Point(x: real, y: real)

  /** Number formatting is outside the model: `{:.2f}`, `{:.5f}` and `str()`
      are supplied as functions. */
  datatype Formats = Formats(fixed2: real -> string, fixed5: real -> string, plain: real -> string)

  /** `({:.2f}, {:.2f})`, with the formatter as a parameter. */
  function Coord(fmt: real -> string, p: Point): string
  {
    "(" + fmt(p.x) + ", " + fmt(p.y) + ")"
  }

  function Coords(fmt: real -> string, ps: seq<Point>): (r: seq<string>)
    ensures |r| == |ps|
    ensures forall k :: 0 <= k < |ps| ==> r[k] == Coord(fmt, ps[k])
  {
    seq(|ps|, k requires 0 <= k < |ps| => Coord(fmt, ps[k]))
  }

  const Sep := " -- "
  const Terminator := ";\n"

  /** An open polyline: the points in order, a separator between consecutive
      ones, then the terminator. */
  function OpenPath(fmt: real -> string, ps: seq<Point>): string
  {
    Joined(Coords(fmt, ps), Sep) + Terminator
  }

  /** Python's `poly[k]` for `-n <= k < n`: a negative index counts from the end. */
  function At(poly: seq<Point>, k: int): (p: Point)
    requires -|poly| <= k < |poly|
    ensures k < 0 ==> p == poly[|poly| + k]
    ensures 0 <= k ==> p == poly[k]
  {
    if k < 0 then poly[|poly| + k] else poly[k]
  }

  /** The vertices a closed polygon visits, `poly[k]` for k in range(-1, n). */
  function ClosedVertices(poly: seq<Point>): (vs: seq<Point>)
    requires |poly| >= 1
    ensures |vs| == |poly| + 1
    ensures vs[0] == vs[|poly|] == poly[|poly| - 1]
    ensures vs[1..] == poly
  {
    [poly[|poly| - 1]] + poly
  }

  /** A closed polygon is the open path through its closed vertex sequence. */
  function ClosedPath(fmt: real -> string, poly: seq<Point>): string
    requires |poly| >= 1
  {
    OpenPath(fmt, ClosedVertices(poly))
  }

  // ---------------------------------------------------------------------
  // Loops that build path text, as `add_shape`, `add_fill`, `set_clip`,
  // `add_path` and `add_paths` do
  // ---------------------------------------------------------------------

  lemma CoordsPrefix(fmt: real -> string, ps: seq<Point>, i: nat)
    requires i < |ps|
    ensures Coords(fmt, ps[..i + 1]) == Coords(fmt, ps[..i]) + [Coord(fmt, ps[i])]
  {
  }

  /** One step of a join loop: with a separator already written after the
      items so far (none before the first), appending the next item extends
      the join. */
  lemma JoinStep(txt0: string, items: seq<string>, x: string, sep: string, tail: string, txt: string)
    requires txt == txt0 + Joined(items, sep) + (if |items| > 0 then sep else "")
    ensures txt + x + tail == txt0 + Joined(items + [x], sep) + tail
  {
    if |items| > 0 {
      JoinedSnoc(items, x, sep);
    } else {
      assert items + [x] == [x];
    }
  }

  /** The loop over `range(-1, n)`: each step appends one vertex, then
      " -- " if more follow and ";\n" after the last. */
  method AppendClosedPath(txt0: string, fmt: real -> string, poly: seq<Point>) returns (txt: string)
    requires |poly| >= 1
    ensures txt == txt0 + ClosedPath(fmt, poly)
  {
    ghost var vs := ClosedVertices(poly);
    var n := |poly|;
    txt := txt0;
    var k := -1;
    while k < n
      invariant -1 <= k <= n
      invariant txt == txt0 + Joined(Coords(fmt, vs[..k + 1]), Sep) + (if 0 <= k < n then Sep else if k == n then Terminator else "")
    {
      var x := At(poly, k);
      ghost var tail := if k < n - 1 then Sep else Terminator;
      CoordsPrefix(fmt, vs, k + 1);
      JoinStep(txt0, Coords(fmt, vs[..k + 1]), Coord(fmt, x), Sep, tail, txt);
      txt := txt + Coord(fmt, x);
      txt := txt + (if k < n - 1 then Sep else Terminator);
      k := k + 1;
    }
    assert vs[..n + 1] == vs;
  }

  /** The loop over `range(n)`: " -- " after every point but the last, and
      ";\n" once after the loop. */
  method AppendOpenPath(txt0: string, fmt: real -> string, pts: seq<Point>) returns (txt: string)
    ensures txt == txt0 + OpenPath(fmt, pts)
  {
    var n := |pts|;
    txt := txt0;
    var k := 0;
    while k < n
      invariant 0 <= k <= n
      invariant txt == txt0 + Joined(Coords(fmt, pts[..k]), Sep) + (if 0 < k < n then Sep else "")
    {
      ghost var tail := if k < n - 1 then Sep else "";
      CoordsPrefix(fmt, pts, k);
      JoinStep(txt0, Coords(fmt, pts[..k]), Coord(fmt, pts[k]), Sep, tail, txt);
      txt := txt + Coord(fmt, pts[k]);
      txt := txt + (if k < n - 1 then Sep else "");
      k := k + 1;
    }
    assert pts[..n] == pts;
    txt := txt + Terminator;
  }

  // ---------------------------------------------------------------------
  // Reading a path back
  // ---------------------------------------------------------------------

  /** The two number texts of one coordinate. */
  datatype CoordText = CoordText(x: string, y: string)

  function CoordTexts(fmt: real -> string, ps: seq<Point>): (r: seq<CoordText>)
    ensures |r| == |ps|
    ensures forall k :: 0 <= k < |ps| ==> r[k] == CoordText(fmt(ps[k].x), fmt(ps[k].y))
  {
    seq(|ps|, k requires 0 <= k < |ps| => CoordText(fmt(ps[k].x), fmt(ps[k].y)))
  }

  /** Number text that cannot be confused with the coordinate punctuation. */
  predicate Plain(s: string)
  {
    ',' !in s && ')' !in s
  }

  predicate PlainPoints(fmt: real -> string, ps: seq<Point>)
  {
    forall k :: 0 <= k < |ps| ==> Plain(fmt(ps[k].x)) && Plain(fmt(ps[k].y))
  }

  /** Reads `(a, b)` off the front of `s`, returning the rest. */
  function ParseCoord(s: string): (r: Option<(CoordText, string)>)
    ensures r.Some? ==> |r.value.1| < |s|
  {
    if |s| == 0 || s[0] != '(' then None
    else
      var t := s[1..];
      var i := IndexOf(t, ',');
      if i + 1 >= |t| || t[i + 1] != ' ' then None
      else
        var u := t[i + 2..];
        var j := IndexOf(u, ')');
        if j == |u| then None
        else Some((CoordText(t[..i], u[..j]), u[j + 1..]))
  }

  /** Coordinate (" -- " coordinate)* ";\n". */
  function ParseCoordList(s: string): Option<seq<CoordText>>
    decreases |s|
  {
    match ParseCoord(s)
    case None => None
    case Some((c, rest)) =>
      if rest == Terminator then Some([c])
      else if |rest| >= 4 && rest[..4] == Sep then
        match ParseCoordList(rest[4..])
        case None => None
        case Some(cs) => Some([c] + cs)
      else None
  }

  /** A path line's point list: just ";\n" for no points. */
  function ParsePath(s: string): Option<seq<CoordText>>
  {
    if s == Terminator then Some([]) else ParseCoordList(s)
  }

  /** A coordinate's text reads back as its two numbers, leaving what follows. */
  lemma CoordRoundTrip(fmt: real -> string, p: Point, s: string, rest: string)
    requires Plain(fmt(p.x)) && Plain(fmt(p.y))
    requires s == Coord(fmt, p) + rest
    ensures ParseCoord(s) == Some((CoordText(fmt(p.x), fmt(p.y)), rest))
  {
    TextRoundTrip(fmt(p.x), fmt(p.y), s, rest);
  }

  lemma TextRoundTrip(a: string, b: string, s: string, rest: string)
    requires Plain(a) && Plain(b)
    requires s == "(" + a + ", " + b + ")" + rest
    ensures ParseCoord(s) == Some((CoordText(a, b), rest))
  {
    var u := b + [')'] + rest;
    CoordTextShape(a, b, s, rest);
    FirstHalf(a, u, s[1..]);
    SecondHalf(b, rest, u);
  }

  lemma CoordTextShape(a: string, b: string, s: string, rest: string)
    requires s == "(" + a + ", " + b + ")" + rest
    ensures |s| > 0 && s[0] == '('
    ensures s[1..] == a + [','] + ([' '] + (b + [')'] + rest))
  {
  }

  lemma FirstHalf(a: string, u: string, t: string)
    requires Plain(a) && t == a + [','] + ([' '] + u)
    ensures IndexOf(t, ',') == |a| && |t| > |a| + 1 && t[|a| + 1] == ' '
    ensures t[..|a|] == a && t[|a| + 2..] == u
  {
    IndexOfAfterPrefix(a, ',', [' '] + u);
  }

  lemma SecondHalf(b: string, rest: string, u: string)
    requires Plain(b) && u == b + [')'] + rest
    ensures IndexOf(u, ')') == |b| && u[..|b|] == b && u[|b| + 1..] == rest
  {
    IndexOfAfterPrefix(b, ')', rest);
  }

  lemma OpenPathCons(fmt: real -> string, ps: seq<Point>, s: string, tail: string)
    requires |ps| >= 2
    requires s == OpenPath(fmt, ps) && tail == OpenPath(fmt, ps[1..])
    ensures s == Coord(fmt, ps[0]) + (Sep + tail)
  {
    var cs := Coords(fmt, ps);
    assert cs[1..] == Coords(fmt, ps[1..]);
    assert Joined(cs, Sep) == cs[0] + Sep + Joined(cs[1..], Sep);
  }

  lemma OpenPathSingle(fmt: real -> string, ps: seq<Point>, s: string)
    requires |ps| == 1 && s == OpenPath(fmt, ps)
    ensures s == Coord(fmt, ps[0]) + Terminator
  {
  }

  lemma ParseCoordListCons(s: string, c: CoordText, tail: string, cs: seq<CoordText>)
    requires ParseCoord(s) == Some((c, Sep + tail))
    requires ParseCoordList(tail) == Some(cs)
    ensures ParseCoordList(s) == Some([c] + cs)
  {
    var rest := Sep + tail;
    assert rest[..4] == Sep;
    assert rest[4..] == tail;
    assert rest != Terminator by {
      assert rest[0] != Terminator[0];
    }
  }

  lemma ParseCoordListLast(s: string, c: CoordText)
    requires ParseCoord(s) == Some((c, Terminator))
    ensures ParseCoordList(s) == Some([c])
  {
  }

  lemma CoordTextsCons(fmt: real -> string, ps: seq<Point>)
    requires |ps| >= 1
    ensures CoordTexts(fmt, ps) == [CoordText(fmt(ps[0].x), fmt(ps[0].y))] + CoordTexts(fmt, ps[1..])
  {
  }

  lemma PlainPointsTail(fmt: real -> string, ps: seq<Point>)
    requires |ps| >= 1 && PlainPoints(fmt, ps)
    ensures PlainPoints(fmt, ps[1..])
  {
    forall k | 0 <= k < |ps| - 1 ensures Plain(fmt(ps[1..][k].x)) && Plain(fmt(ps[1..][k].y)) {
      assert ps[1..][k] == ps[k + 1];
    }
  }

  lemma {:induction false} CoordListRoundTrip(fmt: real -> string, ps: seq<Point>)
    requires |ps| >= 1 && PlainPoints(fmt, ps)
    ensures ParseCoordList(OpenPath(fmt, ps)) == Some(CoordTexts(fmt, ps))
  {
    var s := OpenPath(fmt, ps);
    var c := CoordText(fmt(ps[0].x), fmt(ps[0].y));
    CoordTextsCons(fmt, ps);
    if |ps| == 1 {
      OpenPathSingle(fmt, ps, s);
      CoordRoundTrip(fmt, ps[0], s, Terminator);
      ParseCoordListLast(s, c);
      assert ParseCoordList(s) == Some([c]);
      assert CoordTexts(fmt, ps) == [c];
    } else {
      var tail := OpenPath(fmt, ps[1..]);
      OpenPathCons(fmt, ps, s, tail);
      CoordRoundTrip(fmt, ps[0], s, Sep + tail);
      PlainPointsTail(fmt, ps);
      CoordListRoundTrip(fmt, ps[1..]);
      ParseCoordListCons(s, c, tail, CoordTexts(fmt, ps[1..]));
    }
  }

  /** Reading an open path back gives its n points in order: n - 1
      separators between them, no closing vertex, one terminator. */
  lemma OpenPathRoundTrip(fmt: real -> string, ps: seq<Point>)
    requires PlainPoints(fmt, ps)
    ensures ParsePath(OpenPath(fmt, ps)) == Some(CoordTexts(fmt, ps))
  {
    if |ps| == 0 {
      assert OpenPath(fmt, ps) == Terminator;
    } else {
      assert OpenPath(fmt, ps)[0] == '(';
      CoordListRoundTrip(fmt, ps);
    }
  }

  /** Reading a closed polygon back gives n + 1 points: the last vertex, then
      every vertex in order, so the path ends where it began. */
  lemma ClosedPathRoundTrip(fmt: real -> string, poly: seq<Point>)
    requires |poly| >= 1 && PlainPoints(fmt, poly)
    ensures ParsePath(ClosedPath(fmt, poly)).Some?
    ensures var cs := ParsePath(ClosedPath(fmt, poly)).value;
      && |cs| == |poly| + 1
      && cs[0] == cs[|poly|] == CoordText(fmt(poly[|poly| - 1].x), fmt(poly[|poly| - 1].y))
      && cs[1..] == CoordTexts(fmt, poly)
  {
    var vs := ClosedVertices(poly);
    ClosedVerticesPlain(fmt, poly);
    OpenPathRoundTrip(fmt, vs);
    CoordTextsCons(fmt, vs);
  }

  lemma ClosedVerticesPlain(fmt: real -> string, poly: seq<Point>)
    requires |poly| >= 1 && PlainPoints(fmt, poly)
    ensures PlainPoints(fmt, ClosedVertices(poly))
  {
    var vs := ClosedVertices(poly);
    forall k | 0 <= k < |vs| ensures Plain(fmt(vs[k].x)) && Plain(fmt(vs[k].y)) {
      if k > 0 { assert vs[k] == poly[k - 1]; }
    }
  }

  // ---------------------------------------------------------------------
  // Paired segments: `add_lines` and `add_arrow`
  // ---------------------------------------------------------------------

  /** A straight `add_lines` segment or a curved `add_arrow` segment. */
  datatype SegmentKind = Line | Arrow

  /** The fixed arrow-head option of `add_arrow`:
      `arrows = {-Stealth[reversed, reversed]},`. */
  const ArrowOption := "arrows = " + "{-Stealth[reversed, " + "reversed]}" + ","

  /** What precedes the caller's style: `add_arrow` always puts its fixed
      arrow-head option first. */
  function Opening(kind: SegmentKind): string
  {
    match kind
    case Line => "\\draw["
    case Arrow => "\\draw[" + ArrowOption
  }

  function Connector(kind: SegmentKind): string
  {
    match kind
    case Line => Sep
    case Arrow => " to [bend left=45] "
  }

  /** One command connecting `a` to `b`. */
  function SegmentCmd(kind: SegmentKind, indent: string, styleText: string, fmt: real -> string, a: Point, b: Point): string
  {
    indent + Opening(kind) + styleText + "] " + Coord(fmt, a) + Connector(kind) + Coord(fmt, b) + Terminator
  }

  /** An arrow command opens with the arrow-head option, and the caller's
      style follows it directly: the caller's options come after it and can
      add to it but not displace it. A line command has only the caller's
      style there. */
  lemma OptionsFirst(kind: SegmentKind, indent: string, styleText: string, fmt: real -> string, a: Point, b: Point)
    ensures var head := indent + "\\draw[" + (if kind == Arrow then ArrowOption else "");
      head + styleText + "] " <= SegmentCmd(kind, indent, styleText, fmt, a, b)
  {
    var cmd := SegmentCmd(kind, indent, styleText, fmt, a, b);
    var rest := Coord(fmt, a) + Connector(kind) + Coord(fmt, b) + Terminator;
    SegmentCmdSplit(indent, Opening(kind), styleText, Coord(fmt, a), Connector(kind), Coord(fmt, b), cmd);
    CommandPrefix(indent + Opening(kind), styleText, rest, cmd);
    OpeningText(kind, indent);
  }

  lemma SegmentCmdSplit(indent: string, opening: string, styleText: string, ca: string, conn: string, cb: string, cmd: string)
    requires cmd == indent + opening + styleText + "] " + ca + conn + cb + Terminator
    ensures cmd == indent + opening + styleText + "] " + (ca + conn + cb + Terminator)
  {
  }

  lemma OpeningText(kind: SegmentKind, indent: string)
    ensures indent + Opening(kind) == indent + "\\draw[" + (if kind == Arrow then ArrowOption else "")
  {
  }

  lemma CommandPrefix(head: string, styleText: string, rest: string, cmd: string)
    requires cmd == head + styleText + "] " + rest
    ensures head + styleText + "] " <= cmd
  {
  }

  /** The commands for `A[k]` to `B[k]`, one per index, in index order. */
  function SegmentCmds(kind: SegmentKind, indent: string, styleText: string, fmt: real -> string, a: seq<Point>, b: seq<Point>): (r: seq<string>)
    requires |a| == |b|
    ensures |r| == |a|
    ensures forall k :: 0 <= k < |a| ==> r[k] == SegmentCmd(kind, indent, styleText, fmt, a[k], b[k])
  {
    seq(|a|, k requires 0 <= k < |a| => SegmentCmd(kind, indent, styleText, fmt, a[k], b[k]))
  }

  /** The loop of `add_lines` and `add_arrow`: one command per index,
      accumulated into one string. */
  method AppendSegments(kind: SegmentKind, indent: string, styleText: string, fmt: real -> string, a: seq<Point>, b: seq<Point>)
    returns (txt: string)
    requires |a| == |b|
    ensures txt == Concat(SegmentCmds(kind, indent, styleText, fmt, a, b))
  {
    txt := "";
    var k := 0;
    while k < |a|
      invariant 0 <= k <= |a|
      invariant txt == Concat(SegmentCmds(kind, indent, styleText, fmt, a[..k], b[..k]))
    {
      SegmentCmdsPrefix(kind, indent, styleText, fmt, a, b, k);
      ConcatSnoc(SegmentCmds(kind, indent, styleText, fmt, a[..k], b[..k]), SegmentCmd(kind, indent, styleText, fmt, a[k], b[k]));
      txt := txt + SegmentCmd(kind, indent, styleText, fmt, a[k], b[k]);
      k := k + 1;
    }
    assert a[..k] == a && b[..k] == b;
  }

  lemma SegmentCmdsPrefix(kind: SegmentKind, indent: string, styleText: string, fmt: real -> string, a: seq<Point>, b: seq<Point>, k: nat)
    requires |a| == |b| && k < |a|
    ensures SegmentCmds(kind, indent, styleText, fmt, a[..k + 1], b[..k + 1])
         == SegmentCmds(kind, indent, styleText, fmt, a[..k], b[..k]) + [SegmentCmd(kind, indent, styleText, fmt, a[k], b[k])]
  {
  }

  /** Text without a line break. */
  predicate OneLine(s: string)
  {
    '\n' !in s
  }

  lemma ArrowOptionOneLine()
    ensures OneLine(ArrowOption)
  {
  }

  lemma FixedTextsOneLine(kind: SegmentKind)
    ensures OneLine(Opening(kind)) && OneLine(Connector(kind)) && OneLine("] ")
  {
    ArrowOptionOneLine();
  }

  lemma TerminatedLine(body: string)
    requires OneLine(body)
    ensures TerminatedBy(body + Terminator, '\n')
  {
    var s := body + Terminator;
    assert s[..|s| - 1] == body + ";";
  }

  lemma SegmentCmdIsLine(kind: SegmentKind, indent: string, styleText: string, fmt: real -> string, a: Point, b: Point)
    requires OneLine(indent) && OneLine(styleText) && OneLine(Coord(fmt, a)) && OneLine(Coord(fmt, b))
    ensures TerminatedBy(SegmentCmd(kind, indent, styleText, fmt, a, b), '\n')
  {
    FixedTextsOneLine(kind);
    var body := indent + Opening(kind) + styleText + "] " + Coord(fmt, a) + Connector(kind) + Coord(fmt, b);
    assert OneLine(body);
    TerminatedLine(body);
  }

  /** The text written by `add_lines` or `add_arrow` splits into exactly one
      line per index, line k being the command from `A[k]` to `B[k]`. */
  lemma SegmentLines(kind: SegmentKind, indent: string, styleText: string, fmt: real -> string, a: seq<Point>, b: seq<Point>)
    requires |a| == |b|
    requires OneLine(indent) && OneLine(styleText)
    requires forall k :: 0 <= k < |a| ==> OneLine(Coord(fmt, a[k])) && OneLine(Coord(fmt, b[k]))
    ensures SplitTerminated(Concat(SegmentCmds(kind, indent, styleText, fmt, a, b)), '\n')
         == SegmentCmds(kind, indent, styleText, fmt, a, b)
  {
    var cmds := SegmentCmds(kind, indent, styleText, fmt, a, b);
    forall k | 0 <= k < |a| ensures TerminatedBy(cmds[k], '\n') {
      SegmentCmdIsLine(kind, indent, styleText, fmt, a[k], b[k]);
    }
    SplitConcat(cmds, '\n');
  }
}
