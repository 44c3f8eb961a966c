/** The emitter, class `tikz`: an indentation string, a standalone flag and
    an output stream to which every drawing call appends its text. */
module Tikz {
  import opened Wrappers
  import opened Text
  import opened Style
  import opened Paths
  import opened Indentation

  /** How a call ended: normally, or with the exception Python raises before
      anything is written. */
  datatype Outcome = Completed | AssertionError | IndexError | TypeError

  /** The fixed document preamble written in standalone mode. */
  const Preamble: seq<string> := [
    "\\documentclass[crop, tikz]{standalone}\n",
    "\n",
    "\\usepackage{pgfplots}\n",
    "\\pgfplotsset{compat=1.16}\n",
    "\n",
    "\\usepackage{libertine}\n",
    "\\usepackage{libertinust1math}\n",
    "\\usepackage[T1]{fontenc}\n",
    "\n",
    "\\begin{document}\n",
    "\n"
  ]

  /** The clip rectangle and background grid over the box
      (xmin, xmax, ymin, ymax): corners (xmin, ymin) and (xmax, ymax). */
  function BoxLines(s: string, box: seq<real>, str: real -> string): seq<string>
    requires |box| == 4
  {
    var lo := "(" + str(box[0]) + ", " + str(box[2]) + ")";
    var hi := "(" + str(box[1]) + ", " + str(box[3]) + ")";
    [s + "\\clip " + lo + " rectangle " + hi + ";\n",
     s + "\\draw[help lines] " + lo + " grid " + hi + ";\n"]
  }

  /** Everything `gen_header` writes, from the indentation it starts at. */
  function HeaderLines(s: string, standalone: bool, styleText: string, figsize: seq<real>, str: real -> string): seq<string>
  {
    var body := if standalone then Indent(s) else s;
    (if standalone then Preamble else [])
    + [body + "\\setlength{\\fboxsep}{0pt}%\n",
       body + "\\begin{tikzpicture}[" + styleText + "]()\n",
       body + "\t\\begin{scope}\n"]
    + (if |figsize| == 4 then BoxLines(Indent(body), figsize, str) else [])
  }

  lemma HeaderSteps(s: string, standalone: bool, styleText: string, figsize: seq<real>, str: real -> string,
                    out0: seq<string>, pre: seq<string>, out: seq<string>)
    requires pre == out0 + (if standalone then Preamble else [])
    requires var body := if standalone then Indent(s) else s;
      out == pre + [body + "\\setlength{\\fboxsep}{0pt}%\n",
                    body + "\\begin{tikzpicture}[" + styleText + "]()\n",
                    body + "\t\\begin{scope}\n"]
                 + (if |figsize| == 4 then BoxLines(Indent(body), figsize, str) else [])
    ensures out == out0 + HeaderLines(s, standalone, styleText, figsize, str)
  {
  }

  /** Everything `gen_footer` writes, at the indentation it has reduced. */
  function FooterLines(s: string, standalone: bool): seq<string>
  {
    [s + "\\end{scope}\n", s + "\\end{tikzpicture}%\n"]
    + (if standalone then ["\\end{document}\n"] else [])
  }

  /** The header opens the picture and its scope, adds the preamble only in
      standalone mode, and adds the clip and grid lines exactly when the
      box has four numbers. */
  lemma HeaderShape(s: string, standalone: bool, styleText: string, figsize: seq<real>, str: real -> string)
    ensures var lines := HeaderLines(s, standalone, styleText, figsize, str);
      var pre := if standalone then |Preamble| else 0;
      var body := if standalone then Indent(s) else s;
      && |lines| == pre + 3 + (if |figsize| == 4 then 2 else 0)
      && (standalone ==> lines[..|Preamble|] == Preamble)
      && lines[pre] == body + "\\setlength{\\fboxsep}{0pt}%\n"
      && lines[pre + 1] == body + "\\begin{tikzpicture}[" + styleText + "]()\n"
      && lines[pre + 2] == body + "\t\\begin{scope}\n"
      && (|figsize| == 4 ==> lines[pre + 3..] == BoxLines(HeaderIndent(s, standalone), figsize, str))
  {
    var lines := HeaderLines(s, standalone, styleText, figsize, str);
    var body := if standalone then Indent(s) else s;
    var head := if standalone then Preamble else [];
    var mid := [body + "\\setlength{\\fboxsep}{0pt}%\n",
                body + "\\begin{tikzpicture}[" + styleText + "]()\n",
                body + "\t\\begin{scope}\n"];
    var box := if |figsize| == 4 then BoxLines(Indent(body), figsize, str) else [];
    assert lines == head + mid + box;
    assert lines[|head|] == mid[0];
    assert lines[|head| + 1] == mid[1];
    assert lines[|head| + 2] == mid[2];
    assert lines[|head| + 3..] == box;
    assert lines[..|head|] == head;
  }

  /** One `\fill` circle per point, with the same style and radius. */
  function PointLine(s: string, styleText: string, str: real -> string, p: Point, radius: real): string
  {
    s + "\\fill[" + styleText + "] (" + str(p.x) + ", " + str(p.y) + ") circle (" + str(radius) + "pt);\n"
  }

  function PointLines(s: string, styleText: string, str: real -> string, pts: seq<Point>, radius: real): (r: seq<string>)
    ensures |r| == |pts|
    ensures forall k :: 0 <= k < |pts| ==> r[k] == PointLine(s, styleText, str, pts[k], radius)
  {
    seq(|pts|, k requires 0 <= k < |pts| => PointLine(s, styleText, str, pts[k], radius))
  }

  /** One `\draw` command per path of a batch. */
  function PathCmd(s: string, styleText: string, fmt: real -> string, pts: seq<Point>): string
  {
    s + "\\draw[" + styleText + "] " + OpenPath(fmt, pts)
  }

  function PathCmds(s: string, styleText: string, fmt: real -> string, paths: seq<seq<Point>>): (r: seq<string>)
    ensures |r| == |paths|
    ensures forall i :: 0 <= i < |paths| ==> r[i] == PathCmd(s, styleText, fmt, paths[i])
  {
    seq(|paths|, i requires 0 <= i < |paths| => PathCmd(s, styleText, fmt, paths[i]))
  }

  lemma PathCmdsPrefix(s: string, styleText: string, fmt: real -> string, paths: seq<seq<Point>>, i: nat)
    requires i < |paths|
    ensures PathCmds(s, styleText, fmt, paths[..i + 1]) == PathCmds(s, styleText, fmt, paths[..i]) + [PathCmd(s, styleText, fmt, paths[i])]
  {
  }

  /** Writing the `\draw[...] ` head and then the path is writing the command. */
  lemma PathCmdStep(txt0: string, head: string, s: string, styleText: string, fmt: real -> string, pts: seq<Point>, txt: string)
    requires head == s + "\\draw[" + styleText + "] "
    requires txt == txt0 + head + OpenPath(fmt, pts)
    ensures txt == txt0 + PathCmd(s, styleText, fmt, pts)
  {
  }

  lemma PathCmdShape(s: string, styleText: string, joined: string, cmd: string)
    requires cmd == s + "\\draw[" + styleText + "] " + (joined + Terminator)
    ensures cmd == (s + "\\draw[" + styleText + "] " + joined) + Terminator
  {
  }

  /** Each path command ends in a newline and holds no other, when the
      indentation, the style and every coordinate hold none. */
  lemma PathCmdIsLine(s: string, styleText: string, fmt: real -> string, pts: seq<Point>)
    requires OneLine(s) && OneLine(styleText)
    requires forall k :: 0 <= k < |pts| ==> OneLine(Coord(fmt, pts[k]))
    ensures TerminatedBy(PathCmd(s, styleText, fmt, pts), '\n')
  {
    var cs := Coords(fmt, pts);
    JoinedAvoids(cs, Sep, '\n');
    var joined := Joined(cs, Sep);
    PathCmdShape(s, styleText, joined, PathCmd(s, styleText, fmt, pts));
    var body := s + "\\draw[" + styleText + "] " + joined;
    assert OneLine("\\draw[") && OneLine("] ");
    assert OneLine(body);
    TerminatedLine(body);
  }

  /** The text written by `add_paths` splits into exactly one line per path
      of the batch, line i being the command for path i. */
  lemma PathLines(s: string, styleText: string, fmt: real -> string, paths: seq<seq<Point>>)
    requires OneLine(s) && OneLine(styleText)
    requires forall i, k :: 0 <= i < |paths| && 0 <= k < |paths[i]| ==> OneLine(Coord(fmt, paths[i][k]))
    ensures SplitTerminated(Concat(PathCmds(s, styleText, fmt, paths)), '\n') == PathCmds(s, styleText, fmt, paths)
  {
    var cmds := PathCmds(s, styleText, fmt, paths);
    forall i | 0 <= i < |paths| ensures TerminatedBy(cmds[i], '\n') {
      PathCmdIsLine(s, styleText, fmt, paths[i]);
    }
    SplitConcat(cmds, '\n');
  }

  /** `if legend:` for a string or None. */
  predicate Truthy(legend: Option<string>)
  {
    legend.Some? && legend.value != ""
  }

  /** The caller's style after `plot`: unchanged when a legend is given,
      otherwise `style['forget plot'] = None`. */
  function PlotStyle(style: StyleArg, legend: Option<string>): StyleArg
    requires Truthy(legend) || style.Dict?
  {
    if Truthy(legend) then style else Dict(SetKey(style.entries, ForgetPlotKey, None))
  }

  /** One sample of a plot, one tab deeper than the `\addplot` line. */
  function SampleLine(s: string, fmt: real -> string, x: real, y: real): string
  {
    s + "\t(" + fmt(x) + ", " + fmt(y) + ")\n"
  }

  function SampleLines(s: string, fmt: real -> string, xs: seq<real>, ys: seq<real>): (r: seq<string>)
    requires |xs| == |ys|
    ensures |r| == |xs|
    ensures forall k :: 0 <= k < |xs| ==> r[k] == SampleLine(s, fmt, xs[k], ys[k])
  {
    seq(|xs|, k requires 0 <= k < |xs| => SampleLine(s, fmt, xs[k], ys[k]))
  }

  lemma SampleLinesPrefix(s: string, fmt: real -> string, xs: seq<real>, ys: seq<real>, k: nat)
    requires |xs| == |ys| && k < |xs|
    ensures SampleLines(s, fmt, xs[..k + 1], ys[..k + 1]) == SampleLines(s, fmt, xs[..k], ys[..k]) + [SampleLine(s, fmt, xs[k], ys[k])]
  {
  }

  /** Everything `plot` writes, one element per `write` call. */
  function PlotLines(s: string, styleText: string, fmt: real -> string, xs: seq<real>, ys: seq<real>, legend: Option<string>): seq<string>
    requires |xs| == |ys|
  {
    [s + "\\addplot[" + styleText + "] coordinates {\n"]
    + SampleLines(s, fmt, xs, ys)
    + [s + "};\n"]
    + (if Truthy(legend) then [s + "\\addlegendentry{" + legend.value + "}\n"] else [])
    + ["\n"]
  }

  /** The writes of `plot`, one after the other, make up its lines. */
  lemma PlotLinesParts(before: seq<string>, s: string, styleText: string, fmt: real -> string,
                       xs: seq<real>, ys: seq<real>, legend: Option<string>, after: seq<string>)
    requires |xs| == |ys|
    requires after == before + [s + "\\addplot[" + styleText + "] coordinates {\n"] + SampleLines(s, fmt, xs, ys)
                      + [s + "};\n"]
                      + (if Truthy(legend) then [s + "\\addlegendentry{" + legend.value + "}\n"] else [])
                      + ["\n"]
    ensures after == before + PlotLines(s, styleText, fmt, xs, ys, legend)
  {
  }

  /** A plot is its `\addplot` line, exactly one line per sample in index
      order, the closing `};`, a legend entry exactly when the legend is
      truthy, and a blank line. */
  lemma PlotShape(s: string, styleText: string, fmt: real -> string, xs: seq<real>, ys: seq<real>, legend: Option<string>)
    requires |xs| == |ys|
    ensures var lines := PlotLines(s, styleText, fmt, xs, ys, legend);
      var n := |xs|;
      && |lines| == n + 3 + (if Truthy(legend) then 1 else 0)
      && lines[0] == s + "\\addplot[" + styleText + "] coordinates {\n"
      && (forall k :: 0 <= k < n ==> lines[k + 1] == SampleLine(s, fmt, xs[k], ys[k]))
      && lines[n + 1] == s + "};\n"
      && (Truthy(legend) ==> lines[n + 2] == s + "\\addlegendentry{" + legend.value + "}\n")
      && lines[|lines| - 1] == "\n"
  {
    var lines := PlotLines(s, styleText, fmt, xs, ys, legend);
    var samples := SampleLines(s, fmt, xs, ys);
    var legendLines := if Truthy(legend) then [s + "\\addlegendentry{" + legend.value + "}\n"] else [];
    assert lines == [lines[0]] + samples + [s + "};\n"] + legendLines + ["\n"];
    assert lines[1..|xs| + 1] == samples;
  }

  /** Without a legend the caller's style gains a bare `forget plot` option
      and keeps every other option; with one it is left as it was. */
  lemma PlotStyleForgets(style: StyleArg, legend: Option<string>)
    requires Truthy(legend) || style.Dict?
    ensures Truthy(legend) ==> PlotStyle(style, legend) == style
    ensures !Truthy(legend) ==> Lookup(PlotStyle(style, legend).entries, ForgetPlotKey) == Some(None)
    ensures !Truthy(legend) ==> forall k :: k != ForgetPlotKey ==>
      Lookup(PlotStyle(style, legend).entries, k) == Lookup(style.entries, k)
    ensures !Truthy(legend) && Lookup(style.entries, ForgetPlotKey).None? ==>
      GenStyle(PlotStyle(style, legend)) == GenStyle(style) + "forget plot,"
    ensures style.Dict? && DistinctKeys(style.entries) ==> DistinctKeys(PlotStyle(style, legend).entries)
  {
    if !Truthy(legend) {
      SetKeyLookup(style.entries, ForgetPlotKey, None);
      if DistinctKeys(style.entries) {
        SetKeyDistinct(style.entries, ForgetPlotKey, None);
      }
      if Lookup(style.entries, ForgetPlotKey).None? {
        ForgetPlotRendered(style.entries);
      }
    }
  }

  class Tikz {
    /** The current indentation, made of tabs only. */
    var indent: string
    /** The output stream as the list of strings written to it, in order. */
    var out: seq<string>
    const standalone: bool
    /** The number formatting the emitter uses. */
    const formats: Formats

    ghost predicate Valid()
      reads this
    {
      AllTabs(indent)
    }

    constructor (standalone: bool, formats: Formats)
      ensures Valid() && indent == "" && out == []
      ensures this.standalone == standalone && this.formats == formats
    {
      indent := "";
      out := [];
      this.standalone := standalone;
      this.formats := formats;
    }

    /** Opens the document (standalone), the picture and its scope; returns
        the fixed prefix `'\t\t'` whatever the state. */
    method GenHeader(figsize: seq<real>, tikzStyle: StyleArg) returns (r: string)
      requires Valid()
      modifies this
      ensures Valid()
      ensures r == "\t\t"
      ensures indent == HeaderIndent(old(indent), standalone)
      ensures out == old(out) + HeaderLines(old(indent), standalone, GenStyle(tikzStyle), figsize, formats.plain)
    {
      ghost var s0, out0 := indent, out;
      if standalone {
        out := out + Preamble;
        indent := Indent(indent);
      }
      ghost var pre := out;
      out := out + [indent + "\\setlength{\\fboxsep}{0pt}%\n",
                    indent + "\\begin{tikzpicture}[" + GenStyle(tikzStyle) + "]()\n",
                    indent + "\t\\begin{scope}\n"];
      indent := Indent(indent);
      if |figsize| == 4 {
        out := out + BoxLines(indent, figsize, formats.plain);
      }
      HeaderSteps(s0, standalone, GenStyle(tikzStyle), figsize, formats.plain, out0, pre, out);
      r := "\t\t";
    }

    /** Removes one tab, then closes the scope, the picture and (standalone)
        the document. */
    method GenFooter()
      requires Valid()
      modifies this
      ensures Valid()
      ensures indent == Dedent(old(indent))
      ensures out == old(out) + FooterLines(indent, standalone)
    {
      indent := Dedent(indent);
      out := out + [indent + "\\end{scope}\n", indent + "\\end{tikzpicture}%\n"];
      if standalone {
        out := out + ["\\end{document}\n"];
      }
    }

    /** `add_shape`: one closed `\draw` path; an empty polygon fails on
        `poly[-1]` before writing. */
    method AddShape(poly: seq<Point>, style: StyleArg) returns (r: Outcome)
      requires Valid()
      modifies this
      ensures Valid() && indent == old(indent)
      ensures r == if |poly| == 0 then IndexError else Completed
      ensures r.Completed? ==> out == old(out) + [indent + "\\draw[" + GenStyle(style) + "] " + ClosedPath(formats.fixed2, poly)]
      ensures !r.Completed? ==> out == old(out)
    {
      if |poly| == 0 {
        return IndexError;
      }
      var txt := indent + "\\draw[";
      txt := txt + GenStyle(style);
      txt := txt + "] ";
      txt := AppendClosedPath(txt, formats.fixed2, poly);
      out := out + [txt];
      r := Completed;
    }

    /** `add_fill`: as `add_shape` with `\fill`. */
    method AddFill(poly: seq<Point>, style: StyleArg) returns (r: Outcome)
      requires Valid()
      modifies this
      ensures Valid() && indent == old(indent)
      ensures r == if |poly| == 0 then IndexError else Completed
      ensures r.Completed? ==> out == old(out) + [indent + "\\fill[" + GenStyle(style) + "] " + ClosedPath(formats.fixed2, poly)]
      ensures !r.Completed? ==> out == old(out)
    {
      if |poly| == 0 {
        return IndexError;
      }
      var txt := indent + "\\fill[";
      txt := txt + GenStyle(style);
      txt := txt + "] ";
      txt := AppendClosedPath(txt, formats.fixed2, poly);
      out := out + [txt];
      r := Completed;
    }

    /** `set_clip`: the closed path as a `\clip`, without a style. */
    method SetClip(poly: seq<Point>) returns (r: Outcome)
      requires Valid()
      modifies this
      ensures Valid() && indent == old(indent)
      ensures r == if |poly| == 0 then IndexError else Completed
      ensures r.Completed? ==> out == old(out) + [indent + "\\clip " + ClosedPath(formats.fixed2, poly)]
      ensures !r.Completed? ==> out == old(out)
    {
      if |poly| == 0 {
        return IndexError;
      }
      var txt := indent + "\\clip ";
      txt := AppendClosedPath(txt, formats.fixed2, poly);
      out := out + [txt];
      r := Completed;
    }

    /** `add_lines`: the length check first, then one straight segment per
        index, all in one write. */
    method AddLines(a: seq<Point>, b: seq<Point>, style: StyleArg) returns (r: Outcome)
      requires Valid()
      modifies this
      ensures Valid() && indent == old(indent)
      ensures r == if |a| == |b| then Completed else AssertionError
      ensures r.Completed? ==> out == old(out) + [Concat(SegmentCmds(Line, indent, GenStyle(style), formats.fixed2, a, b))]
      ensures !r.Completed? ==> out == old(out)
    {
      if |a| != |b| {
        return AssertionError;
      }
      var txt := AppendSegments(Line, indent, GenStyle(style), formats.fixed2, a, b);
      out := out + [txt];
      r := Completed;
    }

    /** `add_arrow`: as `add_lines`, each segment a bent arrow whose fixed
        arrow-head option precedes the caller's style. */
    method AddArrow(a: seq<Point>, b: seq<Point>, style: StyleArg) returns (r: Outcome)
      requires Valid()
      modifies this
      ensures Valid() && indent == old(indent)
      ensures r == if |a| == |b| then Completed else AssertionError
      ensures r.Completed? ==> out == old(out) + [Concat(SegmentCmds(Arrow, indent, GenStyle(style), formats.fixed2, a, b))]
      ensures !r.Completed? ==> out == old(out)
    {
      if |a| != |b| {
        return AssertionError;
      }
      var txt := AppendSegments(Arrow, indent, GenStyle(style), formats.fixed2, a, b);
      out := out + [txt];
      r := Completed;
    }

    /** `add_path`: one open `\draw` path. */
    method AddPath(pts: seq<Point>, style: StyleArg)
      requires Valid()
      modifies this
      ensures Valid() && indent == old(indent)
      ensures out == old(out) + [PathCmd(indent, GenStyle(style), formats.fixed2, pts)]
    {
      var txt := indent + "\\draw[";
      txt := txt + GenStyle(style);
      txt := txt + "] ";
      txt := AppendOpenPath(txt, formats.fixed2, pts);
      out := out + [txt];
    }

    /** `add_paths`: one open `\draw` path per path of the batch, in batch
        order, all in one write. */
    method AddPaths(paths: seq<seq<Point>>, style: StyleArg)
      requires Valid()
      modifies this
      ensures Valid() && indent == old(indent)
      ensures out == old(out) + [Concat(PathCmds(indent, GenStyle(style), formats.fixed2, paths))]
    {
      var styleText := GenStyle(style);
      var txt := "";
      var i := 0;
      while i < |paths|
        invariant 0 <= i <= |paths|
        invariant indent == old(indent) && out == old(out)
        invariant txt == Concat(PathCmds(indent, styleText, formats.fixed2, paths[..i]))
      {
        ghost var done := PathCmds(indent, styleText, formats.fixed2, paths[..i]);
        ghost var cmd := PathCmd(indent, styleText, formats.fixed2, paths[i]);
        PathCmdsPrefix(indent, styleText, formats.fixed2, paths, i);
        ConcatSnoc(done, cmd);
        ghost var txt0 := txt;
        var head := indent + "\\draw[" + styleText + "] ";
        txt := AppendOpenPath(txt + head, formats.fixed2, paths[i]);
        PathCmdStep(txt0, head, indent, styleText, formats.fixed2, paths[i], txt);
        i := i + 1;
      }
      assert paths[..i] == paths;
      out := out + [txt];
    }

    /** `add_points`: one `\fill` circle line per point, written as a list. */
    method AddPoints(pts: seq<Point>, radius: real, style: StyleArg)
      requires Valid()
      modifies this
      ensures Valid() && indent == old(indent)
      ensures out == old(out) + PointLines(indent, GenStyle(style), formats.plain, pts, radius)
    {
      var lines: seq<string> := [];
      var k := 0;
      while k < |pts|
        invariant 0 <= k <= |pts|
        invariant indent == old(indent) && out == old(out)
        invariant lines == PointLines(indent, GenStyle(style), formats.plain, pts[..k], radius)
      {
        lines := lines + [PointLine(indent, GenStyle(style), formats.plain, pts[k], radius)];
        k := k + 1;
      }
      assert pts[..k] == pts;
      out := out + lines;
    }

    /** `add_text`: a node with the text as given, unescaped. */
    method AddText(p: Point, text: string, style: StyleArg)
      requires Valid()
      modifies this
      ensures Valid() && indent == old(indent)
      ensures out == old(out) + [indent + "\\node[" + GenStyle(style) + "] at " + Coord(formats.fixed2, p) + " { " + text + " };\n"]
    {
      var txt := indent;
      txt := txt + "\\node[" + GenStyle(style) + "] at " + Coord(formats.fixed2, p) + " { " + text + " };\n";
      out := out + [txt];
    }

    /** `begin_scope`: a blank line and the opening at the current
        indentation, then one tab more. */
    method BeginScope(style: StyleArg)
      requires Valid()
      modifies this
      ensures Valid()
      ensures indent == Indent(old(indent))
      ensures out == old(out) + [old(indent) + "\n", old(indent) + "\\begin{scope}[" + GenStyle(style) + "]\n"]
    {
      out := out + [indent + "\n"];
      out := out + [indent + "\\begin{scope}[" + GenStyle(style) + "]\n"];
      indent := indent + "\t";
    }

    /** `end_scope`: one tab less, then the closing at that indentation. */
    method EndScope()
      requires Valid()
      modifies this
      ensures Valid()
      ensures indent == Dedent(old(indent))
      ensures out == old(out) + [indent + "\\end{scope}\n"]
    {
      indent := Dedent(indent);
      out := out + [indent + "\\end{scope}\n"];
    }

    /** `begin_plot`: the axis opening at the current indentation, then one
        tab more. */
    method BeginPlot(style: StyleArg)
      requires Valid()
      modifies this
      ensures Valid()
      ensures indent == Indent(old(indent))
      ensures out == old(out) + [old(indent) + "\\begin{axis}[" + GenStyle(style) + "]\n"]
    {
      out := out + [indent + "\\begin{axis}[" + GenStyle(style) + "]\n"];
      indent := indent + "\t";
    }

    /** `end_plot`: one tab less, then the axis closing. */
    method EndPlot()
      requires Valid()
      modifies this
      ensures Valid()
      ensures indent == Dedent(old(indent))
      ensures out == old(out) + [indent + "\\end{axis}\n"]
    {
      indent := Dedent(indent);
      out := out + [indent + "\\end{axis}\n"];
    }

    /** `plot`: checks the sample counts, marks a legend-less plot with
        `forget plot` in the caller's style (returned as `style'`), then
        writes the plot line by line. */
    method Plot(xs: seq<real>, ys: seq<real>, style: StyleArg, legend: Option<string>) returns (r: Outcome, style': StyleArg)
      requires Valid()
      modifies this
      ensures Valid() && indent == old(indent)
      ensures r == if |xs| != |ys| then AssertionError
                   else if !Truthy(legend) && style.NotDict? then TypeError
                   else Completed
      ensures r.Completed? ==> style' == PlotStyle(style, legend)
      ensures r.Completed? ==> out == old(out) + PlotLines(indent, GenStyle(style'), formats.fixed5, xs, ys, legend)
      ensures !r.Completed? ==> style' == style && out == old(out)
    {
      style' := style;
      if |xs| != |ys| {
        return AssertionError, style';
      }
      if !Truthy(legend) {
        if style.NotDict? {
          return TypeError, style';
        }
        style' := Dict(SetKey(style.entries, ForgetPlotKey, None));
      }
      var styleText := GenStyle(style');
      ghost var before := out;
      out := out + [indent + "\\addplot[" + styleText + "] coordinates {\n"];
      WriteSamples(xs, ys);
      out := out + [indent + "};\n"];
      if Truthy(legend) {
        out := out + [indent + "\\addlegendentry{" + legend.value + "}\n"];
      }
      out := out + ["\n"];
      PlotLinesParts(before, indent, styleText, formats.fixed5, xs, ys, legend, out);
      r := Completed;
    }

    /** The sample loop of `plot`: one coordinate line per index, in order. */
    method WriteSamples(xs: seq<real>, ys: seq<real>)
      requires Valid() && |xs| == |ys|
      modifies this
      ensures Valid() && indent == old(indent)
      ensures out == old(out) + SampleLines(indent, formats.fixed5, xs, ys)
    {
      var k := 0;
      while k < |xs|
        invariant 0 <= k <= |xs|
        invariant indent == old(indent)
        invariant out == old(out) + SampleLines(indent, formats.fixed5, xs[..k], ys[..k])
      {
        SampleLinesPrefix(indent, formats.fixed5, xs, ys, k);
        out := out + [SampleLine(indent, formats.fixed5, xs[k], ys[k])];
        k := k + 1;
      }
      assert xs[..k] == xs && ys[..k] == ys;
    }

    /** `add_rgb_color`: a named colour from three components, as given. */
    method AddRgbColor(name: string, red: real, green: real, blue: real)
      requires Valid()
      modifies this
      ensures Valid() && indent == old(indent)
      ensures out == old(out) + [indent + "\\definecolor{" + name + "}{rgb}{" + formats.plain(red) + "," + formats.plain(green) + "," + formats.plain(blue) + "}\n"]
    {
      out := out + [indent + "\\definecolor{" + name + "}{rgb}{" + formats.plain(red) + "," + formats.plain(green) + "," + formats.plain(blue) + "}\n"];
    }

    /** `add_cmd`: a raw command after the indentation. */
    method AddCmd(cmd: string)
      requires Valid()
      modifies this
      ensures Valid() && indent == old(indent)
      ensures out == old(out) + [indent + cmd]
    {
      out := out + [indent + cmd];
    }
  }
}
