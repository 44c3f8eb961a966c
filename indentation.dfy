/** The emitter's indentation: a string of tab characters that every
    "begin" extends by one tab and every "end" shortens by slicing off the
    last character (`indent[0:-1]`), so that an end at empty indentation
    leaves it empty instead of failing. */
module Indentation {

  predicate AllTabs(s: string)
  {
    forall i :: 0 <= i < |s| ==> s[i] == '\t'
  }

  /** `indent += '\t'`. */
  function Indent(s: string): (r: string)
    ensures |r| == |s| + 1
    ensures AllTabs(s) ==> AllTabs(r)
  {
    s + "\t"
  }

  /** `indent[0:-1]`: one character shorter, or still empty. */
  function Dedent(s: string): (r: string)
    ensures |r| == if |s| == 0 then 0 else |s| - 1
    ensures r <= s
    ensures AllTabs(s) ==> AllTabs(r)
  {
    if |s| == 0 then s else s[..|s| - 1]
  }

  /** An end right after a begin restores the indentation. */
  lemma DedentIndent(s: string)
    ensures Dedent(Indent(s)) == s
  {
    assert Indent(s)[..|s|] == s;
  }

  /** Two tab strings of the same depth are the same string. */
  lemma TabsEqual(a: string, b: string)
    requires AllTabs(a) && AllTabs(b) && |a| == |b|
    ensures a == b
  {
  }

  /** A change of indentation: a begin (`begin_scope`, `begin_plot`) or an
      end (`end_scope`, `end_plot`). */
  datatype Event = Begin | End

  function Apply(e: Event, s: string): string
  {
    match e
    case Begin => Indent(s)
    case End => Dedent(s)
  }

  /** The indentation after a sequence of begins and ends, in order. */
  function Run(events: seq<Event>, s: string): string
  {
    if |events| == 0 then s else Run(events[1..], Apply(events[0], s))
  }

  /** Begins minus ends. */
  function Net(events: seq<Event>): int
  {
    if |events| == 0 then 0 else (if events[0].Begin? then 1 else -1) + Net(events[1..])
  }

  /** Starting at depth `d`, no end ever meets an empty indentation. */
  predicate NoUnderflow(events: seq<Event>, d: int)
  {
    |events| == 0 ||
    (var d' := if events[0].Begin? then d + 1 else d - 1;
     d' >= 0 && NoUnderflow(events[1..], d'))
  }

  /** Well nested: no end without an open begin, and every begin closed. */
  predicate Balanced(events: seq<Event>)
  {
    NoUnderflow(events, 0) && Net(events) == 0
  }

  /** While no end underflows, the depth is the start depth plus begins
      minus ends, and the indentation stays made of tabs. */
  lemma {:induction false} RunDepth(events: seq<Event>, s: string)
    requires AllTabs(s) && NoUnderflow(events, |s|)
    ensures AllTabs(Run(events, s))
    ensures |Run(events, s)| == |s| + Net(events)
  {
    if |events| > 0 {
      var s' := Apply(events[0], s);
      assert AllTabs(s') && |s'| == |s| + (if events[0].Begin? then 1 else -1);
      RunDepth(events[1..], s');
    }
  }

  /** Slicing at empty indentation can only leave the result deeper than the
      count of begins and ends says, never shallower. */
  lemma {:induction false} RunDepthAtLeast(events: seq<Event>, s: string)
    ensures |Run(events, s)| >= |s| + Net(events)
  {
    if |events| > 0 {
      RunDepthAtLeast(events[1..], Apply(events[0], s));
    }
  }

  /** Any number of ends at empty indentation leave it empty. */
  lemma {:induction false} EndsAtEmpty(events: seq<Event>)
    requires forall i :: 0 <= i < |events| ==> events[i] == End
    ensures Run(events, "") == ""
  {
    if |events| > 0 {
      EndsAtEmpty(events[1..]);
    }
  }

  lemma {:induction false} NoUnderflowDeeper(events: seq<Event>, d: int, d': int)
    requires NoUnderflow(events, d) && d <= d'
    ensures NoUnderflow(events, d')
  {
    if |events| > 0 {
      var e := if events[0].Begin? then 1 else -1;
      NoUnderflowDeeper(events[1..], d + e, d' + e);
    }
  }

  /** Matched begins and ends restore the indentation they started from. */
  lemma BalancedRestores(events: seq<Event>, s: string)
    requires AllTabs(s) && Balanced(events)
    ensures Run(events, s) == s
  {
    NoUnderflowDeeper(events, 0, |s|);
    RunDepth(events, s);
    TabsEqual(Run(events, s), s);
  }

  /** `gen_header`: one tab for the document body in standalone mode, then
      one tab for the picture's scope. */
  function HeaderIndent(s: string, standalone: bool): string
  {
    Indent(if standalone then Indent(s) else s)
  }

  /** `gen_footer` removes one tab only, so a header followed by a footer
      restores the indentation exactly when not standalone, and leaves one
      extra tab otherwise. */
  lemma HeaderFooter(s: string, standalone: bool)
    ensures Dedent(HeaderIndent(s, standalone)) == (if standalone then Indent(s) else s)
    ensures Dedent(HeaderIndent(s, standalone)) == s <==> !standalone
  {
    DedentIndent(if standalone then Indent(s) else s);
  }
}
