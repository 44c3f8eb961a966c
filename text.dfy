/** String building blocks shared by every emitter: concatenation of
    fragments, joining with a separator, and splitting terminated text back
    into its fragments. */
module Text {

  /** All fragments, left to right, with nothing between them. */
  function Concat(parts: seq<string>): string
  {
    if |parts| == 0 then "" else parts[0] + Concat(parts[1..])
  }

  /** Appending one more fragment appends its text: what a loop that grows a
      string with `txt += part` relies on. */
  lemma {:induction false} ConcatSnoc(parts: seq<string>, last: string)
    ensures Concat(parts + [last]) == Concat(parts) + last
  {
    if |parts| == 0 {
      assert parts + [last] == [last];
    } else {
      assert (parts + [last])[1..] == parts[1..] + [last];
      ConcatSnoc(parts[1..], last);
    }
  }

  /** The items with `sep` between consecutive ones: n items, n - 1 separators. */
  function Joined(items: seq<string>, sep: string): string
  {
    if |items| == 0 then ""
    else if |items| == 1 then items[0]
    else items[0] + sep + Joined(items[1..], sep)
  }

  lemma {:induction false} JoinedSnoc(items: seq<string>, x: string, sep: string)
    requires |items| > 0
    ensures Joined(items + [x], sep) == Joined(items, sep) + sep + x
  {
    if |items| == 1 {
      assert items + [x] == [items[0], x];
      assert (items + [x])[1..] == [x];
    } else {
      assert (items + [x])[1..] == items[1..] + [x];
      JoinedSnoc(items[1..], x, sep);
    }
  }

  /** A character absent from every item and from the separator is absent
      from the join. */
  lemma {:induction false} JoinedAvoids(items: seq<string>, sep: string, c: char)
    requires c !in sep
    requires forall k :: 0 <= k < |items| ==> c !in items[k]
    ensures c !in Joined(items, sep)
  {
    if |items| > 1 {
      JoinedAvoids(items[1..], sep, c);
      var rest := Joined(items[1..], sep);
      assert Joined(items, sep) == items[0] + sep + rest;
      assert c !in items[0] + sep;
    }
  }

  /** Index of the first `c` in `s`, or |s| when there is none. */
  function IndexOf(s: string, c: char): (i: nat)
    ensures i <= |s|
    ensures i < |s| ==> s[i] == c
    ensures forall j :: 0 <= j < i ==> s[j] != c
  {
    if |s| == 0 then 0
    else if s[0] == c then 0
    else 1 + IndexOf(s[1..], c)
  }

  lemma IndexOfAfterPrefix(p: string, c: char, rest: string)
    requires c !in p
    ensures IndexOf(p + [c] + rest, c) == |p|
  {
    var s := p + [c] + rest;
    assert s[|p|] == c;
    assert forall j :: 0 <= j < |p| ==> s[j] == p[j];
  }

  /** A fragment that ends with `c` and holds no other `c`. */
  predicate TerminatedBy(part: string, c: char)
  {
    |part| > 0 && part[|part| - 1] == c && c !in part[..|part| - 1]
  }

  /** Cuts `s` after every `c`; a trailing piece without `c` is kept as is. */
  function SplitTerminated(s: string, c: char): seq<string>
    decreases |s|
  {
    if |s| == 0 then []
    else
      var i := IndexOf(s, c);
      if i == |s| then [s]
      else [s[..i + 1]] + SplitTerminated(s[i + 1..], c)
  }

  /** Splitting undoes concatenation of terminated fragments: the text of
      `c`-terminated pieces can be cut back into exactly those pieces. */
  lemma {:induction false} SplitConcat(parts: seq<string>, c: char)
    requires forall k :: 0 <= k < |parts| ==> TerminatedBy(parts[k], c)
    ensures SplitTerminated(Concat(parts), c) == parts
  {
    if |parts| > 0 {
      var p := parts[0];
      var body := p[..|p| - 1];
      var rest := Concat(parts[1..]);
      assert p == body + [c];
      assert Concat(parts) == body + [c] + rest;
      IndexOfAfterPrefix(body, c, rest);
      var s := Concat(parts);
      assert s[..|body| + 1] == p;
      assert s[|body| + 1..] == rest;
      SplitConcat(parts[1..], c);
    }
  }

  /** Number of occurrences of `c` in `s`. */
  function Count(s: string, c: char): nat
  {
    if |s| == 0 then 0 else (if s[0] == c then 1 else 0) + Count(s[1..], c)
  }

  lemma {:induction false} CountAppend(a: string, b: string, c: char)
    ensures Count(a + b, c) == Count(a, c) + Count(b, c)
  {
    if |a| > 0 {
      assert (a + b)[1..] == a[1..] + b;
      CountAppend(a[1..], b, c);
    } else {
      assert a + b == b;
    }
  }

  lemma {:induction false} CountAbsent(s: string, c: char)
    requires c !in s
    ensures Count(s, c) == 0
  {
    if |s| > 0 {
      CountAbsent(s[1..], c);
    }
  }

  /** Terminated fragments carry exactly one `c` each. */
  lemma {:induction false} CountTerminated(parts: seq<string>, c: char)
    requires forall k :: 0 <= k < |parts| ==> TerminatedBy(parts[k], c)
    ensures Count(Concat(parts), c) == |parts|
  {
    if |parts| > 0 {
      var p := parts[0];
      var body := p[..|p| - 1];
      assert p == body + [c];
      CountAbsent(body, c);
      CountAppend(body, [c], c);
      assert Count([c], c) == 1 by {
        assert [c][1..] == [];
      }
      CountAppend(p, Concat(parts[1..]), c);
      CountTerminated(parts[1..], c);
    }
  }
}
