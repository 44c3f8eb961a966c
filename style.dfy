/** Style dictionaries and their rendering as a TikZ option list
    (`gen_style`), with the parser that reads such a list back and the
    in-place key update `style[key] = value` that `plot` performs. */
module Style {
  import opened Wrappers
  import opened Text

  /** One option of a style dict; a `None` value is Python's None. Values
      other than strings are represented by their `str()` text. */
  datatype Entry = Entry(key: string, value: Option<string>)

  /** The `style` argument: a dict (its entries in insertion order) or an
      object of any other type. */
  datatype StyleArg = Dict(entries: seq<Entry>) | NotDict

  /** `''` and `None` both make a flag-only option. */
  predicate IsBare(v: Option<string>)
  {
    v == None || v == Some("")
  }

  /** `key,` for a flag-only option, `key=value,` otherwise. */
  function EntryText(e: Entry): string
  {
    if IsBare(e.value) then e.key + "," else e.key + "=" + e.value.value + ","
  }

  /** The fold of `gen_style`: walk the keys in insertion order, appending
      each option's text to the accumulated string. */
  function EntriesText(es: seq<Entry>): string
  {
    if |es| == 0 then "" else EntriesText(es[..|es| - 1]) + EntryText(es[|es| - 1])
  }

  /** `gen_style`: a comma-terminated option list for a dict, "" for any
      other argument. */
  function GenStyle(style: StyleArg): (r: string)
    ensures style.NotDict? ==> r == ""
    ensures style.Dict? && style.entries != [] ==> |r| > 0 && r[|r| - 1] == ','
  {
    match style
    case NotDict => ""
    case Dict(es) => EntriesText(es)
  }

  /** The option texts, one per key, in insertion order. */
  function EntryTexts(es: seq<Entry>): (r: seq<string>)
    ensures |r| == |es|
    ensures forall k :: 0 <= k < |es| ==> r[k] == EntryText(es[k])
  {
    seq(|es|, k requires 0 <= k < |es| => EntryText(es[k]))
  }

  lemma EntryTextsSnoc(es: seq<Entry>)
    requires |es| > 0
    ensures EntryTexts(es) == EntryTexts(es[..|es| - 1]) + [EntryText(es[|es| - 1])]
  {
  }

  /** The fold produces the option texts of the keys in insertion order,
      nothing before, between or after them. */
  lemma {:induction false} GenStyleIsConcat(es: seq<Entry>)
    ensures GenStyle(Dict(es)) == Concat(EntryTexts(es))
  {
    if |es| > 0 {
      var init := es[..|es| - 1];
      GenStyleIsConcat(init);
      EntryTextsSnoc(es);
      ConcatSnoc(EntryTexts(init), EntryText(es[|es| - 1]));
    }
  }

  /** An entry whose text can be read back: no comma anywhere but at its end,
      and no `=` inside the key. */
  predicate Readable(e: Entry)
  {
    ',' !in e.key && '=' !in e.key && (e.value.Some? ==> ',' !in e.value.value)
  }

  predicate AllReadable(es: seq<Entry>)
  {
    forall k :: 0 <= k < |es| ==> Readable(es[k])
  }

  /** The entry as the rendering distinguishes it: `''` and `None` are the
      same bare key. */
  function Normalize(e: Entry): Entry
  {
    if IsBare(e.value) then Entry(e.key, None) else e
  }

  function Normalized(es: seq<Entry>): (r: seq<Entry>)
    ensures |r| == |es|
    ensures forall k :: 0 <= k < |es| ==> r[k] == Normalize(es[k])
  {
    seq(|es|, k requires 0 <= k < |es| => Normalize(es[k]))
  }

  /** Reads one option text back: the trailing comma dropped, the key up to
      the first `=`, the value after it (a bare key has no value). */
  function ParseEntry(piece: string): Entry
  {
    var body := if |piece| > 0 && piece[|piece| - 1] == ',' then piece[..|piece| - 1] else piece;
    var j := IndexOf(body, '=');
    if j < |body| then Entry(body[..j], Some(body[j + 1..])) else Entry(body, None)
  }

  /** Reads an option list back into its entries. */
  function ParseStyle(s: string): seq<Entry>
  {
    var pieces := SplitTerminated(s, ',');
    seq(|pieces|, k requires 0 <= k < |pieces| => ParseEntry(pieces[k]))
  }

  lemma EntryRoundTrip(e: Entry)
    requires Readable(e)
    ensures TerminatedBy(EntryText(e), ',')
    ensures ParseEntry(EntryText(e)) == Normalize(e)
  {
    var t := EntryText(e);
    if IsBare(e.value) {
      assert t[..|t| - 1] == e.key;
      assert IndexOf(e.key, '=') == |e.key|;
    } else {
      var v := e.value.value;
      assert t[..|t| - 1] == e.key + "=" + v;
      IndexOfAfterPrefix(e.key, '=', v);
      assert (e.key + "=" + v)[..|e.key|] == e.key;
      assert (e.key + "=" + v)[|e.key| + 1..] == v;
    }
  }

  /** Reading back what `gen_style` wrote gives every key in insertion order
      with its value, `''` and `None` both read as a bare key. */
  lemma StyleRoundTrip(es: seq<Entry>)
    requires AllReadable(es)
    ensures ParseStyle(GenStyle(Dict(es))) == Normalized(es)
  {
    GenStyleIsConcat(es);
    var texts := EntryTexts(es);
    forall k | 0 <= k < |es|
      ensures TerminatedBy(texts[k], ',') && ParseEntry(texts[k]) == Normalize(es[k])
    {
      EntryRoundTrip(es[k]);
    }
    SplitConcat(texts, ',');
  }

  /** No comma in the key or the value of an entry; `=` may occur anywhere. */
  predicate CommaFree(e: Entry)
  {
    ',' !in e.key && (e.value.Some? ==> ',' !in e.value.value)
  }

  /** An entry without commas renders as text whose only comma is its last
      character. */
  lemma EntryTerminated(e: Entry)
    requires CommaFree(e)
    ensures TerminatedBy(EntryText(e), ',')
  {
    var t := EntryText(e);
    if IsBare(e.value) {
      assert t[..|t| - 1] == e.key;
    } else {
      var v := e.value.value;
      assert t[..|t| - 1] == e.key + "=" + v;
      assert ',' !in "=";
    }
  }

  /** One comma per key, when no key or value holds a comma of its own. */
  lemma CommaPerKey(es: seq<Entry>)
    requires forall k :: 0 <= k < |es| ==> CommaFree(es[k])
    ensures Count(GenStyle(Dict(es)), ',') == |es|
  {
    GenStyleIsConcat(es);
    var texts := EntryTexts(es);
    forall k | 0 <= k < |es|
      ensures TerminatedBy(texts[k], ',')
    {
      EntryTerminated(es[k]);
    }
    CountTerminated(texts, ',');
  }

  /** `d[k]`: the value under the first entry with key `k`, if any. */
  function Lookup(es: seq<Entry>, k: string): (r: Option<Option<string>>)
    ensures r.None? <==> forall i :: 0 <= i < |es| ==> es[i].key != k
    ensures r.Some? ==> exists i :: 0 <= i < |es| && es[i] == Entry(k, r.value)
  {
    if |es| == 0 then None
    else if es[0].key == k then Some(es[0].value)
    else Lookup(es[1..], k)
  }

  /** No key occurs twice, as in a dict. */
  predicate DistinctKeys(es: seq<Entry>)
  {
    forall i, j :: 0 <= i < j < |es| ==> es[i].key != es[j].key
  }

  /** `d[k] = v`: an existing key keeps its position and takes the new
      value; a new key goes last. */
  function SetKey(es: seq<Entry>, k: string, v: Option<string>): (r: seq<Entry>)
    ensures Lookup(es, k).None? ==> r == es + [Entry(k, v)]
    ensures Lookup(es, k).Some? ==> |r| == |es|
    ensures forall i :: 0 <= i < |es| ==> r[i].key == es[i].key
    ensures forall i :: 0 <= i < |es| && es[i].key != k ==> r[i] == es[i]
  {
    if |es| == 0 then [Entry(k, v)]
    else if es[0].key == k then [Entry(k, v)] + es[1..]
    else [es[0]] + SetKey(es[1..], k, v)
  }

  /** After `d[k] = v`, `d[k]` is `v` and every other key reads as before. */
  lemma {:induction false} SetKeyLookup(es: seq<Entry>, k: string, v: Option<string>)
    ensures Lookup(SetKey(es, k, v), k) == Some(v)
    ensures forall k' :: k' != k ==> Lookup(SetKey(es, k, v), k') == Lookup(es, k')
  {
    if |es| > 0 && es[0].key != k {
      SetKeyLookup(es[1..], k, v);
      var r := SetKey(es, k, v);
      assert r[1..] == SetKey(es[1..], k, v);
    }
  }

  /** Updating a dict keeps it a dict. */
  lemma SetKeyDistinct(es: seq<Entry>, k: string, v: Option<string>)
    requires DistinctKeys(es)
    ensures DistinctKeys(SetKey(es, k, v))
  {
    var r := SetKey(es, k, v);
    if Lookup(es, k).None? {
      assert forall i :: 0 <= i < |es| ==> r[i] == es[i];
    }
  }

  /** The key `plot` adds to the caller's style when no legend is given. */
  const ForgetPlotKey := "forget plot"

  /** When the style did not already hold it, the marker is rendered as one
      bare option after all the caller's options. */
  lemma ForgetPlotRendered(es: seq<Entry>)
    requires Lookup(es, ForgetPlotKey).None?
    ensures GenStyle(Dict(SetKey(es, ForgetPlotKey, None))) == GenStyle(Dict(es)) + "forget plot,"
  {
    var r := SetKey(es, ForgetPlotKey, None);
    var last := Entry(ForgetPlotKey, None);
    assert r == es + [last];
    assert r[..|r| - 1] == es;
    assert EntryText(last) == "forget plot,";
    assert EntriesText(r) == EntriesText(es) + EntryText(last);
  }
}
