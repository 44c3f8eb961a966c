# python_tikz emitter, modelled in Dafny

`pytikz` writes TikZ/pgfplots source for figures. Its class `tikz` holds an
indentation string (tabs), a standalone flag and an output stream. Each
drawing call renders its arguments as TikZ text at the current indentation
and writes that text to the stream. This project models that class and the
text each call produces:

- `text.dfy`, module `Text`: concatenation, joining with a separator,
  first-index search, splitting `c`-terminated text back into fragments,
  and character counting.
- `style.dfy`, module `Style`: `gen_style`, the fold of a style dict into a
  comma-terminated option list. It also holds a parser that reads such a
  list back, and the dict update `style[key] = value` that `plot` performs.
- `paths.dfy`, module `Paths`: the coordinate grammars.
  - Closed polygons (`add_shape`, `add_fill`, `set_clip`) and open
    polylines (`add_path`, `add_paths`), each as a specification function
    plus the loop that builds the text.
  - A parser that reads a path back.
  - Paired segments (`add_lines`, `add_arrow`).
- `indentation.dfy`, module `Indentation`: how begins (`+= '\t'`) and ends
  (`[0:-1]`) change the indentation, alone and in sequences. Also the
  header/footer asymmetry.
- `tikz.dfy`, module `Tikz`: the class `Tikz`, with a method for each
  method of the source that writes or changes the indentation (`gen_style`
  is `Style.GenStyle`; `WriteSamples` is the sample loop of `plot`), and the
  specification functions for the lines each call writes.

The stream is modelled as `out: seq<string>`, the list of strings written in
order. `write(t)` appends `[t]`; `writelines(ls)` appends `ls`. A Python
exception is modelled as an `Outcome` (`AssertionError`, `IndexError`,
`TypeError`). In the source every such exception is raised before anything
is written, so the model leaves `out` unchanged on failure.

## Model

| member | source | states |
|---|---|---|
| Style.GenStyle | src/pytikz/tikz.py:53-61 | A non-dict style renders as the empty string; a non-empty dict renders as text ending in a comma. |
| Style.GenStyleIsConcat | src/pytikz/tikz.py:55-61 | The fold renders exactly the options of the keys, in insertion order, with nothing before, between or after them. |
| Style.StyleRoundTrip | src/pytikz/tikz.py:53-61 | Parsing the rendered text gives back every key in order with its value; `''` and `None` both come back as a bare key. Holds when no key contains `,` or `=` and no value contains `,`. |
| Style.CommaPerKey | src/pytikz/tikz.py:55-61 | When no key or value contains a comma of its own, the rendered text has exactly one comma per key. (`{'a': '1,2'}` renders as `a=1,2,`, with two.) |
| Style.SetKey | src/pytikz/tikz.py:235-236 | `style['forget plot'] = None`: an existing key keeps its position and the other entries are untouched; a missing key is appended last. |
| Style.SetKeyLookup | src/pytikz/tikz.py:235-236 | After the update the key reads as the new value and every other key reads as before. |
| Style.SetKeyDistinct | src/pytikz/tikz.py:236 | The update keeps the keys distinct, as a dict does. |
| Style.ForgetPlotRendered | src/pytikz/tikz.py:236-237 | When the caller's style lacked the marker, the `\addplot` options are the caller's options followed by `forget plot,`. |
| Paths.AppendClosedPath | src/pytikz/tikz.py:113-118 | The loop over `range(-1, n)` appends exactly the closed path of the polygon. |
| Paths.ClosedPathRoundTrip | src/pytikz/tikz.py:113-118 | A closed polygon of n vertices reads back as n + 1 coordinates. The first and the last are the last vertex; the rest are the vertices in order. |
| Paths.AppendOpenPath | src/pytikz/tikz.py:180-183 | The loop over `range(n)` appends the open path: the points in order with ` -- ` between consecutive points, then `;\n`. |
| Paths.OpenPathRoundTrip | src/pytikz/tikz.py:180-183 | An open path of n points reads back as exactly those n coordinates in order. Zero points give just the terminator. |
| Paths.CoordRoundTrip | src/pytikz/tikz.py:117 | One `(x, y)` coordinate reads back as its two number texts and leaves the following text untouched. |
| Paths.AppendSegments | src/pytikz/tikz.py:151-160 | The loop appends one segment command per index, in index order. |
| Paths.SegmentLines | src/pytikz/tikz.py:195-206 | Splitting the text of `add_lines`/`add_arrow` at newlines gives back exactly the per-index commands: one line per pair. |
| Paths.SegmentCmdIsLine | src/pytikz/tikz.py:199-205 | Each segment command ends in a newline and holds no other, when the indentation, style and coordinates hold none. |
| Paths.OptionsFirst | src/pytikz/tikz.py:199-201 | An arrow command opens with `\draw[` and the option `arrows = {-Stealth[reversed, reversed]},`, and the caller's style follows directly. A line command has only the caller's style there. |
| Indentation.Indent | src/pytikz/tikz.py:216 | `indent += '\t'` makes the indentation one tab deeper and keeps it all tabs. |
| Indentation.Dedent | src/pytikz/tikz.py:219 | `indent[0:-1]` is one character shorter and a prefix of the old indentation, or still empty when it was empty. |
| Indentation.DedentIndent | src/pytikz/tikz.py:213-220 | An end right after a begin restores the indentation. |
| Indentation.RunDepth | src/pytikz/tikz.py:213-229 | While no end meets an empty indentation, the depth is the start depth plus begins minus ends, and the indentation stays all tabs. |
| Indentation.RunDepthAtLeast | src/pytikz/tikz.py:218-229 | Ends at empty indentation can only leave the result deeper than begins minus ends, never shallower. |
| Indentation.EndsAtEmpty | src/pytikz/tikz.py:218-220 | Any number of ends at empty indentation leave it empty instead of failing. |
| Indentation.BalancedRestores | src/pytikz/tikz.py:213-229 | Well-nested begins and ends restore the indentation they started from. |
| Indentation.HeaderFooter | src/pytikz/tikz.py:78-93 | The header adds two tabs in standalone mode and one otherwise; the footer removes one. A header then footer restores the indentation exactly when not standalone. |
| Tikz.HeaderShape | src/pytikz/tikz.py:63-90 | The header lines:<br>- the preamble only in standalone mode;<br>- the `tikzpicture` opening with the rendered style;<br>- the scope opening;<br>- the clip and grid lines exactly when the box has four numbers, with corners (xmin, ymin) and (xmax, ymax). |
| Tikz.PlotShape | src/pytikz/tikz.py:237-243 | A plot writes:<br>- the `\addplot` line;<br>- one coordinate line per sample, in index order;<br>- the closing `};`;<br>- a legend entry exactly when the legend is truthy;<br>- a blank line. |
| Tikz.PlotStyleForgets | src/pytikz/tikz.py:235-237 | With a truthy legend the style is untouched. Otherwise `forget plot` maps to `None`, every other key is unchanged, and a new marker is rendered after the caller's options. A style with distinct keys keeps them distinct. |
| Tikz.Tikz.constructor | src/pytikz/tikz.py:48-51 | A new emitter starts at empty indentation with nothing written. |
| Tikz.Tikz.GenHeader | src/pytikz/tikz.py:63-90 | Returns `'\t\t'`. Deepens the indentation by two tabs in standalone mode and by one otherwise. Writes exactly the header lines. |
| Tikz.Tikz.GenFooter | src/pytikz/tikz.py:92-101 | Removes one tab, then writes the scope and picture closings at that indentation, and `\end{document}` in standalone mode. |
| Tikz.Tikz.AddShape | src/pytikz/tikz.py:108-119 | Fails with `IndexError` on an empty polygon. Otherwise writes one `\draw[style]` command holding the closed path. |
| Tikz.Tikz.AddFill | src/pytikz/tikz.py:121-132 | As `add_shape`, with `\fill`. |
| Tikz.Tikz.SetClip | src/pytikz/tikz.py:134-142 | As `add_shape`, with `\clip` and no style. |
| Tikz.Tikz.AddLines | src/pytikz/tikz.py:149-160 | Fails with `AssertionError` when the two point lists differ in length. Otherwise one write holds one straight segment per index. |
| Tikz.Tikz.AddPaths | src/pytikz/tikz.py:162-173 | One write holds one open `\draw` path per path of the batch, in batch order. |
| Tikz.PathCmdIsLine | src/pytikz/tikz.py:166-172 | Each path command ends in a newline and holds no other, when the indentation, style and coordinates hold none. |
| Tikz.PathLines | src/pytikz/tikz.py:164-173 | Splitting the text of `add_paths` at newlines gives back exactly one command per path, in batch order. |
| Tikz.Tikz.AddPath | src/pytikz/tikz.py:175-184 | One write of one open `\draw` path. |
| Tikz.Tikz.AddPoints | src/pytikz/tikz.py:186-193 | One `\fill ... circle` line per point, in order, all with the same style and radius. |
| Tikz.Tikz.AddArrow | src/pytikz/tikz.py:195-206 | As `add_lines`, each segment a bent arrow. |
| Tikz.Tikz.AddText | src/pytikz/tikz.py:208-211 | One `\node` at the point, holding the text as given. |
| Tikz.Tikz.BeginScope | src/pytikz/tikz.py:213-216 | Writes a blank line and the scope opening at the current indentation, then deepens the indentation by one tab. |
| Tikz.Tikz.EndScope | src/pytikz/tikz.py:218-220 | Removes one tab, then writes the scope closing. |
| Tikz.Tikz.BeginPlot | src/pytikz/tikz.py:223-225 | Writes the axis opening at the current indentation, then deepens the indentation by one tab. |
| Tikz.Tikz.EndPlot | src/pytikz/tikz.py:227-229 | Removes one tab, then writes the axis closing. |
| Tikz.Tikz.Plot | src/pytikz/tikz.py:231-243 | Fails with `AssertionError` on samples of different lengths. Fails with `TypeError` when the legend is falsy and the style is not a dict. Otherwise it updates the style as `PlotStyle` says and writes exactly the plot lines. |
| Tikz.Tikz.WriteSamples | src/pytikz/tikz.py:238-239 | The sample loop writes one coordinate line per index, in order. |
| Tikz.Tikz.AddRgbColor | src/pytikz/tikz.py:245-246 | One `\definecolor` line with the three components. |
| Tikz.Tikz.AddCmd | src/pytikz/tikz.py:248-249 | The raw command after the indentation. |

## Left out

- Number formatting (`{:.2f}`, `{:.5f}`, `str()`) is not modelled. The emitter receives it as three functions from real to string (`Formats`). Round trips are stated for number texts that hold no `,` or `)`.
- numpy arrays are modelled as sequences of points or of reals. The dimension asserts of `add_paths` (3-D) and `plot` (1-D) are carried by these types. A batch of paths may therefore be ragged, which a numpy array cannot be.
- The stream is a list of the strings written. Buffering, flushing and I/O errors are not modelled.
- Style values other than strings are represented by their `str()` text. A falsy legend with a non-dict style is modelled as `TypeError`; an object that supports item assignment would not raise there.
- Python's mutable default arguments are not modelled. The caller's style after `plot` is returned as a second result. Calls that rely on a default dict mutated by an earlier `plot` get their style passed explicitly.
- Argument types and defaults are narrowed. `legend` is a string or None: a truthy non-string legend, which makes line 242 raise `TypeError` after the `\addplot`, sample and `};` lines are already written, is outside the model. Style keys are strings, so the `TypeError` of `key + ','` (line 58) on a non-string bare key is outside the model. Defaults are not modelled: the caller always passes the style (`add_shape` and `add_fill` default to `{'color': 'red'}`) and the radius (`add_points` defaults to the int `2`).
- A style `Dict` may list a key twice, which a Python dict cannot. Distinct keys are stated as `Style.DistinctKeys`, and `plot` keeps them distinct (`Tikz.PlotStyleForgets`), but the class does not require them.
- LaTeX validity of the output, and whether the text contains TikZ special characters, are not modelled.
- Tikz.Tikz.AddPaths: computes the rendered style once per call, where the source calls `gen_style` once per path. The result is the same, because the rendering is a pure function of the style.
- Paths.AppendSegments: appends each segment command as one string. The source appends its pieces one `+=` at a time; the resulting string is the same.
- When an end meets an empty indentation, the source's `''[0:-1]` leaves the indentation empty and the model does the same (`Indentation.EndsAtEmpty`).
- The module docstring's usage example (`gen_header` as a free function) is not part of this model.
