/** The code-text helpers (src/codegen/file_formatter.py). Every regular
    expression the file uses is anchored to line starts or line ends, or looks
    for a fixed fence, so each is modelled as the line-by-line or
    left-to-right scan it amounts to. */
module FileFormatter {
  import opened Common

  /** `"\n".join(f(line) for line in lines)` needs the map on its own. */
  function MapStrings(xs: seq<string>, f: string -> string): (ys: seq<string>)
    ensures |ys| == |xs|
  {
    if xs == [] then [] else [f(xs[0])] + MapStrings(xs[1..], f)
  }

  lemma {:induction false} MapStringsAt(xs: seq<string>, f: string -> string, i: nat)
    requires i < |xs|
    ensures MapStrings(xs, f)[i] == f(xs[i])
  {
    if i > 0 {
      MapStringsAt(xs[1..], f, i - 1);
    }
  }

  lemma {:induction false} MapStringsConcat(xs: seq<string>, ys: seq<string>, f: string -> string)
    ensures MapStrings(xs + ys, f) == MapStrings(xs, f) + MapStrings(ys, f)
  {
    if xs != [] {
      assert (xs + ys)[1..] == xs[1..] + ys;
      MapStringsConcat(xs[1..], ys, f);
    } else {
      assert xs + ys == ys;
    }
  }

  /** Applies `f` to every line of `s` (a substitution anchored with `^` or
      `$` under `re.MULTILINE` changes each line on its own). */
  function LineMap(s: string, f: string -> string): string {
    Join(MapStrings(Split(s, '\n'), f), '\n')
  }

  // ---------------------------------------------------------------------
  // Fences

  const Fence := "```"

  /** `re.sub(r"^```(python)?", "", ...)` on one line: "```python" is
      preferred to "```" at the start of the line. */
  function DropOpeningFence(line: string): string {
    if "```python" <= line then line[9..]
    else if Fence <= line then line[3..]
    else line
  }

  /** `re.sub(r"```$", "", ...)` on one line. */
  function DropClosingFence(line: string): string {
    if |line| >= 3 && line[|line| - 3..] == Fence then line[..|line| - 3] else line
  }

  // ---------------------------------------------------------------------
  // textwrap.dedent

  predicate IsIndentChar(c: char) {
    c == ' ' || c == '\t'
  }

  /** The length of the `[ \t]*` run a line starts with. */
  function IndentLength(line: string): (n: nat)
    ensures n <= |line|
    ensures n < |line| ==> !IsIndentChar(line[n])
  {
    if line != [] && IsIndentChar(line[0]) then 1 + IndentLength(line[1..]) else 0
  }

  /** The `[ \t]*` run a line starts with. */
  function Indent(line: string): (r: string)
    ensures r <= line
  {
    line[..IndentLength(line)]
  }

  /** The line holds a character other than a space or a tab. */
  predicate HasText(line: string) {
    IndentLength(line) < |line|
  }

  /** `dedent` first empties every line made only of spaces and tabs. */
  function Blanked(line: string): string {
    if HasText(line) then line else ""
  }

  /** The longest common prefix of two strings. */
  function CommonPrefix(a: string, b: string): (p: string)
    ensures p <= a && p <= b
    ensures |p| == |a| || |p| == |b| || a[|p|] != b[|p|]
  {
    if a == [] || b == [] || a[0] != b[0] then [] else [a[0]] + CommonPrefix(a[1..], b[1..])
  }

  /** One step of `dedent`'s margin loop: keep the margin when the indent
      extends it, take the indent when it is a prefix of the margin, and
      otherwise cut the margin at the first differing character. */
  function MarginStep(margin: string, indent: string): string {
    if margin <= indent then margin
    else if indent <= margin then indent
    else CommonPrefix(margin, indent)
  }

  /** The margin `dedent` computes over the first `n` lines that hold text,
      in line order; None while no line holds text. */
  function MarginUpTo(lines: seq<string>, n: nat): Option<string>
    requires n <= |lines|
  {
    if n == 0 then None
    else
      var m := MarginUpTo(lines, n - 1);
      var line := lines[n - 1];
      if !HasText(line) then m
      else if m.None? then Some(Indent(line))
      else Some(MarginStep(m.value, Indent(line)))
  }

  /** The margin of all the lines. */
  function Margin(lines: seq<string>): Option<string> {
    MarginUpTo(lines, |lines|)
  }

  /** `re.sub('(?m)^' + margin, '', text)` on one line. */
  function DropMargin(line: string, margin: string): string {
    if margin <= line then line[|margin|..] else line
  }

  /** The lines `dedent` produces. */
  function DedentLines(lines: seq<string>): seq<string> {
    var blanked := MapStrings(lines, Blanked);
    var margin := Margin(blanked);
    if margin.Some? && margin.value != [] then MapStrings(blanked, line => DropMargin(line, margin.value))
    else blanked
  }

  /** `textwrap.dedent(text)` */
  function Dedent(text: string): string {
    Join(DedentLines(Split(text, '\n')), '\n')
  }

  // ---------------------------------------------------------------------
  // The four helpers

  /** `clean_code_output` after its first `strip()`. */
  function CleanStripped(code: string): string {
    Strip(Dedent(LineMap(Strip(LineMap(code, DropOpeningFence)), DropClosingFence)))
  }

  /** `clean_code_output(code)`: the fences at line starts and line ends go,
      then the text is dedented and stripped. */
  function CleanCodeOutput(code: string): (r: string)
    ensures Strip(r) == r
  {
    StripIdempotent(Dedent(LineMap(Strip(LineMap(Strip(code), DropOpeningFence)), DropClosingFence)));
    CleanStripped(Strip(code))
  }

  /** A fence begins at position j of s. */
  predicate FenceAt(s: string, j: nat) {
    j + 3 <= |s| && s[j] == '`' && s[j + 1] == '`' && s[j + 2] == '`'
  }

  /** The first fence at or after `from`: where the lazy `(.*?)` stops. */
  function NextFence(s: string, from: nat): (r: Option<nat>)
    ensures r.Some? ==> from <= r.value && FenceAt(s, r.value)
    decreases |s| - from
  {
    if from + 3 > |s| then None
    else if FenceAt(s, from) then Some(from)
    else NextFence(s, from + 1)
  }

  /** Where the code of a block opened at position i starts: after
      "```python\n" or after "```\n". */
  function OpeningAt(s: string, i: nat): (r: Option<nat>)
    ensures r.Some? ==> i + 4 <= r.value <= |s|
  {
    if FenceAt(s, i) && i + 10 <= |s| && s[i + 3..i + 10] == "python\n" then Some(i + 10)
    else if FenceAt(s, i) && i + 4 <= |s| && s[i + 3] == '\n' then Some(i + 4)
    else None
  }

  /** The block `(.*?)` captures when the pattern matches at position i:
      where its code starts and where its closing fence begins. */
  function BlockAt(s: string, i: nat): (r: Option<(nat, nat)>)
    ensures r.Some? ==> i + 4 <= r.value.0 <= r.value.1 && r.value.1 + 3 <= |s|
  {
    var start := OpeningAt(s, i);
    if start.Some? && NextFence(s, start.value).Some? then Some((start.value, NextFence(s, start.value).value))
    else None
  }

  /** `re.findall(r"```(?:python)?\n(.*?)```", s[i:], re.DOTALL)`: the code
      of every non-overlapping block, left to right. A block that opens but
      never closes does not match, and the search goes on one character later. */
  function FindBlocks(s: string, i: nat): seq<string>
    decreases |s| - i
  {
    if i >= |s| then []
    else
      var block := BlockAt(s, i);
      if block.Some? then [s[block.value.0..block.value.1]] + FindBlocks(s, block.value.1 + 3)
      else FindBlocks(s, i + 1)
  }

  /** `extract_code_blocks(text)` */
  function ExtractCodeBlocks(text: string): seq<string> {
    MapStrings(FindBlocks(text, 0), CleanCodeOutput)
  }

  /** `wrap_as_code_block(code, lang)` */
  function WrapAsCodeBlock(code: string, lang: string): string {
    Wrapped(Strip(code), lang)
  }

  /** The f-string of `wrap_as_code_block`, around code already stripped. */
  function Wrapped(t: string, lang: string): string {
    Fence + lang + "\n" + t + "\n" + Fence
  }

  /** `lines[:m]` with Python's slice bounds: a negative m counts from the end. */
  function PyPrefix(lines: seq<string>, m: int): (r: seq<string>)
    ensures r <= lines
  {
    if m >= |lines| then lines
    else if m >= 0 then lines[..m]
    else if |lines| + m >= 0 then lines[..|lines| + m]
    else []
  }

  /** `truncate_code(code, max_lines)`: the input itself when its stripped
      text has at most `max_lines` lines, else the first lines and "...". */
  function TruncateCode(code: string, maxLines: int): string {
    var lines := Split(Strip(code), '\n');
    if |lines| > maxLines then Join(PyPrefix(lines, maxLines), '\n') + "\n..." else code
  }

  /** The default `max_lines`. */
  const DefaultMaxLines := 50

  // ---------------------------------------------------------------------
  // Properties of the margin

  /** Each step of the margin loop is the longest common prefix. */
  lemma MarginStepIsCommonPrefix(margin: string, indent: string)
    ensures MarginStep(margin, indent) == CommonPrefix(margin, indent)
  {
    if margin <= indent {
      PrefixIsCommon(margin, indent);
    } else if indent <= margin {
      PrefixIsCommon(indent, margin);
      CommonPrefixSymmetric(indent, margin);
    }
  }

  lemma {:induction false} PrefixIsCommon(a: string, b: string)
    requires a <= b
    ensures CommonPrefix(a, b) == a
  {
    if a != [] {
      PrefixIsCommon(a[1..], b[1..]);
    }
  }

  lemma {:induction false} CommonPrefixSymmetric(a: string, b: string)
    ensures CommonPrefix(a, b) == CommonPrefix(b, a)
  {
    if a != [] && b != [] && a[0] == b[0] {
      CommonPrefixSymmetric(a[1..], b[1..]);
    }
  }

  lemma {:induction false} PrefixTransitive(a: string, b: string, c: string)
    requires a <= b && b <= c
    ensures a <= c
  {
    assert c[..|b|][..|a|] == c[..|a|];
  }

  /** There is a margin exactly when some line holds text. */
  lemma {:induction false} MarginExists(lines: seq<string>, n: nat)
    requires n <= |lines|
    ensures MarginUpTo(lines, n).Some? <==> exists i :: 0 <= i < n && HasText(lines[i])
  {
    if n > 0 {
      MarginExists(lines, n - 1);
    }
  }

  /** The margin is a prefix of the indent of every line that holds text. */
  lemma {:induction false} MarginIsCommonIndent(lines: seq<string>, n: nat, k: nat)
    requires k < n <= |lines| && HasText(lines[k])
    ensures MarginUpTo(lines, n).Some? && MarginUpTo(lines, n).value <= Indent(lines[k])
  {
    var m := MarginUpTo(lines, n - 1);
    var line := lines[n - 1];
    if k < n - 1 {
      MarginIsCommonIndent(lines, n - 1, k);
      if HasText(line) {
        var step := MarginStep(m.value, Indent(line));
        assert MarginUpTo(lines, n) == Some(step);
        MarginStepIsCommonPrefix(m.value, Indent(line));
        PrefixTransitive(step, m.value, Indent(lines[k]));
      } else {
        assert MarginUpTo(lines, n) == m;
      }
    } else if m.Some? {
      assert MarginUpTo(lines, n) == Some(MarginStep(m.value, Indent(line)));
      MarginStepIsCommonPrefix(m.value, Indent(line));
    } else {
      assert MarginUpTo(lines, n) == Some(Indent(line));
    }
  }

  /** A common prefix of two strings is a prefix of their longest common prefix. */
  lemma {:induction false} CommonPrefixGreatest(p: string, a: string, b: string)
    requires p <= a && p <= b
    ensures p <= CommonPrefix(a, b)
  {
    if p != [] {
      assert a[0] == p[0] && b[0] == p[0];
      CommonPrefixGreatest(p[1..], a[1..], b[1..]);
      assert CommonPrefix(a, b) == [a[0]] + CommonPrefix(a[1..], b[1..]);
    }
  }

  /** The margin is the longest common indent: every string that prefixes
      the indent of each line holding text also prefixes the margin. */
  lemma {:induction false} MarginIsLongest(lines: seq<string>, n: nat, p: string)
    requires n <= |lines| && MarginUpTo(lines, n).Some?
    requires forall i :: 0 <= i < n && HasText(lines[i]) ==> p <= Indent(lines[i])
    ensures p <= MarginUpTo(lines, n).value
  {
    var m := MarginUpTo(lines, n - 1);
    var line := lines[n - 1];
    if !HasText(line) {
      MarginIsLongest(lines, n - 1, p);
    } else if m.None? {
      assert p <= Indent(line);
    } else {
      MarginIsLongest(lines, n - 1, p);
      assert p <= Indent(line);
      MarginStepIsCommonPrefix(m.value, Indent(line));
      CommonPrefixGreatest(p, m.value, Indent(line));
    }
  }

  // ---------------------------------------------------------------------
  // Properties of dedent

  /** How many leading characters `dedent` removes from each line holding text. */
  function DedentWidth(lines: seq<string>): nat {
    var margin := Margin(MapStrings(lines, Blanked));
    if margin.Some? then |margin.value| else 0
  }

  /** One line of `dedent`'s output: a blank line becomes empty, and a line
      holding text loses exactly `DedentWidth` characters, all of them spaces
      or tabs. */
  lemma DedentLineAt(lines: seq<string>, i: nat)
    requires i < |lines|
    ensures |DedentLines(lines)| == |lines|
    ensures !HasText(lines[i]) ==> DedentLines(lines)[i] == ""
    ensures HasText(lines[i]) ==>
      DedentWidth(lines) <= IndentLength(lines[i]) && DedentLines(lines)[i] == lines[i][DedentWidth(lines)..]
  {
    var blanked := MapStrings(lines, Blanked);
    var margin := Margin(blanked);
    MapStringsAt(lines, Blanked, i);
    if HasText(lines[i]) {
      MarginIsCommonIndent(blanked, |blanked|, i);
      PrefixTransitive(margin.value, Indent(blanked[i]), blanked[i]);
    }
    if margin.Some? && margin.value != [] {
      var f := line => DropMargin(line, margin.value);
      MapStringsAt(blanked, f, i);
    }
  }

  /** `dedent` keeps the number of lines; it empties the blank lines and
      removes the same number of leading spaces and tabs from every other
      line. */
  lemma DedentKeepsLines(lines: seq<string>)
    ensures |DedentLines(lines)| == |lines|
    ensures forall i :: 0 <= i < |lines| && !HasText(lines[i]) ==> DedentLines(lines)[i] == ""
    ensures forall i :: 0 <= i < |lines| && HasText(lines[i]) ==>
      DedentWidth(lines) <= IndentLength(lines[i]) && DedentLines(lines)[i] == lines[i][DedentWidth(lines)..]
  {
    forall i | 0 <= i < |lines| {
      DedentLineAt(lines, i);
    }
    if lines == [] {
      assert MapStrings(lines, Blanked) == [];
    }
  }

  /** `dedent` removes the longest common indent: no string that prefixes
      the indent of every line holding text is longer than `DedentWidth`. */
  lemma DedentWidthIsLongest(lines: seq<string>, p: string, k: nat)
    requires k < |lines| && HasText(lines[k])
    requires forall i :: 0 <= i < |lines| && HasText(lines[i]) ==> p <= Indent(lines[i])
    ensures |p| <= DedentWidth(lines)
  {
    var blanked := MapStrings(lines, Blanked);
    forall i | 0 <= i < |blanked| && HasText(blanked[i])
      ensures p <= Indent(blanked[i])
    {
      MapStringsAt(lines, Blanked, i);
    }
    MapStringsAt(lines, Blanked, k);
    MarginIsCommonIndent(blanked, |blanked|, k);
    MarginIsLongest(blanked, |blanked|, p);
  }

  /** When some line holds text with no indent, `dedent` only empties the
      blank lines. */
  lemma DedentWithoutMargin(lines: seq<string>, k: nat)
    requires k < |lines| && HasText(lines[k]) && Indent(lines[k]) == []
    ensures DedentLines(lines) == MapStrings(lines, Blanked)
  {
    var blanked := MapStrings(lines, Blanked);
    MapStringsAt(lines, Blanked, k);
    MarginIsCommonIndent(blanked, |blanked|, k);
  }

  // ---------------------------------------------------------------------
  // Properties of wrap and clean

  /** The lines of a wrapped block: the opening fence line, the code's
      lines, the closing fence line. */
  lemma WrapLines(t: string, lang: string)
    requires '\n' !in lang
    ensures Split(Wrapped(t, lang), '\n') == [Fence + lang] + Split(t, '\n') + [Fence]
  {
    assert Wrapped(t, lang) == (Fence + lang) + ("\n" + (t + ("\n" + Fence)));
    assert '\n' !in Fence + lang by {
      assert forall c :: c in Fence + lang ==> c in Fence || c in lang;
    }
    SplitPrefix(Fence + lang, t + ("\n" + Fence), '\n');
    SplitSuffix(t, Fence, '\n');
  }

  /** Blank lines around a text make no difference once it is stripped. */
  lemma StripNewlines(x: string)
    ensures Strip("\n" + x + "\n") == Strip(x)
  {
    assert "\n" + x + "\n" == "\n" + (x + "\n");
    StripBlankPrefix("\n", x + "\n");
    StripBlankSuffix(x, "\n");
  }

  /** Removing the opening fences from a wrapped block leaves the code's own
      lines between two empty lines. */
  /** The opening-fence pass turns both fence lines of a wrapped block into
      empty lines and leaves the code's lines to itself. */
  lemma WrapMapped(t: string, lang: string)
    requires lang == "python" || lang == ""
    ensures MapStrings(Split(Wrapped(t, lang), '\n'), DropOpeningFence)
         == [""] + MapStrings(Split(t, '\n'), DropOpeningFence) + [""]
  {
    WrapLines(t, lang);
    var lines := Split(t, '\n');
    assert DropOpeningFence(Fence + lang) == "";
    assert DropOpeningFence(Fence) == "";
    assert MapStrings([Fence + lang], DropOpeningFence) == [""];
    assert MapStrings([Fence], DropOpeningFence) == [""];
    MapStringsConcat([Fence + lang] + lines, [Fence], DropOpeningFence);
    MapStringsConcat([Fence + lang], lines, DropOpeningFence);
  }

  /** Joining with an empty first and last line puts a newline at each end. */
  lemma JoinBetweenEmpty(inner: seq<string>)
    requires inner != []
    ensures Join([""] + inner + [""], '\n') == "\n" + Join(inner, '\n') + "\n"
  {
    JoinConcat([""] + inner, [""], '\n');
    JoinConcat([""], inner, '\n');
  }

  lemma WrapOpeningFences(t: string, lang: string)
    requires lang == "python" || lang == ""
    ensures Strip(LineMap(Strip(Wrapped(t, lang)), DropOpeningFence)) == Strip(LineMap(t, DropOpeningFence))
  {
    var w := Wrapped(t, lang);
    assert w[0] == '`' && w[|w| - 1] == '`';
    StripNonBlankEnds(w);
    var inner := MapStrings(Split(t, '\n'), DropOpeningFence);
    WrapMapped(t, lang);
    JoinBetweenEmpty(inner);
    StripNewlines(Join(inner, '\n'));
  }

  /** Cleaning a block wrapped with the "python" tag, or with none, gives what
      cleaning the bare code gives. */
  lemma CleanWrapRoundTrip(code: string, lang: string)
    requires lang == "python" || lang == ""
    ensures CleanCodeOutput(WrapAsCodeBlock(code, lang)) == CleanCodeOutput(code)
  {
    WrapOpeningFences(Strip(code), lang);
  }

  // ---------------------------------------------------------------------
  // Properties of extract

  /** The text holds no fence. */
  predicate NoFence(s: string) {
    forall j :: 0 <= j < |s| ==> !FenceAt(s, j)
  }

  /** `NextFence` finds the first fence. */
  lemma {:induction false} NextFenceFirst(s: string, from: nat, k: nat)
    requires from <= k && FenceAt(s, k)
    requires forall j :: from <= j < k ==> !FenceAt(s, j)
    ensures NextFence(s, from) == Some(k)
    decreases k - from
  {
    if from < k {
      NextFenceFirst(s, from + 1, k);
    }
  }

  /** Searching the second part of a concatenation is searching that part alone. */
  lemma {:induction false} FenceShift(a: string, b: string, j: nat)
    ensures FenceAt(a + b, |a| + j) == FenceAt(b, j)
  {
    if j + 3 <= |b| {
      assert (a + b)[|a| + j..|a| + j + 3] == b[j..j + 3];
    }
  }

  lemma {:induction false} NextFenceShift(a: string, b: string, from: nat)
    ensures NextFence(a + b, |a| + from) ==
      (if NextFence(b, from).Some? then Some(|a| + NextFence(b, from).value) else None)
    decreases |b| - from
  {
    FenceShift(a, b, from);
    if from + 3 <= |b| && !FenceAt(b, from) {
      NextFenceShift(a, b, from + 1);
    }
  }

  lemma {:induction false} OpeningShift(a: string, b: string, i: nat)
    ensures OpeningAt(a + b, |a| + i) ==
      (if OpeningAt(b, i).Some? then Some(|a| + OpeningAt(b, i).value) else None)
  {
    FenceShift(a, b, i);
    if i + 10 <= |b| {
      assert (a + b)[|a| + i + 3..|a| + i + 10] == b[i + 3..i + 10];
    }
    if i + 4 <= |b| {
      assert (a + b)[|a| + i + 3] == b[i + 3];
    }
  }

  lemma {:induction false} BlockShift(a: string, b: string, i: nat)
    ensures BlockAt(a + b, |a| + i) ==
      (if BlockAt(b, i).Some? then Some((|a| + BlockAt(b, i).value.0, |a| + BlockAt(b, i).value.1)) else None)
  {
    OpeningShift(a, b, i);
    var start := OpeningAt(b, i);
    if start.Some? {
      NextFenceShift(a, b, start.value);
    }
  }

  lemma {:induction false} SliceShift(a: string, b: string, i: nat, j: nat)
    requires i <= j <= |b|
    ensures (a + b)[|a| + i..|a| + j] == b[i..j]
  {
  }

  lemma {:induction false} FindBlocksShift(a: string, b: string, i: nat)
    ensures FindBlocks(a + b, |a| + i) == FindBlocks(b, i)
    decreases |b| - i
  {
    if i < |b| {
      BlockShift(a, b, i);
      var block := BlockAt(b, i);
      if block.Some? {
        var (start, close) := block.value;
        SliceShift(a, b, start, close);
        FindBlocksShift(a, b, close + 3);
      } else {
        FindBlocksShift(a, b, i + 1);
      }
    }
  }

  /** A "python" block opens at the head of a wrapped text. */
  lemma WrappedOpening(t: string, rest: string)
    ensures OpeningAt(Wrapped(t, "python") + rest, 0) == Some(10)
  {
    var s := Wrapped(t, "python") + rest;
    var head := Fence + "python" + "\n";
    assert s == head + (t + "\n" + Fence + rest);
    assert s[3..10] == head[3..10];
  }

  /** The first fence after the opening of a wrapped, fence-free snippet is
      its closing fence. */
  lemma WrappedClosing(t: string, rest: string)
    requires NoFence(t)
    ensures NextFence(Wrapped(t, "python") + rest, 10) == Some(10 + |t| + 1)
  {
    var s := Wrapped(t, "python") + rest;
    var close := 10 + |t| + 1;
    var head := Fence + "python" + "\n";
    assert s == head + t + "\n" + Fence + rest;
    assert s[close] == '`' && s[close + 1] == '`' && s[close + 2] == '`';
    forall j | 10 <= j < close ensures !FenceAt(s, j) {
      if j + 3 <= 10 + |t| {
        assert s[j] == t[j - 10] && s[j + 1] == t[j - 9] && s[j + 2] == t[j - 8];
        assert !FenceAt(t, j - 10);
      } else {
        assert s[10 + |t|] == '\n';
      }
    }
    NextFenceFirst(s, 10, close);
  }

  /** A wrapped block at the head of a text is the first block found, with
      the newline before its closing fence as its last character. */
  lemma FindWrappedBlock(t: string, rest: string)
    requires NoFence(t)
    ensures FindBlocks(Wrapped(t, "python") + rest, 0) == [t + "\n"] + FindBlocks(rest, 0)
  {
    var w := Wrapped(t, "python");
    var s := w + rest;
    var close := 10 + |t| + 1;
    WrappedOpening(t, rest);
    WrappedClosing(t, rest);
    assert BlockAt(s, 0) == Some((10, close));
    var head := Fence + "python" + "\n";
    assert s == head + t + "\n" + Fence + rest;
    assert s[10..close] == t + "\n";
    assert |w| == close + 3;
    FindBlocksShift(w, rest, 0);
  }

  /** Cleaning looks at the stripped text only. */
  lemma CleanSeesStripped(a: string, b: string)
    requires Strip(a) == Strip(b)
    ensures CleanCodeOutput(a) == CleanCodeOutput(b)
  {
  }

  /** The code of a wrapped block cleans to the bare code's cleaning. */
  lemma CleanBlockBody(code: string)
    ensures CleanCodeOutput(Strip(code) + "\n") == CleanCodeOutput(code)
  {
    var t := Strip(code);
    var nl := "\n";
    assert IsSpace(nl[0]);
    StripBlankSuffix(t, nl);
    StripIdempotent(code);
    CleanSeesStripped(t + nl, code);
  }

  /** Fence-free snippets wrapped one after the other. */
  function WrapAll(codes: seq<string>): string {
    if codes == [] then "" else WrapAsCodeBlock(codes[0], "python") + WrapAll(codes[1..])
  }

  /** Extracting from consecutive "python" blocks gives back every snippet,
      cleaned, in order. */
  lemma {:induction false} ExtractWrapped(codes: seq<string>)
    requires forall i :: 0 <= i < |codes| ==> NoFence(Strip(codes[i]))
    ensures ExtractCodeBlocks(WrapAll(codes)) == MapStrings(codes, CleanCodeOutput)
  {
    if codes != [] {
      var rest := WrapAll(codes[1..]);
      FindWrappedBlock(Strip(codes[0]), rest);
      ExtractWrapped(codes[1..]);
      CleanBlockBody(codes[0]);
    }
  }

  /** A text with no fence holds no block. */
  lemma {:induction false} NoFenceNoBlocks(s: string, i: nat)
    requires NoFence(s)
    ensures FindBlocks(s, i) == []
    decreases |s| - i
  {
    if i < |s| {
      NoFenceNoBlocks(s, i + 1);
    }
  }

  // ---------------------------------------------------------------------
  // Properties of truncate

  /** Truncation keeps the first lines of the stripped code and adds a
      "..." line; with a slice that keeps nothing, only "\n..." is left. */
  lemma TruncatedLines(code: string, maxLines: int)
    requires |Split(Strip(code), '\n')| > maxLines
    ensures var kept := PyPrefix(Split(Strip(code), '\n'), maxLines);
      if kept == [] then TruncateCode(code, maxLines) == "\n..."
      else Split(TruncateCode(code, maxLines), '\n') == kept + ["..."]
  {
    var lines := Split(Strip(code), '\n');
    var kept := PyPrefix(lines, maxLines);
    var dots := "...";
    var t := TruncateCode(code, maxLines);
    assert t == Join(kept, '\n') + (['\n'] + dots);
    if kept == [] {
      assert Join(kept, '\n') == [];
    } else {
      NoSeparatorInPrefix(lines, kept, '\n');
      SplitJoin(kept, '\n');
      assert '\n' !in dots;
      SplitSuffix(Join(kept, '\n'), dots, '\n');
    }
  }

  /** The leading lines of a split hold no separator either. */
  lemma NoSeparatorInPrefix(lines: seq<string>, kept: seq<string>, sep: char)
    requires kept <= lines
    requires forall i :: 0 <= i < |lines| ==> sep !in lines[i]
    ensures forall i :: 0 <= i < |kept| ==> sep !in kept[i]
  {
    forall i | 0 <= i < |kept| ensures sep !in kept[i] {
      assert kept[i] == lines[i];
    }
  }

  /** With 1 <= max_lines, the truncated text has exactly max_lines + 1 lines:
      the first max_lines lines of the stripped code, then "...". */
  lemma TruncateKeepsFirstLines(code: string, maxLines: int)
    requires 1 <= maxLines < |Split(Strip(code), '\n')|
    ensures |Split(TruncateCode(code, maxLines), '\n')| == maxLines + 1
    ensures Split(TruncateCode(code, maxLines), '\n') == Split(Strip(code), '\n')[..maxLines] + ["..."]
  {
    TruncatedLines(code, maxLines);
  }

  /** Code short enough comes back as it was given, unstripped. */
  lemma TruncateShortCode(code: string, maxLines: int)
    requires |Split(Strip(code), '\n')| <= maxLines
    ensures TruncateCode(code, maxLines) == code
  {
  }
}
