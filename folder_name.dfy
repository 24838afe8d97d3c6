/** `get_folder_name` (src/main.py): a project idea becomes a folder name of
    lower-case letters, digits and single underscores. Each regular
    expression is modelled as the scan it performs. */
module FolderName {
  import opened Common

  /** The class `[a-z0-9]`. */
  predicate IsAlnum(c: char) {
    'a' <= c <= 'z' || IsDigit(c)
  }

  /** What is left of a text once `[^a-z0-9]+` has consumed a run at its head. */
  function SkipRun(s: string): (r: string)
    ensures |r| <= |s|
    ensures r == [] || IsAlnum(r[0])
  {
    if s != [] && !IsAlnum(s[0]) then SkipRun(s[1..]) else s
  }

  /** `re.sub(r"[^a-z0-9]+", "_", s)`: every maximal run of other characters
      becomes one underscore. */
  function ReplaceRuns(s: string): string
    decreases |s|
  {
    if s == [] then []
    else if IsAlnum(s[0]) then [s[0]] + ReplaceRuns(s[1..])
    else "_" + ReplaceRuns(SkipRun(s[1..]))
  }

  /** What is left once `_+` has consumed a run of underscores at the head. */
  function SkipUnderscores(s: string): (r: string)
    ensures |r| <= |s|
  {
    if s != [] && s[0] == '_' then SkipUnderscores(s[1..]) else s
  }

  /** `re.sub(r"_+", "_", s)` */
  function CollapseUnderscores(s: string): string
    decreases |s|
  {
    if s == [] then []
    else if s[0] == '_' then "_" + CollapseUnderscores(SkipUnderscores(s[1..]))
    else [s[0]] + CollapseUnderscores(s[1..])
  }

  /** `s.lstrip("_")` */
  function TrimUnderscoresStart(s: string): string {
    if s != [] && s[0] == '_' then TrimUnderscoresStart(s[1..]) else s
  }

  /** `s.rstrip("_")` */
  function TrimUnderscoresEnd(s: string): string {
    if s != [] && s[|s| - 1] == '_' then TrimUnderscoresEnd(s[..|s| - 1]) else s
  }

  /** `get_folder_name(user_input)` */
  function GetFolderName(userInput: string): string {
    var name := Strip(Lower(userInput));
    TrimUnderscoresEnd(TrimUnderscoresStart(CollapseUnderscores(ReplaceRuns(name))))
  }

  // ---------------------------------------------------------------------
  // The reference: the maximal runs of letters and digits

  /** The maximal runs of `[a-z0-9]` characters of a text, left to right. */
  function Words(s: string): (ws: seq<string>)
    ensures s != [] && IsAlnum(s[0]) ==> ws != []
    ensures forall i :: 0 <= i < |ws| ==> ws[i] != []
  {
    if s == [] then []
    else
      var rest := Words(s[1..]);
      if !IsAlnum(s[0]) then rest
      else if |s| > 1 && IsAlnum(s[1]) then [[s[0]] + rest[0]] + rest[1..]
      else [[s[0]]] + rest
  }

  /** A folder name as the source's comments describe it: the runs of
      letters and digits, joined by single underscores. */
  function JoinWords(ws: seq<string>): string {
    Join(ws, '_')
  }

  /** A word of `Words` holds only letters and digits. */
  lemma {:induction false} WordsAlnum(s: string)
    ensures forall i, j :: 0 <= i < |Words(s)| && 0 <= j < |Words(s)[i]| ==> IsAlnum(Words(s)[i][j])
  {
    if s != [] {
      WordsAlnum(s[1..]);
      var rest := Words(s[1..]);
      if IsAlnum(s[0]) && |s| > 1 && IsAlnum(s[1]) {
        var ws := Words(s);
        forall j | 0 <= j < |ws[0]| ensures IsAlnum(ws[0][j]) {
          if j > 0 {
            assert ws[0][j] == rest[0][j - 1];
          }
        }
        assert forall i :: 1 <= i < |ws| ==> ws[i] == rest[i];
      } else if IsAlnum(s[0]) {
        assert forall i :: 1 <= i < |Words(s)| ==> Words(s)[i] == rest[i - 1];
      }
    }
  }

  /** There are no words exactly when the text has no letter or digit. */
  lemma {:induction false} NoWords(s: string)
    ensures Words(s) == [] <==> forall i :: 0 <= i < |s| ==> !IsAlnum(s[i])
  {
    if s != [] {
      NoWords(s[1..]);
      assert forall i :: 1 <= i < |s| ==> s[i] == s[1..][i - 1];
    }
  }

  /** The letters and digits of a text, in order. */
  function Alnums(s: string): string {
    if s == [] then [] else (if IsAlnum(s[0]) then [s[0]] else []) + Alnums(s[1..])
  }

  function Concat(ws: seq<string>): string {
    if ws == [] then [] else ws[0] + Concat(ws[1..])
  }

  /** The words hold every letter and digit of the text, in order. */
  lemma {:induction false} WordsKeepAlnums(s: string)
    ensures Concat(Words(s)) == Alnums(s)
  {
    if s != [] {
      WordsKeepAlnums(s[1..]);
      var rest := Words(s[1..]);
      if IsAlnum(s[0]) && |s| > 1 && IsAlnum(s[1]) {
        var ws := Words(s);
        assert ws[1..] == rest[1..];
        assert Concat(rest) == rest[0] + Concat(rest[1..]);
      } else if IsAlnum(s[0]) {
        assert Words(s)[1..] == rest;
      }
    }
  }

  // ---------------------------------------------------------------------
  // The substitutions against the reference

  /** A run of underscores at either end, or none. */
  function Edge(present: bool): string {
    if present then "_" else ""
  }

  /** The text starts with a run of characters other than letters and digits. */
  predicate LeadingRun(s: string) {
    s != [] && !IsAlnum(s[0])
  }

  /** The text ends with such a run, after at least one word. */
  predicate TrailingRun(s: string) {
    s != [] && !IsAlnum(s[|s| - 1]) && Words(s) != []
  }

  /** The joined words, with one underscore for a leading and one for a
      trailing run. */
  function RunShape(s: string): string {
    Edge(LeadingRun(s)) + JoinWords(Words(s)) + Edge(TrailingRun(s))
  }

  /** The replaced text is the joined words, with one underscore in front
      when the text starts with a run of other characters and one behind
      when it ends with one after a word. */
  lemma {:induction false} ReplaceRunsShape(s: string)
    ensures ReplaceRuns(s) == RunShape(s)
    decreases |s|
  {
    if s == [] {
    } else if !IsAlnum(s[0]) {
      ReplaceRunsShape(SkipRun(s[1..]));
      ShapeAfterRun(s);
    } else {
      ReplaceRunsShape(s[1..]);
      ShapeAfterAlnum(s);
    }
  }

  /** The step of `ReplaceRunsShape` for a text starting with a run. */
  lemma ShapeAfterRun(s: string)
    requires s != [] && !IsAlnum(s[0])
    requires ReplaceRuns(SkipRun(s[1..])) == RunShape(SkipRun(s[1..]))
    ensures ReplaceRuns(s) == RunShape(s)
  {
    var y := SkipRun(s[1..]);
    SkipRunWords(s[1..]);
    assert Words(s) == Words(s[1..]) == Words(y);
    var w := JoinWords(Words(y));
    assert RunShape(y) == w + Edge(TrailingRun(y)) by {
      assert !LeadingRun(y);
      assert Edge(false) + w == w;
    }
    assert TrailingRun(s) == TrailingRun(y) by {
      if y != [] {
        SkipRunSuffix(s[1..]);
        assert s[|s| - 1] == y[|y| - 1];
      }
    }
    calc {
      ReplaceRuns(s);
      "_" + ReplaceRuns(y);
      "_" + (w + Edge(TrailingRun(s)));
      Edge(LeadingRun(s)) + w + Edge(TrailingRun(s));
    }
  }

  /** The step of `ReplaceRunsShape` for a text starting with a letter or digit. */
  lemma ShapeAfterAlnum(s: string)
    requires s != [] && IsAlnum(s[0])
    requires ReplaceRuns(s[1..]) == RunShape(s[1..])
    ensures ReplaceRuns(s) == RunShape(s)
  {
    var t := s[1..];
    assert ReplaceRuns(s) == [s[0]] + RunShape(t);
    assert RunShape(s) == JoinWords(Words(s)) + Edge(TrailingRun(s));
    if t == [] {
      assert Words(s) == [[s[0]]];
    } else if IsAlnum(t[0]) {
      WordExtends(s);
    } else {
      WordEnds(s);
    }
  }

  /** A letter or digit followed by another extends the first word. */
  lemma {:induction false} WordExtends(s: string)
    requires |s| > 1 && IsAlnum(s[0]) && IsAlnum(s[1])
    ensures [s[0]] + RunShape(s[1..]) == JoinWords(Words(s)) + Edge(TrailingRun(s))
  {
    var t := s[1..];
    var rest := Words(t);
    assert Words(s) == [[s[0]] + rest[0]] + rest[1..];
    JoinConsHead(s[0], rest);
    assert s[|s| - 1] == t[|t| - 1];
    assert TrailingRun(s) == TrailingRun(t);
    assert !LeadingRun(t);
    assert RunShape(t) == JoinWords(rest) + Edge(TrailingRun(t));
  }

  /** A letter or digit followed by another character is a word of its own. */
  lemma WordEnds(s: string)
    requires |s| > 1 && IsAlnum(s[0]) && !IsAlnum(s[1])
    ensures [s[0]] + RunShape(s[1..]) == JoinWords(Words(s)) + Edge(TrailingRun(s))
  {
    if Words(s[1..]) == [] {
      LastWord(s);
    } else {
      WordBeforeMore(s);
    }
  }

  /** ... and the last one when no letter or digit follows. */
  lemma LastWord(s: string)
    requires |s| > 1 && IsAlnum(s[0]) && !IsAlnum(s[1]) && Words(s[1..]) == []
    ensures [s[0]] + RunShape(s[1..]) == JoinWords(Words(s)) + Edge(TrailingRun(s))
  {
    var t := s[1..];
    assert Words(s) == [[s[0]]];
    NoWords(t);
    assert s[|s| - 1] == t[|t| - 1];
    assert TrailingRun(s);
    assert LeadingRun(t) && !TrailingRun(t);
    assert RunShape(t) == "_";
  }

  lemma WordBeforeMore(s: string)
    requires |s| > 1 && IsAlnum(s[0]) && !IsAlnum(s[1]) && Words(s[1..]) != []
    ensures [s[0]] + RunShape(s[1..]) == JoinWords(Words(s)) + Edge(TrailingRun(s))
  {
    var t := s[1..];
    var rest := Words(t);
    assert Words(s) == [[s[0]]] + rest;
    assert s[|s| - 1] == t[|t| - 1];
    assert LeadingRun(t);
    assert TrailingRun(s) == TrailingRun(t);
    JoinConcat([[s[0]]], rest, '_');
    assert JoinWords(Words(s)) == [s[0]] + "_" + JoinWords(rest);
  }

  lemma {:induction false} SkipRunWords(s: string)
    ensures Words(SkipRun(s)) == Words(s)
  {
    if s != [] && !IsAlnum(s[0]) {
      SkipRunWords(s[1..]);
    }
  }

  lemma {:induction false} SkipRunSuffix(s: string)
    ensures SkipRun(s) == s[|s| - |SkipRun(s)|..]
  {
    if s != [] && !IsAlnum(s[0]) {
      SkipRunSuffix(s[1..]);
    }
  }

  lemma {:induction false} JoinConsHead(c: char, ws: seq<string>)
    requires ws != []
    ensures Join([[c] + ws[0]] + ws[1..], '_') == [c] + Join(ws, '_')
  {
    var vs := [[c] + ws[0]] + ws[1..];
    assert vs[1..] == ws[1..];
  }

  /** Joined words (non-empty, made of letters and digits) start and end
      with a letter or digit and never hold two underscores in a row. */
  lemma {:induction false} JoinWordsShape(ws: seq<string>)
    requires forall i :: 0 <= i < |ws| ==> ws[i] != []
    requires forall i, j :: 0 <= i < |ws| && 0 <= j < |ws[i]| ==> IsAlnum(ws[i][j])
    ensures var r := JoinWords(ws);
      (ws == [] <==> r == []) &&
      (r != [] ==> IsAlnum(r[0]) && IsAlnum(r[|r| - 1])) &&
      (forall i :: 0 <= i < |r| ==> IsAlnum(r[i]) || r[i] == '_') &&
      (forall i :: 0 <= i < |r| - 1 ==> r[i] != '_' || r[i + 1] != '_')
  {
    if |ws| > 1 {
      JoinWordsShape(ws[1..]);
      var tail := JoinWords(ws[1..]);
      var r := JoinWords(ws);
      assert r == ws[0] + ("_" + tail);
      forall i | 0 <= i < |r| ensures IsAlnum(r[i]) || r[i] == '_' {
        if i > |ws[0]| {
          assert r[i] == tail[i - |ws[0]| - 1];
        }
      }
      forall i | 0 <= i < |r| - 1 ensures r[i] != '_' || r[i + 1] != '_' {
        if i > |ws[0]| {
          assert r[i] == tail[i - |ws[0]| - 1];
          assert r[i + 1] == tail[i - |ws[0]|];
        }
      }
    }
  }

  /** Collapsing underscores changes nothing when no two are adjacent. */
  lemma {:induction false} CollapseNoDouble(s: string)
    requires forall i :: 0 <= i < |s| - 1 ==> s[i] != '_' || s[i + 1] != '_'
    ensures CollapseUnderscores(s) == s
  {
    if s != [] {
      CollapseNoDouble(s[1..]);
      if s[0] == '_' {
        assert SkipUnderscores(s[1..]) == s[1..];
      }
    }
  }

  lemma TrimLeadingEdge(lead: bool, x: string)
    requires x == [] || x[0] != '_'
    ensures TrimUnderscoresStart(Edge(lead) + x) == x
  {
    if lead {
      assert (Edge(lead) + x)[1..] == x;
    } else {
      assert Edge(lead) + x == x;
    }
  }

  lemma {:induction false} TrimTrailingEdge(x: string, trail: bool)
    requires x == [] || x[|x| - 1] != '_'
    ensures TrimUnderscoresEnd(x + Edge(trail)) == x
  {
    assert TrimUnderscoresEnd(x) == x;
    if trail {
      var y := x + "_";
      assert y[|y| - 1] == '_';
      assert y[..|y| - 1] == x;
    } else {
      assert x + Edge(trail) == x;
    }
  }

  /** Stripping underscores from "_"-edged joined words leaves the words. */
  lemma StripEdges(lead: bool, core: string, trail: bool)
    requires core == [] ==> !trail
    requires core != [] ==> core[0] != '_' && core[|core| - 1] != '_'
    ensures TrimUnderscoresEnd(TrimUnderscoresStart(Edge(lead) + core + Edge(trail))) == core
  {
    var x := core + Edge(trail);
    assert Edge(lead) + core + Edge(trail) == Edge(lead) + x;
    TrimLeadingEdge(lead, x);
    TrimTrailingEdge(core, trail);
  }

  /** Blanks stripped from either end carry no letter or digit. */
  lemma {:induction false} WordsDropLeadingBlank(s: string)
    ensures Words(TrimStart(s, IsSpace)) == Words(s)
  {
    if s != [] && IsSpace(s[0]) {
      WordsDropLeadingBlank(s[1..]);
    }
  }

  lemma {:induction false} WordsAppendOther(s: string, c: char)
    requires !IsAlnum(c)
    ensures Words(s + [c]) == Words(s)
  {
    if s == [] {
      assert Words([c]) == Words([]);
    } else {
      WordsAppendOther(s[1..], c);
      assert (s + [c])[1..] == s[1..] + [c];
    }
  }

  lemma {:induction false} WordsDropTrailingBlank(s: string)
    ensures Words(TrimEnd(s, IsSpace)) == Words(s)
  {
    if s != [] && IsSpace(s[|s| - 1]) {
      var init := s[..|s| - 1];
      WordsDropTrailingBlank(init);
      WordsAppendOther(init, s[|s| - 1]);
      assert init + [s[|s| - 1]] == s;
    }
  }

  /** Stripping blanks keeps the words. */
  lemma WordsOfStripped(s: string)
    ensures Words(Strip(s)) == Words(s)
  {
    WordsDropLeadingBlank(s);
    WordsDropTrailingBlank(TrimStart(s, IsSpace));
  }

  /** The substitutions and the final strip turn any text into its joined words. */
  lemma SubstitutionsJoinWords(name: string)
    ensures TrimUnderscoresEnd(TrimUnderscoresStart(CollapseUnderscores(ReplaceRuns(name))))
         == JoinWords(Words(name))
  {
    var ws := Words(name);
    WordsAlnum(name);
    JoinWordsShape(ws);
    ReplaceRunsShape(name);
    var lead, trail := LeadingRun(name), TrailingRun(name);
    NoDoubleAcrossEdges(lead, JoinWords(ws), trail);
    CollapseNoDouble(ReplaceRuns(name));
    StripEdges(lead, JoinWords(ws), trail);
  }

  /** `get_folder_name` is the lower-cased input's runs of letters and
      digits, joined by single underscores. */
  lemma FolderNameIsJoinedWords(userInput: string)
    ensures GetFolderName(userInput) == JoinWords(Words(Lower(userInput)))
  {
    SubstitutionsJoinWords(Strip(Lower(userInput)));
    WordsOfStripped(Lower(userInput));
  }

  lemma NoDoubleAcrossEdges(lead: bool, core: string, trail: bool)
    requires core == [] ==> !trail
    requires core != [] ==> core[0] != '_' && core[|core| - 1] != '_'
    requires forall i :: 0 <= i < |core| - 1 ==> core[i] != '_' || core[i + 1] != '_'
    ensures var e := Edge(lead) + core + Edge(trail);
      forall i :: 0 <= i < |e| - 1 ==> e[i] != '_' || e[i + 1] != '_'
  {
    var e := Edge(lead) + core + Edge(trail);
    var k := |Edge(lead)|;
    forall i | 0 <= i < |e| - 1 ensures e[i] != '_' || e[i + 1] != '_' {
      if k <= i && i + 1 < k + |core| {
        assert e[i] == core[i - k] && e[i + 1] == core[i + 1 - k];
      } else if i + 1 == k {
        assert e[i + 1] == core[0];
      } else {
        assert e[i] == core[|core| - 1];
      }
    }
  }

  /** The folder name holds only `[a-z0-9_]`, never two underscores in a
      row, and neither starts nor ends with an underscore. */
  lemma FolderNameShape(userInput: string)
    ensures var r := GetFolderName(userInput);
      (forall i :: 0 <= i < |r| ==> IsAlnum(r[i]) || r[i] == '_') &&
      (forall i :: 0 <= i < |r| - 1 ==> r[i] != '_' || r[i + 1] != '_') &&
      (r != [] ==> r[0] != '_' && r[|r| - 1] != '_')
  {
    FolderNameIsJoinedWords(userInput);
    WordsAlnum(Lower(userInput));
    JoinWordsShape(Words(Lower(userInput)));
  }

  /** The letters and digits of the lower-cased input are exactly those of
      the folder name, in order. */
  lemma FolderNameKeepsAlnums(userInput: string)
    ensures Alnums(GetFolderName(userInput)) == Alnums(Lower(userInput))
  {
    FolderNameIsJoinedWords(userInput);
    var ws := Words(Lower(userInput));
    WordsKeepAlnums(Lower(userInput));
    WordsAlnum(Lower(userInput));
    JoinAlnums(ws);
  }

  lemma {:induction false} AlnumsConcat(a: string, b: string)
    ensures Alnums(a + b) == Alnums(a) + Alnums(b)
  {
    if a != [] {
      AlnumsConcat(a[1..], b);
      assert (a + b)[1..] == a[1..] + b;
    } else {
      assert a + b == b;
    }
  }

  lemma {:induction false} AlnumsOfWord(w: string)
    requires forall j :: 0 <= j < |w| ==> IsAlnum(w[j])
    ensures Alnums(w) == w
  {
    if w != [] {
      AlnumsOfWord(w[1..]);
    }
  }

  lemma {:induction false} JoinAlnums(ws: seq<string>)
    requires forall i, j :: 0 <= i < |ws| && 0 <= j < |ws[i]| ==> IsAlnum(ws[i][j])
    ensures Alnums(JoinWords(ws)) == Concat(ws)
  {
    if ws != [] {
      var w := ws[0];
      assert forall j :: 0 <= j < |w| ==> IsAlnum(w[j]);
      AlnumsOfWord(w);
      if |ws| == 1 {
        assert Concat(ws) == w + Concat([]);
        assert JoinWords(ws) == w;
      } else {
        var tail := ws[1..];
        assert forall i, j :: 0 <= i < |tail| && 0 <= j < |tail[i]| ==> IsAlnum(tail[i][j]) by {
          assert forall i :: 0 <= i < |tail| ==> tail[i] == ws[i + 1];
        }
        JoinAlnums(tail);
        assert JoinWords(ws) == (w + "_") + JoinWords(tail);
        AlnumsConcat(w + "_", JoinWords(tail));
        AlnumsConcat(w, "_");
        assert Alnums("_") == [];
        assert Alnums(w + "_") == w;
        assert Concat(ws) == w + Concat(tail);
      }
    }
  }

  /** An input without any letter or digit gives the empty name. */
  lemma FolderNameEmpty(userInput: string)
    requires forall i :: 0 <= i < |userInput| ==> !IsAlnum(LowerChar(userInput[i]))
    ensures GetFolderName(userInput) == ""
  {
    FolderNameIsJoinedWords(userInput);
    NoWords(Lower(userInput));
  }
}
