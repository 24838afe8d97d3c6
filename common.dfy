/** Shared vocabulary: optional values, Python exceptions and call outcomes,
    and the handful of Python `str` operations the core relies on
    (`strip`, `lower`, `split`, `join`, `in`, `str(int)`). */
module Common {

  datatype Option<+T> = None | Some(value: T)

  /** The exception classes the core raises or catches. Every one of them is a
      subclass of `Exception`; no other subclass relation among them matters here. */
  datatype ExcClass =
    Exception | RequestException | ValueError | KeyError | IndexError | TypeError | NameError | AttributeError

  datatype Exc = Exc(cls: ExcClass, message: string)

  /** Python's `isinstance(e, cls)` over the classes above. */
  predicate IsInstance(e: Exc, cls: ExcClass) {
    cls == Exception || e.cls == cls
  }

  /** What a Python call does: return a value or raise an exception. */
  datatype Outcome<+T> = Returned(value: T) | Raised(exc: Exc)

  // ---------------------------------------------------------------------
  // Characters

  /** Python's `str.isspace` (also what `\s` matches in a `str` pattern). */
  predicate IsSpace(c: char) {
    ('\t' <= c <= '\r') || ('\U{1C}' <= c <= '\U{1F}') || c == ' ' ||
    c == '\U{85}' || c == '\U{A0}' || c == '\U{1680}' ||
    ('\U{2000}' <= c <= '\U{200A}') || c == '\U{2028}' || c == '\U{2029}' ||
    c == '\U{202F}' || c == '\U{205F}' || c == '\U{3000}'
  }

  predicate IsDigit(c: char) { '0' <= c <= '9' }

  predicate IsUpper(c: char) { 'A' <= c <= 'Z' }

  function LowerChar(c: char): (r: char)
    ensures IsUpper(c) ==> r as int == c as int + 32
    ensures !IsUpper(c) ==> r == c
  {
    if IsUpper(c) then (c as int + 32) as char else c
  }

  /** `str.lower()` on ASCII letters; other characters are kept. */
  function Lower(s: string): (r: string)
    ensures |r| == |s|
    ensures forall i :: 0 <= i < |s| ==> r[i] == LowerChar(s[i])
  {
    seq(|s|, i requires 0 <= i < |s| => LowerChar(s[i]))
  }

  /** `s.replace(a, b)` for one character by one character. */
  function ReplaceChar(s: string, a: char, b: char): (r: string)
    ensures |r| == |s|
    ensures forall i :: 0 <= i < |s| ==> r[i] == (if s[i] == a then b else s[i])
  {
    seq(|s|, i requires 0 <= i < |s| => if s[i] == a then b else s[i])
  }

  // ---------------------------------------------------------------------
  // Stripping

  /** Drops the longest prefix whose characters all satisfy `drop`. */
  function TrimStart(s: string, drop: char -> bool): (r: string)
    ensures |r| <= |s| && r == s[|s| - |r|..]
    ensures r == [] || !drop(r[0])
  {
    if s != [] && drop(s[0]) then TrimStart(s[1..], drop) else s
  }

  /** Every character `TrimStart` dropped satisfies `drop`. */
  lemma {:induction false} TrimStartDropped(s: string, drop: char -> bool)
    ensures forall i :: 0 <= i < |s| - |TrimStart(s, drop)| ==> drop(s[i])
  {
    if s != [] && drop(s[0]) {
      TrimStartDropped(s[1..], drop);
      forall i | 1 <= i < |s| - |TrimStart(s, drop)| ensures drop(s[i]) {
        assert s[i] == s[1..][i - 1];
      }
    }
  }

  /** Drops the longest suffix whose characters all satisfy `drop`. */
  function TrimEnd(s: string, drop: char -> bool): (r: string)
    ensures |r| <= |s| && r == s[..|r|]
    ensures r == [] || !drop(r[|r| - 1])
  {
    if s != [] && drop(s[|s| - 1]) then TrimEnd(s[..|s| - 1], drop) else s
  }

  /** Every character `TrimEnd` dropped satisfies `drop`. */
  lemma {:induction false} TrimEndDropped(s: string, drop: char -> bool)
    ensures forall i :: |TrimEnd(s, drop)| <= i < |s| ==> drop(s[i])
  {
    if s != [] && drop(s[|s| - 1]) {
      TrimEndDropped(s[..|s| - 1], drop);
    }
  }

  /** `s.strip(chars)`, with the stripped characters given as a predicate:
      neither end of the result is droppable. */
  function StripBy(s: string, drop: char -> bool): (r: string)
    ensures |r| <= |s|
    ensures r == [] || (!drop(r[0]) && !drop(r[|r| - 1]))
  {
    TrimEnd(TrimStart(s, drop), drop)
  }

  /** `s.strip()`: neither end of the result is blank. */
  function Strip(s: string): (r: string)
    ensures |r| <= |s|
    ensures r == [] || (!IsSpace(r[0]) && !IsSpace(r[|r| - 1]))
  {
    StripBy(s, IsSpace)
  }

  /** A prefix made only of dropped characters disappears under `TrimStart`. */
  lemma {:induction false} TrimStartPrefix(ws: string, t: string, drop: char -> bool)
    requires forall i :: 0 <= i < |ws| ==> drop(ws[i])
    ensures TrimStart(ws + t, drop) == TrimStart(t, drop)
    decreases |ws|
  {
    if ws == [] {
      assert ws + t == t;
    } else {
      assert (ws + t)[0] == ws[0];
      assert (ws + t)[1..] == ws[1..] + t;
      TrimStartPrefix(ws[1..], t, drop);
    }
  }

  /** Leading blanks make no difference to `strip`. */
  lemma StripBlankPrefix(ws: string, t: string)
    requires forall i :: 0 <= i < |ws| ==> IsSpace(ws[i])
    ensures Strip(ws + t) == Strip(t)
  {
    TrimStartPrefix(ws, t, IsSpace);
  }

  /** Stripping is idempotent. */
  lemma StripIdempotent(s: string)
    ensures Strip(Strip(s)) == Strip(s)
  {
    var r := Strip(s);
    assert TrimStart(r, IsSpace) == r;
    assert TrimEnd(r, IsSpace) == r;
  }

  /** A suffix made only of dropped characters disappears under `TrimEnd`. */
  lemma {:induction false} TrimEndSuffix(t: string, ws: string, drop: char -> bool)
    requires forall i :: 0 <= i < |ws| ==> drop(ws[i])
    ensures TrimEnd(t + ws, drop) == TrimEnd(t, drop)
    decreases |ws|
  {
    if ws == [] {
      assert t + ws == t;
    } else {
      var n := |ws| - 1;
      assert (t + ws)[|t + ws| - 1] == ws[n];
      assert (t + ws)[..|t + ws| - 1] == t + ws[..n];
      TrimEndSuffix(t, ws[..n], drop);
    }
  }

  /** Once `TrimStart` stops inside `t`, what follows `t` is kept as it is. */
  lemma {:induction false} TrimStartAppend(t: string, u: string, drop: char -> bool)
    requires TrimStart(t, drop) != []
    ensures TrimStart(t + u, drop) == TrimStart(t, drop) + u
  {
    assert (t + u)[0] == t[0];
    if drop(t[0]) {
      assert TrimStart(t, drop) == TrimStart(t[1..], drop);
      assert (t + u)[1..] == t[1..] + u;
      TrimStartAppend(t[1..], u, drop);
    }
  }

  /** Trailing blanks make no difference to `strip`. */
  lemma StripBlankSuffix(t: string, ws: string)
    requires forall i :: 0 <= i < |ws| ==> IsSpace(ws[i])
    ensures Strip(t + ws) == Strip(t)
  {
    var t' := TrimStart(t, IsSpace);
    if t' == [] {
      TrimStartDropped(t, IsSpace);
      TrimStartPrefix(t, ws, IsSpace);
      TrimStartPrefix(ws, [], IsSpace);
      assert ws + [] == ws;
    } else {
      TrimStartAppend(t, ws, IsSpace);
      TrimEndSuffix(t', ws, IsSpace);
    }
  }

  /** A string whose ends are not blank is its own `strip`. */
  lemma StripNonBlankEnds(s: string)
    requires s != [] && !IsSpace(s[0]) && !IsSpace(s[|s| - 1])
    ensures Strip(s) == s
  {
  }

  // ---------------------------------------------------------------------
  // Searching

  /** `sub in s` */
  predicate Contains(s: string, sub: string)
    decreases |s|
  {
    sub <= s || (s != [] && Contains(s[1..], sub))
  }

  // ---------------------------------------------------------------------
  // split / join

  /** `s.split(sep)` for a one-character separator: never empty. */
  function Split(s: string, sep: char): (parts: seq<string>)
    ensures |parts| >= 1
    ensures forall i :: 0 <= i < |parts| ==> sep !in parts[i]
  {
    if s == [] then [""]
    else
      var rest := Split(s[1..], sep);
      if s[0] == sep then [""] + rest
      else [[s[0]] + rest[0]] + rest[1..]
  }

  /** `sep.join(parts)` for a one-character separator. */
  function Join(parts: seq<string>, sep: char): string {
    if parts == [] then ""
    else if |parts| == 1 then parts[0]
    else parts[0] + [sep] + Join(parts[1..], sep)
  }

  lemma {:induction false} JoinSplit(s: string, sep: char)
    ensures Join(Split(s, sep), sep) == s
  {
    if s != [] {
      var rest := Split(s[1..], sep);
      JoinSplit(s[1..], sep);
      if s[0] == sep {
        assert Split(s, sep) == [""] + rest;
      } else {
        var parts := Split(s, sep);
        assert parts == [[s[0]] + rest[0]] + rest[1..];
        if |rest| == 1 {
          assert parts == [[s[0]] + rest[0]];
        } else {
          assert parts[1..] == rest[1..];
          assert Join(rest, sep) == rest[0] + [sep] + Join(rest[1..], sep);
        }
      }
    }
  }

  lemma {:induction false} SplitJoin(parts: seq<string>, sep: char)
    requires |parts| >= 1
    requires forall i :: 0 <= i < |parts| ==> sep !in parts[i]
    ensures Split(Join(parts, sep), sep) == parts
  {
    if |parts| == 1 {
      SplitNoSep(parts[0], sep);
    } else {
      SplitJoin(parts[1..], sep);
      SplitPrefix(parts[0], Join(parts[1..], sep), sep);
      assert Join(parts, sep) == parts[0] + ([sep] + Join(parts[1..], sep));
    }
  }

  lemma {:induction false} SplitNoSep(s: string, sep: char)
    requires sep !in s
    ensures Split(s, sep) == [s]
  {
    if s != [] {
      assert s[0] in s && s[0] != sep;
      assert forall c :: c in s[1..] ==> c in s;
      SplitNoSep(s[1..], sep);
      assert [s[0]] + s[1..] == s;
    }
  }

  /** Splitting `a + sep + b`, where `a` has no separator, yields `a` followed by the pieces of `b`. */
  lemma {:induction false} SplitPrefix(a: string, b: string, sep: char)
    requires sep !in a
    ensures Split(a + ([sep] + b), sep) == [a] + Split(b, sep)
  {
    if a == [] {
      assert a + ([sep] + b) == [sep] + b;
      assert ([sep] + b)[1..] == b;
    } else {
      SplitPrefix(a[1..], b, sep);
      assert (a + ([sep] + b))[1..] == a[1..] + ([sep] + b);
      assert [a[0]] + a[1..] == a;
    }
  }

  /** Splitting `a + sep + b`, where `b` has no separator, yields the pieces of `a` followed by `b`. */
  lemma {:induction false} SplitSuffix(a: string, b: string, sep: char)
    requires sep !in b
    ensures Split(a + ([sep] + b), sep) == Split(a, sep) + [b]
  {
    if a == [] {
      assert a + ([sep] + b) == [sep] + b;
      assert ([sep] + b)[1..] == b;
      SplitNoSep(b, sep);
    } else {
      SplitSuffix(a[1..], b, sep);
      assert (a + ([sep] + b))[1..] == a[1..] + ([sep] + b);
    }
  }

  /** Joining two non-empty lists of pieces puts one separator between them. */
  lemma {:induction false} JoinConcat(a: seq<string>, b: seq<string>, sep: char)
    requires a != [] && b != []
    ensures Join(a + b, sep) == Join(a, sep) + [sep] + Join(b, sep)
  {
    if |a| == 1 {
      assert (a + b)[1..] == b;
    } else {
      JoinConcat(a[1..], b, sep);
      assert (a + b)[1..] == a[1..] + b;
    }
  }

  // ---------------------------------------------------------------------
  // Numbers

  function DigitChar(d: nat): (c: char)
    requires d < 10
    ensures IsDigit(c)
  {
    ('0' as int + d) as char
  }

  /** `str(n)` for a natural number: its decimal digits, no leading zeros. */
  function NatToString(n: nat): (r: string)
    ensures |r| >= 1
    ensures forall i :: 0 <= i < |r| ==> IsDigit(r[i])
    ensures n > 0 ==> r[0] != '0'
    ensures n == 0 <==> r == "0"
  {
    if n < 10 then [DigitChar(n)] else NatToString(n / 10) + [DigitChar(n % 10)]
  }

  /** `str(n)` for an integer. */
  function IntToString(n: int): (r: string)
    ensures |r| >= 1
    ensures n < 0 <==> r[0] == '-'
  {
    if n < 0 then "-" + NatToString(-n) else NatToString(n)
  }
}
