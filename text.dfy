/** The Python string operations that the formatting code relies on, on `seq<char>`:
    whitespace splitting (`str.split()`), splitting on one character (`str.split(c)`),
    joining, stripping, prefix tests, `html.escape` and decimal rendering of integers. */
module Text {

  import opened Wrappers

  /** Python's `str.isspace` on one character: the characters `str.split()` and
      `str.strip()` treat as whitespace. */
  predicate IsSpace(c: char) {
    c == ' ' || ('\t' <= c <= '\r') || ('\U{1c}' <= c <= '\U{1f}')
    || c == '\U{85}' || c == '\U{a0}' || c == '\U{1680}'
    || ('\U{2000}' <= c <= '\U{200a}') || c == '\U{2028}' || c == '\U{2029}'
    || c == '\U{202f}' || c == '\U{205f}' || c == '\U{3000}'
  }

  /** A word of `str.split()`: non-empty and free of whitespace. */
  predicate IsWord(w: string) {
    w != [] && forall k :: 0 <= k < |w| ==> !IsSpace(w[k])
  }

  predicate IsBlank(s: string) {
    forall k :: 0 <= k < |s| ==> IsSpace(s[k])
  }

  predicate StartsWith(s: string, prefix: string) {
    |prefix| <= |s| && s[..|prefix|] == prefix
  }

  /** Length of the longest whitespace-free prefix of `s`. */
  function WordLength(s: string): (n: nat)
    ensures n <= |s|
    ensures forall k :: 0 <= k < n ==> !IsSpace(s[k])
    ensures n < |s| ==> IsSpace(s[n])
  {
    if s == [] || IsSpace(s[0]) then 0 else 1 + WordLength(s[1..])
  }

  /** Python's slice `s[:n]`, on any sequence. */
  function Take<T>(s: seq<T>, n: nat): (r: seq<T>)
    ensures |r| == if |s| <= n then |s| else n
    ensures r == s[..|r|]
  {
    if |s| <= n then s else s[..n]
  }

  /** Python's `s.split()`: the maximal whitespace-free runs of `s`, in order. */
  function Words(s: string): (ws: seq<string>)
    ensures forall i :: 0 <= i < |ws| ==> IsWord(ws[i])
    decreases |s|
  {
    if s == [] then []
    else if IsSpace(s[0]) then Words(s[1..])
    else
      var n := WordLength(s);
      [s[..n]] + Words(s[n..])
  }

  /** Python's `sep.join(ws)`. */
  function Join(ws: seq<string>, sep: string): string {
    if |ws| == 0 then ""
    else if |ws| == 1 then ws[0]
    else ws[0] + sep + Join(ws[1..], sep)
  }

  /** Python's `"".join(ws)`. */
  function Concat(ws: seq<string>): string {
    if ws == [] then "" else ws[0] + Concat(ws[1..])
  }

  /** Index of the first `c` in `s`, or `|s|` when there is none. */
  function IndexOf(s: string, c: char): (i: nat)
    ensures i <= |s|
    ensures i < |s| ==> s[i] == c
    ensures forall k :: 0 <= k < i ==> s[k] != c
  {
    if s == [] || s[0] == c then 0 else 1 + IndexOf(s[1..], c)
  }

  /** Python's `s.split(c)` for a one-character separator: never empty, and
      `"".split(c) == [""]`. */
  function SplitOn(s: string, c: char): (parts: seq<string>)
    ensures |parts| >= 1
    ensures forall i :: 0 <= i < |parts| ==> c !in parts[i]
    decreases |s|
  {
    var i := IndexOf(s, c);
    if i == |s| then [s] else [s[..i]] + SplitOn(s[i + 1..], c)
  }

  /** `s` without its leading whitespace. */
  function TrimStart(s: string): (r: string)
    ensures |r| <= |s| && r == s[|s| - |r|..]
    ensures r != [] ==> !IsSpace(r[0])
  {
    if s != [] && IsSpace(s[0]) then TrimStart(s[1..]) else s
  }

  /** `s` without its trailing whitespace. */
  function TrimEnd(s: string): (r: string)
    ensures |r| <= |s| && r == s[..|r|]
    ensures r != [] ==> !IsSpace(r[|r| - 1])
  {
    if s != [] && IsSpace(s[|s| - 1]) then TrimEnd(s[..|s| - 1]) else s
  }

  /** Python's `s.strip()`. */
  function Strip(s: string): string {
    TrimStart(TrimEnd(s))
  }

  /** Python's `html.escape(s)` (with its default `quote=True`). */
  function HtmlEscape(s: string): string {
    if s == [] then ""
    else EscapeChar(s[0]) + HtmlEscape(s[1..])
  }

  function EscapeChar(c: char): string {
    if c == '&' then "&amp;"
    else if c == '<' then "&lt;"
    else if c == '>' then "&gt;"
    else if c == '"' then "&quot;"
    else if c == '\'' then "&#x27;"
    else [c]
  }

  // ----- decimal rendering of integers -----

  predicate IsDigit(c: char) {
    '0' <= c <= '9'
  }

  predicate AllDigits(s: string) {
    forall k :: 0 <= k < |s| ==> IsDigit(s[k])
  }

  function DigitChar(d: nat): char
    requires d < 10
  {
    "0123456789"[d]
  }

  /** `str(n)` for a natural number. */
  function NatText(n: nat): (s: string)
    ensures s != [] && AllDigits(s)
  {
    if n < 10 then [DigitChar(n)] else NatText(n / 10) + [DigitChar(n % 10)]
  }

  /** `str(i)` for any integer. */
  function IntText(i: int): (s: string)
    ensures s != [] && (s[0] == '-' || IsDigit(s[0]))
  {
    if i < 0 then "-" + NatText(-i) else NatText(i)
  }

  /** `f"{i:02d}"`: at least two characters, zero-padded; the sign counts toward
      the width, so a negative number is never padded. */
  function Pad2(i: int): string {
    if 0 <= i < 10 then "0" + NatText(i) else IntText(i)
  }

  /** The value of a string of decimal digits (the inverse of `NatText`). */
  function DigitsValue(s: string): nat
    requires AllDigits(s)
  {
    if s == [] then 0
    else DigitsValue(s[..|s| - 1]) * 10 + (s[|s| - 1] as int - '0' as int)
  }

  /** Python's `int(s)` restricted to plain digit strings. */
  function ParseNat(s: string): (r: Option<nat>)
    ensures r.Some? <==> s != [] && AllDigits(s)
  {
    if s != [] && AllDigits(s) then Some(DigitsValue(s)) else None
  }

  // ----- lemmas -----

  lemma {:induction false} NatTextRoundTrip(n: nat)
    ensures DigitsValue(NatText(n)) == n
  {
    if n >= 10 {
      var s := NatText(n);
      assert s[..|s| - 1] == NatText(n / 10);
      NatTextRoundTrip(n / 10);
    }
  }

  lemma Pad2RoundTrip(m: nat)
    requires m < 100
    ensures AllDigits(Pad2(m)) && DigitsValue(Pad2(m)) == m
    ensures |Pad2(m)| == 2
  {
    NatTextRoundTrip(m);
    if m >= 10 {
      assert NatText(m) == NatText(m / 10) + [DigitChar(m % 10)];
    }
    if m < 10 {
      var s := Pad2(m);
      assert s[..|s| - 1] == "0";
      assert DigitsValue("0") == 0 by {
        assert "0"[..0] == [];
      }
    }
  }

  lemma DigitsHaveNoChar(s: string, c: char)
    requires AllDigits(s) && !IsDigit(c)
    ensures c !in s
  {
  }

  /** Splitting `a + [c] + b` on `c` when `a` holds no `c`: `a` is the first part. */
  lemma SplitOnCons(a: string, c: char, b: string)
    requires c !in a
    ensures SplitOn(a + [c] + b, c) == [a] + SplitOn(b, c)
  {
    var s := a + [c] + b;
    var i := IndexOf(s, c);
    assert s[|a|] == c;
    forall k | 0 <= k < |a| ensures s[k] != c {
      assert s[k] == a[k];
    }
    assert i == |a|;
    assert s[..i] == a;
    assert s[i + 1..] == b;
  }

  lemma SplitOnNone(a: string, c: char)
    requires c !in a
    ensures SplitOn(a, c) == [a]
  {
  }

  /** Joining whitespace-free words with single spaces and splitting again on
      whitespace gives back the words. */
  lemma {:induction false} WordsOfJoin(ws: seq<string>)
    requires forall i :: 0 <= i < |ws| ==> IsWord(ws[i])
    ensures Words(Join(ws, " ")) == ws
  {
    if |ws| == 1 {
      WordsOfWordThen(ws[0], "");
      assert ws[0] + "" == ws[0];
    } else if |ws| >= 2 {
      var rest := Join(ws[1..], " ");
      WordsOfJoin(ws[1..]);
      WordsOfWordThen(ws[0], " " + rest);
      assert ws[0] + " " + rest == ws[0] + (" " + rest);
      assert Words(" " + rest) == Words(rest) by {
        assert (" " + rest)[1..] == rest;
      }
    }
  }

  /** A word followed by text that is empty or starts with whitespace:
      the word is the first element of the split. */
  lemma WordsOfWordThen(w: string, t: string)
    requires IsWord(w)
    requires t == [] || IsSpace(t[0])
    ensures Words(w + t) == [w] + Words(t)
  {
    var s := w + t;
    WordLengthOfWordThen(w, t);
    assert s[..|w|] == w;
    assert s[|w|..] == t;
  }

  lemma {:induction false} WordLengthOfWordThen(w: string, t: string)
    requires forall k :: 0 <= k < |w| ==> !IsSpace(w[k])
    requires t == [] || IsSpace(t[0])
    ensures WordLength(w + t) == |w|
  {
    if w != [] {
      assert (w + t)[1..] == w[1..] + t;
      WordLengthOfWordThen(w[1..], t);
    }
  }

  /** Appending a text `t` to a join appends it to the last element. */
  lemma {:induction false} JoinAppend(ws: seq<string>, sep: string, t: string)
    requires |ws| >= 1
    ensures Join(ws, sep) + t == Join(ws[..|ws| - 1] + [ws[|ws| - 1] + t], sep)
  {
    if |ws| >= 2 {
      JoinAppend(ws[1..], sep, t);
      var ws' := ws[..|ws| - 1] + [ws[|ws| - 1] + t];
      assert ws'[1..] == ws[1..][..|ws[1..]| - 1] + [ws[1..][|ws[1..]| - 1] + t];
    }
  }

  /** Joining the parts of a split with the separator gives back the text. */
  lemma {:induction false} JoinSplitOn(s: string, c: char)
    ensures Join(SplitOn(s, c), [c]) == s
    decreases |s|
  {
    var i := IndexOf(s, c);
    if i < |s| {
      var rest := s[i + 1..];
      JoinSplitOn(rest, c);
      var tail := SplitOn(rest, c);
      var parts := SplitOn(s, c);
      assert parts == [s[..i]] + tail;
      assert parts[0] == s[..i] && parts[1..] == tail && |parts| >= 2;
      assert Join(parts, [c]) == s[..i] + [c] + Join(tail, [c]);
      assert s == s[..i] + [c] + rest;
    } else {
      assert SplitOn(s, c) == [s];
    }
  }

  /** Joining with a separator puts it between the last element and the rest. */
  lemma {:induction false} JoinSnoc(ws: seq<string>, sep: string)
    requires |ws| >= 2
    ensures Join(ws, sep) == Join(ws[..|ws| - 1], sep) + sep + ws[|ws| - 1]
  {
    if |ws| > 2 {
      JoinSnoc(ws[1..], sep);
      assert ws[1..][..|ws[1..]| - 1] == ws[..|ws| - 1][1..];
    }
  }

  /** Splitting `a + [c] + b` on `c` when `b` holds no `c`: `b` is the last part. */
  lemma {:induction false} SplitOnSnoc(a: string, c: char, b: string)
    requires c !in b
    ensures SplitOn(a + [c] + b, c) == SplitOn(a, c) + [b]
    decreases |a|
  {
    var i := IndexOf(a, c);
    SplitOnNone(b, c);
    if i == |a| {
      SplitOnCons(a, c, b);
    } else {
      var head, rest := a[..i], a[i + 1..];
      var tail := rest + [c] + b;
      assert a == head + [c] + rest;
      assert SplitOn(a, c) == [head] + SplitOn(rest, c) by {
        SplitOnCons(head, c, rest);
      }
      assert a + [c] + b == head + [c] + tail by {
        var hc := head + [c];
        assert a == hc + rest;
        assert a + [c] + b == hc + rest + [c] + b;
      }
      assert SplitOn(head + [c] + tail, c) == [head] + SplitOn(tail, c) by {
        SplitOnCons(head, c, tail);
      }
      SplitOnSnoc(rest, c, b);
    }
  }

  /** Stripping text that neither starts nor ends with whitespace leaves it as it is. */
  lemma StripUnchanged(s: string)
    requires s != [] && !IsSpace(s[0]) && !IsSpace(s[|s| - 1])
    ensures Strip(s) == s
  {
  }

  /** Splitting two separator-free texts joined by the separator gives them back. */
  lemma SplitOnTwo(a: string, b: string, c: char)
    requires c !in a && c !in b
    ensures SplitOn(a + [c] + b, c) == [a, b]
  {
    SplitOnNone(b, c);
    SplitOnCons(a, c, b);
  }

  /** Splitting three separator-free texts joined by the separator gives them back. */
  lemma SplitOnThree(a: string, b: string, d: string, c: char)
    requires c !in a && c !in b && c !in d
    ensures SplitOn(a + [c] + b + [c] + d, c) == [a, b, d]
  {
    var t := b + [c] + d;
    var ac := a + [c];
    assert a + [c] + b + [c] + d == ac + t by {
      assert a + [c] + b + [c] + d == ac + b + [c] + d;
    }
    SplitOnTwo(b, d, c);
    SplitOnCons(a, c, t);
  }

  /** Joining separator-free texts with a one-character separator and splitting
      on it again gives back the texts. */
  lemma {:induction false} SplitOnJoin(ws: seq<string>, c: char)
    requires |ws| >= 1 && forall i :: 0 <= i < |ws| ==> c !in ws[i]
    ensures SplitOn(Join(ws, [c]), c) == ws
  {
    if |ws| == 1 {
      SplitOnNone(ws[0], c);
    } else {
      var rest := ws[1..];
      assert forall i :: 0 <= i < |rest| ==> rest[i] == ws[i + 1];
      SplitOnJoin(rest, c);
      SplitOnCons(ws[0], c, Join(rest, [c]));
      assert ws == [ws[0]] + rest;
    }
  }

  /** A join starts with its first element. */
  lemma JoinStartsWith(ws: seq<string>, sep: string)
    requires |ws| >= 1
    ensures StartsWith(Join(ws, sep), ws[0])
  {
    if |ws| >= 2 {
      assert Join(ws, sep) == ws[0] + (sep + Join(ws[1..], sep));
    }
  }

  /** `str.split()` finds no word exactly in blank text. */
  lemma {:induction false} WordsEmptyIffBlank(s: string)
    ensures Words(s) == [] <==> IsBlank(s)
  {
    if s != [] && IsSpace(s[0]) {
      WordsEmptyIffBlank(s[1..]);
      assert IsBlank(s) <==> IsBlank(s[1..]) by {
        assert forall k :: 0 <= k < |s[1..]| ==> s[1..][k] == s[k + 1];
      }
    }
  }

  /** Python's `sub in s` for strings. */
  predicate Contains(s: string, sub: string)
    decreases |s|
  {
    StartsWith(s, sub) || (s != [] && Contains(s[1..], sub))
  }
}
