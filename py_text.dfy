/** The Python string and list operations the back-end code relies on:
    `str.isspace`, `strip()`, `split()`, `isalnum`, `isdigit`, `str(int)`,
    the `02d` and `>5` format specifications, and list slicing. */
module PyText {

  import opened Strings

  /** `str.isspace()` on one character. */
  predicate IsSpace(c: char)
  {
    var n := c as int;
    (0x09 <= n <= 0x0D) || (0x1C <= n <= 0x20) || n == 0x85 || n == 0xA0 || n == 0x1680
    || (0x2000 <= n <= 0x200A) || n == 0x2028 || n == 0x2029 || n == 0x202F || n == 0x205F
    || n == 0x3000
  }

  /** `str.isalnum()` on one character, for the ASCII range. */
  predicate IsAlnum(c: char) { IsAsciiLetter(c) || IsAsciiDigit(c) }

  /** `str.isdigit()`: non-empty and every character a digit (ASCII range). */
  predicate IsDigitString(s: string)
  {
    |s| > 0 && forall i :: 0 <= i < |s| ==> IsAsciiDigit(s[i])
  }

  function StripStart(s: string): string
  {
    if s != [] && IsSpace(s[0]) then StripStart(s[1..]) else s
  }

  function StripEnd(s: string): string
  {
    if s != [] && IsSpace(s[|s| - 1]) then StripEnd(s[..|s| - 1]) else s
  }

  /** `str.strip()` with no argument. */
  function Strip(s: string): string
  {
    StripEnd(StripStart(s))
  }

  /** `r` is `s` with the first `k` and the last `|s| - k - |r|` characters
      removed, all of which are white space. */
  predicate CutFromSpaces(s: string, r: string, k: int)
  {
    && 0 <= k <= |s| - |r| && s[k..k + |r|] == r
    && (forall i :: 0 <= i < k ==> IsSpace(s[i]))
    && (forall i :: k + |r| <= i < |s| ==> IsSpace(s[i]))
  }

  /** `strip()` keeps a contiguous middle part of its argument, removes only
      white space, and what it keeps neither starts nor ends with white space. */
  lemma {:induction false} StripSpec(s: string)
    ensures var r := Strip(s);
      && (exists k :: CutFromSpaces(s, r, k))
      && (r == [] || (!IsSpace(r[0]) && !IsSpace(r[|r| - 1])))
  {
    StripStartSpec(s);
    var t := StripStart(s);
    StripEndSpec(t);
    var r := StripEnd(t);
    var k := |s| - |t|;
    assert s[k..k + |r|] == r;
    forall i | k + |r| <= i < |s| ensures IsSpace(s[i]) {
      assert s[i] == t[i - k];
    }
    assert r == Strip(s);
    assert CutFromSpaces(s, Strip(s), k);
    if r != [] {
      assert r[0] == t[0];
    }
  }

  lemma {:induction false} StripStartSpec(s: string)
    ensures var r := StripStart(s);
      && |r| <= |s| && r == s[|s| - |r|..]
      && (forall i :: 0 <= i < |s| - |r| ==> IsSpace(s[i]))
      && (r == [] || !IsSpace(r[0]))
  {
    if s != [] && IsSpace(s[0]) {
      var t := s[1..];
      StripStartSpec(t);
      var r := StripStart(t);
      assert StripStart(s) == r;
      assert t[|t| - |r|..] == s[|s| - |r|..];
      forall i | 0 <= i < |s| - |r| ensures IsSpace(s[i]) {
        if i > 0 {
          assert s[i] == t[i - 1];
        }
      }
    }
  }

  lemma {:induction false} StripEndSpec(s: string)
    ensures var r := StripEnd(s);
      && |r| <= |s| && r == s[..|r|]
      && (forall i :: |r| <= i < |s| ==> IsSpace(s[i]))
      && (r == [] || !IsSpace(r[|r| - 1]))
  {
    if s != [] && IsSpace(s[|s| - 1]) {
      StripEndSpec(s[..|s| - 1]);
    }
  }

  /** The leading run of non-space characters of `s`. */
  function WordPrefix(s: string): (r: string)
    ensures |r| <= |s| && r == s[..|r|]
    ensures forall i :: 0 <= i < |r| ==> !IsSpace(r[i])
    ensures |r| < |s| ==> IsSpace(s[|r|])
  {
    if s == [] || IsSpace(s[0]) then [] else [s[0]] + WordPrefix(s[1..])
  }

  /** `str.split()` with no argument: the maximal runs of non-space characters. */
  function Split(s: string): (words: seq<string>)
    ensures forall k :: 0 <= k < |words| ==> words[k] != []
    ensures forall k, i :: 0 <= k < |words| && 0 <= i < |words[k]| ==> !IsSpace(words[k][i])
    decreases |s|
  {
    var t := StripStart(s);
    StripStartSpec(s);
    if t == [] then []
    else
      var w := WordPrefix(t);
      [w] + Split(t[|w|..])
  }

  /** A run of characters `str.split()` treats as separators. */
  predicate Blank(g: string)
  {
    forall i :: 0 <= i < |g| ==> IsSpace(g[i])
  }

  /** A word as `str.split()` returns it: not empty, no separator inside. */
  predicate IsWord(w: string)
  {
    w != [] && forall i :: 0 <= i < |w| ==> !IsSpace(w[i])
  }

  /** `gaps[0] + words[0] + gaps[1] + ... + words[n - 1] + gaps[n]`. */
  function Interleave(gaps: seq<string>, words: seq<string>): string
    requires |gaps| == |words| + 1
    decreases |words|
  {
    if words == [] then gaps[0] else gaps[0] + words[0] + Interleave(gaps[1..], words[1..])
  }

  /** The separator runs around and between the words of `Split(s)`. */
  function Gaps(s: string): seq<string>
    decreases |s|
  {
    var t := StripStart(s);
    StripStartSpec(s);
    if t == [] then [s]
    else
      var w := WordPrefix(t);
      [s[..|s| - |t|]] + Gaps(t[|w|..])
  }

  /** `Split` loses nothing but separators: `s` is its words with separator
      runs around them, and the runs between two words are not empty. */
  lemma SplitGaps(s: string)
    ensures |Gaps(s)| == |Split(s)| + 1
    ensures forall k :: 0 <= k < |Gaps(s)| ==> Blank(Gaps(s)[k])
    ensures forall k :: 0 < k < |Split(s)| ==> Gaps(s)[k] != []
    ensures s == Interleave(Gaps(s), Split(s))
  {
    GapsShape(s);
    GapsRebuild(s);
  }

  lemma {:induction false} GapsShape(s: string)
    ensures |Gaps(s)| == |Split(s)| + 1
    ensures forall k :: 0 <= k < |Gaps(s)| ==> Blank(Gaps(s)[k])
    ensures forall k :: 0 < k < |Split(s)| ==> Gaps(s)[k] != []
    ensures s != [] && IsSpace(s[0]) ==> Gaps(s)[0] != []
    decreases |s|
  {
    var t := StripStart(s);
    StripStartSpec(s);
    var g := s[..|s| - |t|];
    if t != [] {
      var w := WordPrefix(t);
      var u := t[|w|..];
      GapsShape(u);
      assert Split(s) == [w] + Split(u);
      assert Gaps(s) == [g] + Gaps(u);
      assert u != [] ==> IsSpace(u[0]);
      forall k | 0 < k < |Split(s)| ensures Gaps(s)[k] != [] {
        assert Gaps(s)[k] == Gaps(u)[k - 1];
      }
      if s != [] && IsSpace(s[0]) {
        assert t != s;
      }
    }
  }

  lemma {:induction false} GapsRebuild(s: string)
    requires |Gaps(s)| == |Split(s)| + 1
    ensures s == Interleave(Gaps(s), Split(s))
    decreases |s|
  {
    if StripStart(s) != [] {
      var g, w, u := FirstWord(s);
      GapsRebuild(u);
      InterleaveCons(g, Gaps(u), w, Split(u));
    }
  }

  /** One step of `Split` and `Gaps`: the first separator run, the first
      word and the text after it. */
  lemma FirstWord(s: string) returns (g: string, w: string, u: string)
    requires StripStart(s) != []
    ensures Split(s) == [w] + Split(u) && Gaps(s) == [g] + Gaps(u)
    ensures s == g + w + u && |u| < |s|
  {
    var t := StripStart(s);
    StripStartSpec(s);
    var k := |s| - |t|;
    g, w := s[..k], WordPrefix(t);
    u := t[|w|..];
    assert s == s[..k] + s[k..];
    assert t == w + u;
    assert s == g + (w + u);
  }

  lemma InterleaveCons(g: string, gs: seq<string>, w: string, ws: seq<string>)
    requires |gs| == |ws| + 1
    ensures Interleave([g] + gs, [w] + ws) == g + w + Interleave(gs, ws)
  {
    assert ([g] + gs)[1..] == gs && ([w] + ws)[1..] == ws;
  }

  /** A run of separators before a word is exactly what `lstrip()` removes. */
  lemma {:induction false} StripStartBlank(g: string, x: string)
    requires Blank(g)
    requires x == [] || !IsSpace(x[0])
    ensures StripStart(g + x) == x
  {
    if g == [] {
      assert g + x == x;
    } else {
      assert (g + x)[1..] == g[1..] + x;
      StripStartBlank(g[1..], x);
    }
  }

  /** A word followed by nothing or by a separator is the leading run. */
  lemma {:induction false} WordPrefixOf(w: string, x: string)
    requires forall i :: 0 <= i < |w| ==> !IsSpace(w[i])
    requires x == [] || IsSpace(x[0])
    ensures WordPrefix(w + x) == w
  {
    if w == [] {
      assert w + x == x;
    } else {
      assert (w + x)[1..] == w[1..] + x;
      WordPrefixOf(w[1..], x);
    }
  }

  /** The other way round: words separated by non-empty separator runs, with
      any runs at the ends, split back into exactly those words. */
  lemma {:induction false} SplitInterleave(gaps: seq<string>, words: seq<string>)
    requires |gaps| == |words| + 1
    requires forall k :: 0 <= k < |gaps| ==> Blank(gaps[k])
    requires forall k :: 0 <= k < |words| ==> IsWord(words[k])
    requires forall k :: 0 < k < |words| ==> gaps[k] != []
    ensures Split(Interleave(gaps, words)) == words
    decreases |words|
  {
    var s := Interleave(gaps, words);
    if words == [] {
      StripStartBlank(gaps[0], []);
      assert gaps[0] + [] == gaps[0];
    } else {
      var w := words[0];
      var rest := Interleave(gaps[1..], words[1..]);
      assert s == gaps[0] + (w + rest);
      assert IsWord(w);
      StripStartBlank(gaps[0], w + rest);
      assert |words| > 1 ==> gaps[1..][0] != [];
      assert rest == [] || IsSpace(rest[0]) by {
        if words[1..] == [] {
          assert rest == gaps[1];
        } else {
          assert rest == gaps[1] + words[1] + Interleave(gaps[2..], words[2..]);
        }
      }
      WordPrefixOf(w, rest);
      assert (w + rest)[|w|..] == rest;
      SplitInterleave(gaps[1..], words[1..]);
    }
  }

  function DigitChar(d: nat): (c: char)
    requires d < 10
    ensures IsAsciiDigit(c)
  {
    ('0' as int + d) as char
  }

  /** `str(n)` for a natural number. */
  function NatToString(n: nat): (r: string)
    ensures |r| > 0
    ensures forall i :: 0 <= i < |r| ==> IsAsciiDigit(r[i])
    ensures n >= 10 ==> r[0] != '0'
  {
    if n < 10 then [DigitChar(n)] else NatToString(n / 10) + [DigitChar(n % 10)]
  }

  /** `str(n)` for an integer. */
  function IntToString(n: int): string
  {
    if n < 0 then "-" + NatToString(-n) else NatToString(n)
  }

  function DigitValue(c: char): (d: nat)
    requires IsAsciiDigit(c)
    ensures d < 10 && DigitChar(d) == c
  {
    c as int - '0' as int
  }

  /** The value of a string of decimal digits. */
  function DigitsValue(s: string): nat
    requires forall i :: 0 <= i < |s| ==> IsAsciiDigit(s[i])
  {
    if s == [] then 0 else 10 * DigitsValue(s[..|s| - 1]) + DigitValue(s[|s| - 1])
  }

  lemma {:induction false} NatToStringRoundTrip(n: nat)
    ensures DigitsValue(NatToString(n)) == n
  {
    if n >= 10 {
      var r := NatToString(n);
      assert r[..|r| - 1] == NatToString(n / 10);
      NatToStringRoundTrip(n / 10);
    }
  }

  /** `format(n, '02d')`: `str(n)` filled with zeros after the sign to a
      width of two; a number already two characters wide is left as it is. */
  function Format02d(n: int): (r: string)
    ensures |r| >= 2
    ensures |IntToString(n)| >= 2 ==> r == IntToString(n)
    ensures |IntToString(n)| < 2 ==> r == "0" + IntToString(n)
    ensures n < 0 || n >= 10 ==> r == IntToString(n)
    ensures 0 <= n < 100 ==> r == [DigitChar(n / 10), DigitChar(n % 10)]
    ensures n < 0 ==> r[0] == '-'
  {
    if 0 <= n < 10 then "0" + NatToString(n)
    else if 10 <= n < 100 then
      assert NatToString(n) == NatToString(n / 10) + [DigitChar(n % 10)];
      IntToString(n)
    else IntToString(n)
  }

  function Spaces(k: nat): (r: string)
    ensures |r| == k && forall i :: 0 <= i < k ==> r[i] == ' '
  {
    if k == 0 then "" else Spaces(k - 1) + " "
  }

  /** `format(s, '>w')`: right-aligned in a field of width `w`, padded with spaces. */
  function RightAlign(s: string, w: nat): (r: string)
    ensures |r| == if |s| >= w then |s| else w
    ensures r[|r| - |s|..] == s
    ensures forall i :: 0 <= i < |r| - |s| ==> r[i] == ' '
  {
    if |s| >= w then s else Spaces(w - |s|) + s
  }

  /** A slice bound as Python normalises it for a sequence of length `n`. */
  function SliceBound(i: int, n: nat): (b: nat)
    ensures b <= n
  {
    if i < 0 then (if i + n < 0 then 0 else i + n) else if i > n then n else i
  }

  /** `xs[start:end]` on a Python list. */
  function Slice<T>(xs: seq<T>, start: int, end: int): (r: seq<T>)
    ensures |r| <= |xs|
    ensures 0 <= start <= end <= |xs| ==> r == xs[start..end]
  {
    var a, b := SliceBound(start, |xs|), SliceBound(end, |xs|);
    if a < b then xs[a..b] else []
  }
}
