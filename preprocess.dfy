/** The word-list clean-up the front end runs before drawing the cloud
    (frontend/lib/api/preprocess.ts): four passes that rewrite each word's
    text, three filters, and `dedup`, which merges case-insensitively equal
    words into one entry with their mean value and sorts by value. */
module Preprocess {

  import opened Wrappers
  import opened Strings
  import JsText

  /** A word with its score. */
  datatype WordScore = WordScore(text: string, value: real)

  // ---------------------------------------------------------------------
  // Character-level rewriting.

  /** The characters of `s` that `keep` accepts, in order (what
      `replace(/[^...]/g, '')` leaves). */
  function KeepChars(s: string, keep: char -> bool): (r: string)
    ensures |r| <= |s|
  {
    if s == [] then [] else (if keep(s[0]) then [s[0]] else []) + KeepChars(s[1..], keep)
  }

  /** `KeepChars` keeps exactly the accepted characters. */
  lemma {:induction false} KeepCharsSpec(s: string, keep: char -> bool)
    ensures forall c :: c in KeepChars(s, keep) <==> c in s && keep(c)
  {
    if s != [] {
      KeepCharsSpec(s[1..], keep);
      assert forall c :: c in s <==> c == s[0] || c in s[1..];
    }
  }

  lemma {:induction false} KeepCharsAppend(a: string, b: string, keep: char -> bool)
    ensures KeepChars(a + b, keep) == KeepChars(a, keep) + KeepChars(b, keep)
  {
    if a != [] {
      assert (a + b)[1..] == a[1..] + b;
      KeepCharsAppend(a[1..], b, keep);
    } else {
      assert a + b == b;
    }
  }

  /** Nothing is kept of a string whose every character is rejected. */
  lemma {:induction false} KeepCharsNone(s: string, keep: char -> bool)
    requires forall i :: 0 <= i < |s| ==> !keep(s[i])
    ensures KeepChars(s, keep) == []
  {
    if s != [] {
      KeepCharsNone(s[1..], keep);
    }
  }

  /** The characters `[\w\s]`: what the punctuation pass keeps. */
  predicate IsWordOrSpace(c: char) { JsText.IsWordChar(c) || JsText.IsWhiteSpace(c) }

  predicate NotDigit(c: char) { !IsAsciiDigit(c) }

  predicate NotSpace(c: char) { !JsText.IsWhiteSpace(c) }

  /** `text.replace(/[^\w\s]/g, '')`. */
  function StripPunctuation(s: string): string
  {
    KeepChars(s, IsWordOrSpace)
  }

  /** `text.replace(/[0-9]/g, '')`. */
  function StripDigits(s: string): string
  {
    KeepChars(s, NotDigit)
  }

  /** The punctuation pass keeps exactly the word and white-space characters,
      and leaves a text without punctuation as it is. */
  lemma StripPunctuationSpec(s: string)
    ensures forall c :: c in StripPunctuation(s) <==> c in s && IsWordOrSpace(c)
    ensures (forall i :: 0 <= i < |s| ==> IsWordOrSpace(s[i])) ==> StripPunctuation(s) == s
    ensures |s| == 1 ==> StripPunctuation(s) == if IsWordOrSpace(s[0]) then s else []
  {
    KeepCharsSpec(s, IsWordOrSpace);
    if forall i :: 0 <= i < |s| ==> IsWordOrSpace(s[i]) {
      KeepAll(s, IsWordOrSpace);
    }
  }

  /** The punctuation pass works character by character: it treats the
      two halves of a text separately. */
  lemma StripPunctuationAppend(a: string, b: string)
    ensures StripPunctuation(a + b) == StripPunctuation(a) + StripPunctuation(b)
  {
    KeepCharsAppend(a, b, IsWordOrSpace);
  }

  /** The digit pass keeps exactly the characters that are not `0`-`9`. */
  lemma StripDigitsSpec(s: string)
    ensures forall c :: c in StripDigits(s) <==> c in s && !IsAsciiDigit(c)
    ensures forall i :: 0 <= i < |StripDigits(s)| ==> !IsAsciiDigit(StripDigits(s)[i])
    ensures |s| == 1 ==> StripDigits(s) == if IsAsciiDigit(s[0]) then [] else s
  {
    KeepCharsSpec(s, NotDigit);
  }

  /** The digit pass works character by character: it treats the two
      halves of a text separately. */
  lemma StripDigitsAppend(a: string, b: string)
    ensures StripDigits(a + b) == StripDigits(a) + StripDigits(b)
  {
    KeepCharsAppend(a, b, NotDigit);
  }

  lemma {:induction false} KeepAll(s: string, keep: char -> bool)
    requires forall i :: 0 <= i < |s| ==> keep(s[i])
    ensures KeepChars(s, keep) == s
  {
    if s != [] {
      KeepAll(s[1..], keep);
    }
  }

  /** `replace(/\s+/g, ' ')`: every run of white space becomes one space. */
  function Collapse(s: string): string
    decreases |s|
  {
    if s == [] then []
    else if JsText.IsWhiteSpace(s[0]) then " " + Collapse(JsText.TrimStart(s[1..]))
    else [s[0]] + Collapse(s[1..])
  }

  /** `text.trim().replace(/\s+/g, ' ')`. */
  function NormaliseSpace(s: string): string
  {
    Collapse(JsText.Trim(s))
  }

  /** The only white space `Collapse` leaves is single spaces, it starts and
      ends with white space exactly when its input does, and it keeps the
      other characters in order. */
  lemma CollapseSpec(s: string)
    ensures var r := Collapse(s);
      && (r == [] <==> s == [])
      && (forall i :: 0 <= i < |r| && JsText.IsWhiteSpace(r[i]) ==> r[i] == ' ')
      && (forall i :: 0 <= i < |r| - 1 ==> !(JsText.IsWhiteSpace(r[i]) && JsText.IsWhiteSpace(r[i + 1])))
      && (s != [] ==> (JsText.IsWhiteSpace(r[0]) <==> JsText.IsWhiteSpace(s[0])))
      && (s != [] ==> (JsText.IsWhiteSpace(r[|r| - 1]) <==> JsText.IsWhiteSpace(s[|s| - 1])))
      && KeepChars(r, NotSpace) == KeepChars(s, NotSpace)
  {
    CollapseFirst(s);
    CollapseSpaces(s);
    if s != [] {
      CollapseLast(s);
    }
    CollapseKeepsText(s);
  }

  lemma CollapseFirst(s: string)
    ensures var r := Collapse(s);
      && (r == [] <==> s == [])
      && (s != [] ==> (JsText.IsWhiteSpace(r[0]) <==> JsText.IsWhiteSpace(s[0])))
  {
  }

  /** What follows a collapsed run: the rest after the first run of white
      space, which does not start with white space. */
  lemma AfterRun(s: string)
    requires s != [] && JsText.IsWhiteSpace(s[0])
    ensures var t := JsText.TrimStart(s[1..]);
      && Collapse(s) == " " + Collapse(t)
      && |t| < |s|
      && (t == [] || !JsText.IsWhiteSpace(t[0]))
      && s[1..] == s[1..][..|s| - 1 - |t|] + t
      && (forall i :: 0 <= i < |s| - 1 - |t| ==> JsText.IsWhiteSpace(s[1..][i]))
  {
    JsText.TrimStartSpec(s[1..]);
  }

  lemma {:induction false} CollapseSpaces(s: string)
    ensures var r := Collapse(s);
      && (forall i :: 0 <= i < |r| && JsText.IsWhiteSpace(r[i]) ==> r[i] == ' ')
      && (forall i :: 0 <= i < |r| - 1 ==> !(JsText.IsWhiteSpace(r[i]) && JsText.IsWhiteSpace(r[i + 1])))
    decreases |s|
  {
    if s == [] {
    } else if JsText.IsWhiteSpace(s[0]) {
      var t := JsText.TrimStart(s[1..]);
      AfterRun(s);
      CollapseSpaces(t);
      CollapseFirst(t);
    } else {
      CollapseSpaces(s[1..]);
      CollapseFirst(s[1..]);
    }
  }

  lemma {:induction false} CollapseLast(s: string)
    requires s != []
    ensures var r := Collapse(s);
      r != [] && (JsText.IsWhiteSpace(r[|r| - 1]) <==> JsText.IsWhiteSpace(s[|s| - 1]))
    decreases |s|
  {
    CollapseFirst(s);
    if JsText.IsWhiteSpace(s[0]) {
      var t := JsText.TrimStart(s[1..]);
      AfterRun(s);
      if t == [] {
        if |s| > 1 {
          assert s[|s| - 1] == s[1..][|s| - 2];
        }
      } else {
        CollapseLast(t);
        assert s[|s| - 1] == t[|t| - 1];
      }
    } else if |s| > 1 {
      CollapseLast(s[1..]);
      assert s[|s| - 1] == s[1..][|s| - 2];
    }
  }

  lemma {:induction false} CollapseKeepsText(s: string)
    ensures KeepChars(Collapse(s), NotSpace) == KeepChars(s, NotSpace)
    decreases |s|
  {
    if s == [] {
    } else if JsText.IsWhiteSpace(s[0]) {
      var u := s[1..];
      var t := JsText.TrimStart(u);
      AfterRun(s);
      var w := u[..|u| - |t|];
      CollapseKeepsText(t);
      KeepCharsNone(w, NotSpace);
      KeepCharsAppend(w, t, NotSpace);
      assert KeepChars(" " + Collapse(t), NotSpace) == KeepChars(Collapse(t), NotSpace);
    } else {
      CollapseKeepsText(s[1..]);
      assert KeepChars(Collapse(s), NotSpace) == [s[0]] + KeepChars(Collapse(s[1..]), NotSpace);
    }
  }

  /** `trimStart()` drops only white space. */
  lemma {:induction false} TrimStartKeepsText(s: string)
    ensures KeepChars(JsText.TrimStart(s), NotSpace) == KeepChars(s, NotSpace)
  {
    if s != [] && JsText.IsWhiteSpace(s[0]) {
      TrimStartKeepsText(s[1..]);
    }
  }

  /** `trimEnd()` drops only white space. */
  lemma {:induction false} TrimEndKeepsText(s: string)
    ensures KeepChars(JsText.TrimEnd(s), NotSpace) == KeepChars(s, NotSpace)
  {
    if s != [] && JsText.IsWhiteSpace(s[|s| - 1]) {
      var init, last := s[..|s| - 1], s[|s| - 1];
      TrimEndKeepsText(init);
      assert s == init + [last];
      KeepCharsAppend(init, [last], NotSpace);
      assert KeepChars([last], NotSpace) == [];
    }
  }

  /** Trimming drops only white space. */
  lemma TrimKeepsText(s: string)
    ensures KeepChars(JsText.Trim(s), NotSpace) == KeepChars(s, NotSpace)
  {
    TrimStartKeepsText(s);
    TrimEndKeepsText(JsText.TrimStart(s));
  }

  /** The white-space pass leaves single spaces between the other
      characters, which it keeps in order, and no white space at either end. */
  lemma NormaliseSpaceSpec(s: string)
    ensures var r := NormaliseSpace(s);
      && (forall i :: 0 <= i < |r| && JsText.IsWhiteSpace(r[i]) ==> r[i] == ' ')
      && (forall i :: 0 <= i < |r| - 1 ==> !(JsText.IsWhiteSpace(r[i]) && JsText.IsWhiteSpace(r[i + 1])))
      && (r != [] ==> !JsText.IsWhiteSpace(r[0]) && !JsText.IsWhiteSpace(r[|r| - 1]))
      && KeepChars(r, NotSpace) == KeepChars(s, NotSpace)
  {
    var u := JsText.TrimStart(s);
    JsText.TrimStartSpec(s);
    JsText.TrimEndSpec(u);
    var t := JsText.Trim(s);
    if t != [] {
      assert t[0] == u[0];
    }
    CollapseSpec(t);
    TrimKeepsText(s);
  }

  /** A text all of white space. */
  predicate Blank(w: string)
  {
    forall i :: 0 <= i < |w| ==> JsText.IsWhiteSpace(w[i])
  }

  /** White space before a text that does not start with white space is
      exactly what `trimStart()` removes. */
  lemma {:induction false} TrimStartBlank(w: string, b: string)
    requires Blank(w)
    requires b == [] || !JsText.IsWhiteSpace(b[0])
    ensures JsText.TrimStart(w + b) == b
  {
    if w == [] {
      assert w + b == b;
    } else {
      assert (w + b)[1..] == w[1..] + b;
      TrimStartBlank(w[1..], b);
    }
  }

  /** `trimStart()` stops inside a first part that ends with a character
      other than white space. */
  lemma {:induction false} TrimStartAppend(x: string, y: string)
    requires x != [] && !JsText.IsWhiteSpace(x[|x| - 1])
    ensures JsText.TrimStart(x + y) == JsText.TrimStart(x) + y
  {
    if JsText.IsWhiteSpace(x[0]) {
      assert (x + y)[1..] == x[1..] + y;
      TrimStartAppend(x[1..], y);
    }
  }

  /** A run of white space at the start becomes one space. */
  lemma CollapseBlankStart(w: string, b: string)
    requires w != [] && Blank(w)
    requires b == [] || !JsText.IsWhiteSpace(b[0])
    ensures Collapse(w + b) == " " + Collapse(b)
  {
    var s := w + b;
    assert s[1..] == w[1..] + b;
    TrimStartBlank(w[1..], b);
  }

  /** A text that starts with white space and ends with something else
      collapses to one space and then the collapse of what follows its
      first run; anything appended stays after that. */
  lemma CollapseRunThenText(a: string, y: string)
    requires a != [] && JsText.IsWhiteSpace(a[0]) && !JsText.IsWhiteSpace(a[|a| - 1])
    ensures var t := JsText.TrimStart(a[1..]);
      && t != [] && |t| < |a| && !JsText.IsWhiteSpace(t[|t| - 1])
      && Collapse(a) == " " + Collapse(t)
      && Collapse(a + y) == " " + Collapse(t + y)
  {
    var x := a[1..];
    assert (a + y)[1..] == x + y;
    TrimStartAppend(x, y);
    JsText.TrimStartSpec(x);
  }

  /** No run of white space crosses the end of a text that ends with
      another character, so the two parts collapse separately. */
  lemma {:induction false} CollapseAppend(a: string, y: string)
    requires a == [] || !JsText.IsWhiteSpace(a[|a| - 1])
    ensures Collapse(a + y) == Collapse(a) + Collapse(y)
    decreases |a|
  {
    if a == [] {
      assert a + y == y;
    } else if JsText.IsWhiteSpace(a[0]) {
      var t := JsText.TrimStart(a[1..]);
      CollapseRunThenText(a, y);
      CollapseAppend(t, y);
      AppendAfterRun(a, y);
    } else {
      CollapseAppend(a[1..], y);
      AppendAfterText(a, y);
    }
  }

  /** The step of `CollapseAppend` past a leading run of white space. */
  lemma AppendAfterRun(a: string, y: string)
    requires a != [] && JsText.IsWhiteSpace(a[0]) && !JsText.IsWhiteSpace(a[|a| - 1])
    requires var t := JsText.TrimStart(a[1..]);
      Collapse(t + y) == Collapse(t) + Collapse(y)
    ensures Collapse(a + y) == Collapse(a) + Collapse(y)
  {
    var t := JsText.TrimStart(a[1..]);
    calc {
      Collapse(a + y);
      { CollapseRunThenText(a, y); }
      " " + Collapse(t + y);
      " " + (Collapse(t) + Collapse(y));
      (" " + Collapse(t)) + Collapse(y);
      { CollapseRunThenText(a, y); }
      Collapse(a) + Collapse(y);
    }
  }

  /** The step of `CollapseAppend` past a character other than white space. */
  lemma AppendAfterText(a: string, y: string)
    requires a != [] && !JsText.IsWhiteSpace(a[0])
    requires Collapse(a[1..] + y) == Collapse(a[1..]) + Collapse(y)
    ensures Collapse(a + y) == Collapse(a) + Collapse(y)
  {
    var u := a[1..];
    calc {
      Collapse(a + y);
      { CollapseTextFirst(a, y); }
      [a[0]] + Collapse(u + y);
      [a[0]] + (Collapse(u) + Collapse(y));
      ([a[0]] + Collapse(u)) + Collapse(y);
      { CollapseTextFirst(a, y); }
      Collapse(a) + Collapse(y);
    }
  }

  /** One run of white space between two texts becomes one space, and the
      texts on either side collapse on their own. */
  lemma CollapseJoin(a: string, w: string, b: string)
    requires w != [] && Blank(w)
    requires a == [] || !JsText.IsWhiteSpace(a[|a| - 1])
    requires b == [] || !JsText.IsWhiteSpace(b[0])
    ensures Collapse(a + w + b) == Collapse(a) + " " + Collapse(b)
  {
    var y := w + b;
    calc {
      Collapse(a + w + b);
      { assert a + w + b == a + y; }
      Collapse(a + y);
      { CollapseAppend(a, y); }
      Collapse(a) + Collapse(y);
      { CollapseBlankStart(w, b); }
      Collapse(a) + (" " + Collapse(b));
      Collapse(a) + " " + Collapse(b);
    }
  }

  /** A character other than white space is kept as it is. */
  lemma CollapseTextFirst(a: string, y: string)
    requires a != [] && !JsText.IsWhiteSpace(a[0])
    ensures Collapse(a) == [a[0]] + Collapse(a[1..])
    ensures Collapse(a + y) == [a[0]] + Collapse(a[1..] + y)
  {
    assert (a + y)[1..] == a[1..] + y;
  }

  /** Two texts without white space at their ends, joined by any run of
      white space, come out of the white-space pass joined by one space. */
  lemma NormaliseSpaceJoin(a: string, w: string, b: string)
    requires w != [] && Blank(w)
    requires a != [] && !JsText.IsWhiteSpace(a[0]) && !JsText.IsWhiteSpace(a[|a| - 1])
    requires b != [] && !JsText.IsWhiteSpace(b[0]) && !JsText.IsWhiteSpace(b[|b| - 1])
    ensures NormaliseSpace(a + w + b) == NormaliseSpace(a) + " " + NormaliseSpace(b)
  {
    var s := a + w + b;
    assert s[0] == a[0] && s[|s| - 1] == b[|b| - 1];
    CollapseJoin(a, w, b);
  }

  /** `text.replace(/\n/g, ' ')`. */
  function NewlinesToSpaces(s: string): (r: string)
    ensures |r| == |s|
    ensures forall i :: 0 <= i < |s| ==> r[i] == (if s[i] == '\n' then ' ' else s[i])
    ensures forall i :: 0 <= i < |r| ==> r[i] != '\n'
  {
    if s == [] then [] else [if s[0] == '\n' then ' ' else s[0]] + NewlinesToSpaces(s[1..])
  }

  /** The newline pass has nothing left to do after the white-space pass. */
  lemma NewlinesAlreadyGone(s: string)
    ensures NewlinesToSpaces(NormaliseSpace(s)) == NormaliseSpace(s)
  {
    NormaliseSpaceSpec(s);
    var r := NormaliseSpace(s);
    assert forall i :: 0 <= i < |r| ==> r[i] != '\n' by {
      forall i | 0 <= i < |r|
        ensures r[i] != '\n'
      {
        if r[i] == '\n' {
          assert JsText.IsWhiteSpace(r[i]);
        }
      }
    }
  }

  // ---------------------------------------------------------------------
  // The passes over the word list.

  /** `words.map(word => ({ text: f(word.text), value: word.value }))`. */
  function MapText(words: seq<WordScore>, f: string -> string): (r: seq<WordScore>)
    ensures |r| == |words|
    ensures forall i :: 0 <= i < |r| ==> r[i].value == words[i].value && r[i].text == f(words[i].text)
  {
    seq(|words|, i requires 0 <= i < |words| => WordScore(f(words[i].text), words[i].value))
  }

  function RemovePunctuation(words: seq<WordScore>): seq<WordScore>
  {
    MapText(words, StripPunctuation)
  }

  function RemoveWhitespace(words: seq<WordScore>): seq<WordScore>
  {
    MapText(words, NormaliseSpace)
  }

  function RemoveNewlines(words: seq<WordScore>): seq<WordScore>
  {
    MapText(words, NewlinesToSpaces)
  }

  function RemoveNumbers(words: seq<WordScore>): seq<WordScore>
  {
    MapText(words, StripDigits)
  }

  /** The text passes keep the number, order and values of the words; after
      the digit pass no text holds `0`-`9`, and after the white-space pass
      the newline pass changes nothing. */
  lemma TextPassesSpec(words: seq<WordScore>)
    ensures var r := RemoveNumbers(words);
      && |r| == |words|
      && (forall i :: 0 <= i < |r| ==> r[i].value == words[i].value)
      && (forall i, j :: 0 <= i < |r| && 0 <= j < |r[i].text| ==> !IsAsciiDigit(r[i].text[j]))
    ensures RemoveNewlines(RemoveWhitespace(words)) == RemoveWhitespace(words)
  {
    var r := RemoveNumbers(words);
    forall i | 0 <= i < |r|
      ensures forall j :: 0 <= j < |r[i].text| ==> !IsAsciiDigit(r[i].text[j])
    {
      StripDigitsSpec(words[i].text);
    }
    var a := RemoveWhitespace(words);
    var b := RemoveNewlines(a);
    forall i | 0 <= i < |a|
      ensures b[i] == a[i]
    {
      NewlinesAlreadyGone(words[i].text);
    }
  }

  /** `words.filter(keep)`. */
  function Filter(words: seq<WordScore>, keep: WordScore -> bool): (r: seq<WordScore>)
    ensures |r| <= |words|
  {
    if words == [] then []
    else
      var w := words[|words| - 1];
      Filter(words[..|words| - 1], keep) + (if keep(w) then [w] else [])
  }

  /** `Filter` keeps exactly the accepted words. */
  lemma {:induction false} FilterSpec(words: seq<WordScore>, keep: WordScore -> bool)
    ensures forall w :: w in Filter(words, keep) <==> w in words && keep(w)
  {
    if words != [] {
      var init := words[..|words| - 1];
      FilterSpec(init, keep);
      assert words == init + [words[|words| - 1]];
    }
  }

  /** Filtering a concatenation filters each part: the kept words stay in
      their order. */
  lemma {:induction false} FilterAppend(xs: seq<WordScore>, ys: seq<WordScore>, keep: WordScore -> bool)
    ensures Filter(xs + ys, keep) == Filter(xs, keep) + Filter(ys, keep)
    decreases |ys|
  {
    if ys == [] {
      assert xs + ys == xs;
    } else {
      var init := ys[..|ys| - 1];
      FilterAppend(xs, init, keep);
      assert (xs + ys)[..|xs + ys| - 1] == xs + init;
    }
  }

  const StopWords: set<string> := {
    "the", "and", "of", "a", "an", "in", "to", "for", "with", "on", "at", "by", "from", "up",
    "down", "out", "over", "under", "again", "further", "then", "once", "here", "there", "when",
    "where", "why", "how", "all", "any", "some", "one", "two", "three", "four", "five", "six",
    "seven", "eight", "nine", "ten"
  }

  predicate IsStopWord(text: string) { ToLower(text) in StopWords }

  predicate NotStopWord(w: WordScore) { !IsStopWord(w.text) }

  /** `/^[a-zA-Z]+$/.test(text)`. */
  predicate IsLetters(text: string)
  {
    text != [] && forall i :: 0 <= i < |text| ==> IsAsciiLetter(text[i])
  }

  predicate LettersOnly(w: WordScore) { IsLetters(w.text) }

  predicate NotBlank(w: WordScore) { JsText.Trim(w.text) != [] }

  function RemoveStopWords(words: seq<WordScore>): (r: seq<WordScore>)
    ensures forall w :: w in r <==> w in words && !IsStopWord(w.text)
  {
    FilterSpec(words, NotStopWord);
    Filter(words, NotStopWord)
  }

  function RemoveNonAlphabetic(words: seq<WordScore>): (r: seq<WordScore>)
    ensures forall w :: w in r <==> w in words && IsLetters(w.text)
  {
    FilterSpec(words, LettersOnly);
    Filter(words, LettersOnly)
  }

  function RemoveEmptyWords(words: seq<WordScore>): (r: seq<WordScore>)
    ensures forall w :: w in r <==>
      w in words && exists i :: 0 <= i < |w.text| && !JsText.IsWhiteSpace(w.text[i])
  {
    FilterSpec(words, NotBlank);
    forall w: WordScore {
      JsText.TrimEmptyIffBlank(w.text);
    }
    Filter(words, NotBlank)
  }

  /** The three filters keep the surviving words in their order: each
      distributes over concatenation. */
  lemma FiltersKeepOrder(xs: seq<WordScore>, ys: seq<WordScore>)
    ensures RemoveStopWords(xs + ys) == RemoveStopWords(xs) + RemoveStopWords(ys)
    ensures RemoveNonAlphabetic(xs + ys) == RemoveNonAlphabetic(xs) + RemoveNonAlphabetic(ys)
    ensures RemoveEmptyWords(xs + ys) == RemoveEmptyWords(xs) + RemoveEmptyWords(ys)
  {
    FilterAppend(xs, ys, NotStopWord);
    FilterAppend(xs, ys, LettersOnly);
    FilterAppend(xs, ys, NotBlank);
  }

  // ---------------------------------------------------------------------
  // `dedup`.

  /** Every text is non-empty: what `dedup` needs in order not to throw. */
  predicate NonEmptyTexts(ws: seq<WordScore>)
  {
    forall w | w in ws :: w.text != []
  }

  /** The test `c === c.toUpperCase() && c !== c.toLowerCase()` on a text's
      first character. */
  predicate UpperInitial(text: string)
  {
    text != [] && UpperChar(text[0]) == text[0] && LowerChar(text[0]) != text[0]
  }

  /** The lower-case texts of the words, as a set. */
  function LowerSet(words: seq<WordScore>): set<string>
  {
    set w | w in words :: ToLower(w.text)
  }

  /** The lower-case texts in order of first occurrence: the key order of
      the source's `Map`. */
  function Keys(words: seq<WordScore>): seq<string>
  {
    if words == [] then []
    else
      var keys := Keys(words[..|words| - 1]);
      var k := ToLower(words[|words| - 1].text);
      if k in keys then keys else keys + [k]
  }

  predicate Distinct<T(==)>(xs: seq<T>)
  {
    forall i, j :: 0 <= i < j < |xs| ==> xs[i] != xs[j]
  }

  /** A sequence without repetitions has as many elements as its set. */
  lemma {:induction false} DistinctCard<T>(xs: seq<T>)
    requires Distinct(xs)
    ensures |set x | x in xs| == |xs|
  {
    if xs != [] {
      var init := xs[..|xs| - 1];
      var last := xs[|xs| - 1];
      DistinctCard(init);
      assert xs == init + [last];
      assert (set x | x in xs) == (set x | x in init) + {last};
      assert last !in (set x | x in init);
    }
  }

  lemma LowerSetSnoc(init: seq<WordScore>, w: WordScore)
    ensures LowerSet(init + [w]) == LowerSet(init) + {ToLower(w.text)}
  {
    var ws := init + [w];
    forall k | k in LowerSet(ws) ensures k in LowerSet(init) + {ToLower(w.text)} {
      var v :| v in ws && k == ToLower(v.text);
      if v != w {
        assert v in init;
      }
    }
  }

  lemma DistinctSnoc<T>(xs: seq<T>, x: T)
    requires Distinct(xs) && x !in xs
    ensures Distinct(xs + [x])
  {
  }

  lemma {:induction false} KeysMembers(words: seq<WordScore>)
    ensures Distinct(Keys(words))
    ensures forall k :: k in Keys(words) <==> k in LowerSet(words)
  {
    if words != [] {
      var init := words[..|words| - 1];
      var last := words[|words| - 1];
      KeysMembers(init);
      assert words == init + [last];
      LowerSetSnoc(init, last);
      var k := ToLower(last.text);
      if k !in Keys(init) {
        DistinctSnoc(Keys(init), k);
      }
    }
  }

  /** The keys are the distinct lower-case texts, each once. */
  lemma KeysSpec(words: seq<WordScore>)
    ensures Distinct(Keys(words))
    ensures forall k :: k in Keys(words) <==> k in LowerSet(words)
    ensures |Keys(words)| == |LowerSet(words)|
  {
    KeysMembers(words);
    DistinctCard(Keys(words));
    assert (set x | x in Keys(words)) == LowerSet(words);
  }

  /** The words whose lower-case text is `k`, in order. */
  function Group(words: seq<WordScore>, k: string): seq<WordScore>
  {
    if words == [] then []
    else
      var w := words[|words| - 1];
      Group(words[..|words| - 1], k) + (if ToLower(w.text) == k then [w] else [])
  }

  lemma {:induction false} GroupSpec(words: seq<WordScore>, k: string)
    ensures forall w :: w in Group(words, k) <==> w in words && ToLower(w.text) == k
    ensures Group(words, k) != [] <==> k in Keys(words)
  {
    if words != [] {
      var init := words[..|words| - 1];
      GroupSpec(init, k);
      assert words == init + [words[|words| - 1]];
    }
  }

  /** The sum of the values. */
  function Total(ws: seq<WordScore>): real
  {
    if ws == [] then 0.0 else Total(ws[..|ws| - 1]) + ws[|ws| - 1].value
  }

  /** The spelling an entry ends with: the first word's text, replaced by
      every later text that starts with an upper-case letter. */
  function Spelling(ws: seq<WordScore>): string
  {
    if ws == [] then ""
    else
      var w := ws[|ws| - 1];
      if |ws| == 1 || UpperInitial(w.text) then w.text else Spelling(ws[..|ws| - 1])
  }

  /** The spelling is that of the last word with an upper-case initial, or
      of the first word when there is none. */
  lemma {:induction false} SpellingSpec(ws: seq<WordScore>)
    requires ws != []
    ensures exists i :: 0 <= i < |ws| && Spelling(ws) == ws[i].text
    ensures (forall i :: 0 <= i < |ws| ==> !UpperInitial(ws[i].text)) ==> Spelling(ws) == ws[0].text
    ensures (exists i :: 0 <= i < |ws| && UpperInitial(ws[i].text)) ==>
      exists i :: 0 <= i < |ws| && UpperInitial(ws[i].text) && Spelling(ws) == ws[i].text
        && forall j :: i < j < |ws| ==> !UpperInitial(ws[j].text)
  {
    var n := |ws|;
    if n > 1 && !UpperInitial(ws[n - 1].text) {
      var init := ws[..n - 1];
      SpellingSpec(init);
      var k :| 0 <= k < n - 1 && Spelling(init) == init[k].text;
      assert Spelling(ws) == ws[k].text;
      if exists i :: 0 <= i < n && UpperInitial(ws[i].text) {
        var i :| 0 <= i < n && UpperInitial(ws[i].text);
        assert init[i] == ws[i];
        var m :| 0 <= m < n - 1 && UpperInitial(init[m].text) && Spelling(init) == init[m].text
          && forall j :: m < j < n - 1 ==> !UpperInitial(init[j].text);
        assert init[m] == ws[m];
        assert forall j :: m < j < n ==> !UpperInitial(ws[j].text) by {
          forall j | m < j < n
            ensures !UpperInitial(ws[j].text)
          {
            if j < n - 1 {
              assert init[j] == ws[j];
            }
          }
        }
      } else {
        assert init[0] == ws[0];
      }
    } else {
      assert Spelling(ws) == ws[n - 1].text;
    }
  }

  /** One output word: the group's spelling with the group's mean value. */
  function Row(words: seq<WordScore>, k: string): WordScore
    requires Group(words, k) != []
  {
    var g := Group(words, k);
    WordScore(Spelling(g), Total(g) / (|g| as real))
  }

  /** The rows for `keys`, in that order: what the push loop builds. */
  function Rows(words: seq<WordScore>, keys: seq<string>): (r: seq<WordScore>)
    requires forall k :: k in keys ==> Group(words, k) != []
    ensures |r| == |keys|
  {
    if keys == [] then []
    else Rows(words, keys[..|keys| - 1]) + [Row(words, keys[|keys| - 1])]
  }

  /** The merged words before sorting, one per key in first-seen order. */
  function Merged(words: seq<WordScore>): (r: seq<WordScore>)
  {
    KeysSpec(words);
    forall k | k in Keys(words)
      ensures Group(words, k) != []
    {
      GroupSpec(words, k);
    }
    Rows(words, Keys(words))
  }

  /** `b.value - a.value` as the comparator: `x` goes after every word whose
      value is at least its own, which keeps the sort stable. */
  function Insert(x: WordScore, sorted: seq<WordScore>): (r: seq<WordScore>)
    ensures |r| == |sorted| + 1
    ensures multiset(r) == multiset(sorted) + multiset{x}
  {
    if sorted == [] then [x]
    else if sorted[0].value >= x.value then
      assert sorted == [sorted[0]] + sorted[1..];
      [sorted[0]] + Insert(x, sorted[1..])
    else [x] + sorted
  }

  lemma InsertMembers(x: WordScore, sorted: seq<WordScore>)
    ensures forall y :: y in Insert(x, sorted) <==> y == x || y in sorted
  {
    var r := Insert(x, sorted);
    forall y
      ensures y in r <==> y == x || y in sorted
    {
      assert y in r <==> y in multiset(r);
      assert y in sorted <==> y in multiset(sorted);
    }
  }

  /** `sort((a, b) => b.value - a.value)`, stable as the language requires. */
  function SortByValue(words: seq<WordScore>): (r: seq<WordScore>)
    ensures |r| == |words|
    ensures multiset(r) == multiset(words)
  {
    if words == [] then []
    else
      var init := words[..|words| - 1];
      assert words == init + [words[|words| - 1]];
      Insert(words[|words| - 1], SortByValue(init))
  }

  predicate NonIncreasing(ws: seq<WordScore>)
  {
    forall i, j :: 0 <= i < j < |ws| ==> ws[i].value >= ws[j].value
  }

  lemma {:induction false} InsertSorted(x: WordScore, sorted: seq<WordScore>)
    requires NonIncreasing(sorted)
    ensures NonIncreasing(Insert(x, sorted))
  {
    if sorted != [] && sorted[0].value >= x.value {
      InsertSorted(x, sorted[1..]);
      var r := Insert(x, sorted[1..]);
      forall y | y in r
        ensures sorted[0].value >= y.value
      {
        assert y in multiset(r);
        if y != x {
          assert y in sorted[1..];
        }
      }
    }
  }

  /** The sort puts the words in non-increasing order of value. */
  lemma {:induction false} SortByValueSorted(words: seq<WordScore>)
    ensures NonIncreasing(SortByValue(words))
  {
    if words != [] {
      SortByValueSorted(words[..|words| - 1]);
      InsertSorted(words[|words| - 1], SortByValue(words[..|words| - 1]));
    }
  }

  /** No two words share a lower-case text. */
  predicate DistinctLower(ws: seq<WordScore>)
  {
    forall i, j :: 0 <= i < j < |ws| ==> ToLower(ws[i].text) != ToLower(ws[j].text)
  }

  lemma PrependDistinct(y: WordScore, ws: seq<WordScore>)
    requires DistinctLower(ws)
    requires forall z | z in ws :: ToLower(z.text) != ToLower(y.text)
    ensures DistinctLower([y] + ws)
  {
    var all := [y] + ws;
    forall i, j | 0 <= i < j < |all|
      ensures ToLower(all[i].text) != ToLower(all[j].text)
    {
      assert all[j] == ws[j - 1];
      if i == 0 {
        assert ws[j - 1] in ws;
      } else {
        assert all[i] == ws[i - 1];
      }
    }
  }

  lemma {:induction false} InsertDistinct(x: WordScore, sorted: seq<WordScore>)
    requires DistinctLower(sorted)
    requires forall y | y in sorted :: ToLower(y.text) != ToLower(x.text)
    ensures DistinctLower(Insert(x, sorted))
  {
    if sorted == [] {
    } else if sorted[0].value >= x.value {
      var tail := sorted[1..];
      assert DistinctLower(tail) by {
        forall i, j | 0 <= i < j < |tail|
          ensures ToLower(tail[i].text) != ToLower(tail[j].text)
        {
          assert tail[i] == sorted[i + 1] && tail[j] == sorted[j + 1];
        }
      }
      InsertDistinct(x, tail);
      var r := Insert(x, tail);
      InsertMembers(x, tail);
      forall y | y in r
        ensures ToLower(y.text) != ToLower(sorted[0].text)
      {
        if y != x {
          var k :| 0 <= k < |tail| && tail[k] == y;
          assert sorted[k + 1] == y;
        }
      }
      PrependDistinct(sorted[0], r);
    } else {
      PrependDistinct(x, sorted);
    }
  }

  /** Sorting keeps the lower-case texts distinct. */
  lemma {:induction false} SortKeepsDistinct(words: seq<WordScore>)
    requires DistinctLower(words)
    ensures DistinctLower(SortByValue(words))
  {
    if words != [] {
      var init := words[..|words| - 1];
      var x := words[|words| - 1];
      SortKeepsDistinct(init);
      forall y | y in SortByValue(init)
        ensures ToLower(y.text) != ToLower(x.text)
      {
        assert y in multiset(SortByValue(init));
        var j :| 0 <= j < |init| && init[j] == y;
        assert words[j] == y;
      }
      InsertDistinct(x, SortByValue(init));
    }
  }

  /** Why `dedup` can fail: the first word with an empty text, on which
      `word.text[0].toUpperCase()` throws. */
  datatype DedupError = EmptyText(index: nat)

  /** The index of the first word with an empty text, if any. */
  function FirstEmpty(words: seq<WordScore>): (r: Option<nat>)
    ensures r.Some? ==>
      && r.value < |words| && words[r.value].text == []
      && forall j :: 0 <= j < r.value ==> words[j].text != []
    ensures r.None? ==> NonEmptyTexts(words)
  {
    assert words != [] ==> forall w | w in words :: w == words[0] || w in words[1..];
    if words == [] then None
    else if words[0].text == [] then Some(0)
    else match FirstEmpty(words[1..])
      case None => None
      case Some(j) => Some(j + 1)
  }

  /** What `dedup` returns, or the error it throws. */
  function Deduped(words: seq<WordScore>): Result<seq<WordScore>, DedupError>
  {
    match FirstEmpty(words)
    case Some(i) => Failure(EmptyText(i))
    case None => Success(SortByValue(Merged(words)))
  }

  /** The merged word of a key spells the key. */
  lemma RowLower(words: seq<WordScore>, k: string)
    requires Group(words, k) != []
    ensures ToLower(Row(words, k).text) == k
  {
    var g := Group(words, k);
    GroupSpec(words, k);
    SpellingSpec(g);
    var i :| 0 <= i < |g| && Spelling(g) == g[i].text;
    assert g[i] in g;
  }

  /** The rows appear in the order of their keys. */
  lemma {:induction false} RowsSpec(words: seq<WordScore>, keys: seq<string>)
    requires forall k :: k in keys ==> Group(words, k) != []
    ensures forall i :: 0 <= i < |keys| ==> Rows(words, keys)[i] == Row(words, keys[i])
  {
    if keys != [] {
      var init := keys[..|keys| - 1];
      RowsSpec(words, init);
      forall i | 0 <= i < |keys|
        ensures Rows(words, keys)[i] == Row(words, keys[i])
      {
        if i < |init| {
          assert keys[i] == init[i];
        }
      }
    }
  }

  /** Before sorting no two merged words share a lower-case text. */
  lemma MergedDistinct(words: seq<WordScore>)
    ensures DistinctLower(Merged(words))
  {
    var merged := Merged(words);
    var keys := Keys(words);
    KeysSpec(words);
    forall k | k in keys
      ensures Group(words, k) != []
    {
      GroupSpec(words, k);
    }
    RowsSpec(words, keys);
    forall i, j | 0 <= i < j < |merged|
      ensures ToLower(merged[i].text) != ToLower(merged[j].text)
    {
      RowLower(words, keys[i]);
      RowLower(words, keys[j]);
    }
  }

  /** Before sorting the merged words are the rows of the keys. */
  lemma MergedMembers(words: seq<WordScore>)
    ensures forall w :: w in Merged(words) <==>
      exists k :: k in Keys(words) && Group(words, k) != [] && w == Row(words, k)
  {
    var merged := Merged(words);
    var keys := Keys(words);
    forall k | k in keys
      ensures Group(words, k) != []
    {
      GroupSpec(words, k);
    }
    RowsSpec(words, keys);
    forall w
      ensures w in merged <==> exists k :: k in keys && Group(words, k) != [] && w == Row(words, k)
    {
      if w in merged {
        var i :| 0 <= i < |merged| && merged[i] == w;
        assert keys[i] in keys;
      }
      if exists k :: k in keys && Group(words, k) != [] && w == Row(words, k) {
        var k :| k in keys && Group(words, k) != [] && w == Row(words, k);
        var i :| 0 <= i < |keys| && keys[i] == k;
        assert merged[i] == w;
      }
    }
  }

  /** The outcome of `dedup`: it throws exactly when some text is empty;
      otherwise it returns one word per distinct lower-case text, no two
      sharing one, each the row of its key, sorted by value. */
  lemma DedupSpec(words: seq<WordScore>)
    ensures Deduped(words).Failure? <==> exists i :: 0 <= i < |words| && words[i].text == []
    ensures Deduped(words).Failure? ==> words[Deduped(words).error.index].text == []
    ensures Deduped(words).Success? ==>
      var out := Deduped(words).value;
      && |out| == |LowerSet(words)|
      && DistinctLower(out)
      && NonIncreasing(out)
      && forall w :: w in out <==> exists k :: k in LowerSet(words) && Group(words, k) != [] && w == Row(words, k)
  {
    if FirstEmpty(words).None? {
      var merged := Merged(words);
      KeysSpec(words);
      MergedDistinct(words);
      MergedMembers(words);
      var out := SortByValue(merged);
      SortByValueSorted(merged);
      SortKeepsDistinct(merged);
      forall w
        ensures w in out <==> w in merged
      {
        assert w in out <==> w in multiset(out);
        assert w in merged <==> w in multiset(merged);
      }
    }
  }

  /** `x` added `n` times. */
  function Times(n: nat, x: real): real
  {
    if n == 0 then 0.0 else Times(n - 1, x) + x
  }

  lemma {:induction false} TimesIsProduct(n: nat, x: real)
    ensures Times(n, x) == (n as real) * x
  {
    if n > 0 {
      TimesIsProduct(n - 1, x);
      assert (n as real) * x == ((n - 1) as real) * x + x;
    }
  }

  lemma QuotientBounds(t: real, n: real, lo: real, hi: real)
    requires n > 0.0 && n * lo <= t <= n * hi
    ensures lo <= t / n <= hi
  {
    assert (t / n - lo) * n == t - n * lo;
    assert (hi - t / n) * n == n * hi - t;
  }

  /** The total of values that lie between `lo` and `hi`. */
  lemma {:induction false} TotalBounds(ws: seq<WordScore>, lo: real, hi: real)
    requires forall w | w in ws :: lo <= w.value <= hi
    ensures Times(|ws|, lo) <= Total(ws) <= Times(|ws|, hi)
  {
    if ws != [] {
      var init := ws[..|ws| - 1];
      assert forall w | w in init :: w in ws;
      TotalBounds(init, lo, hi);
      assert ws[|ws| - 1] in ws;
    }
  }

  lemma TimesQuotientBounds(t: real, n: nat, lo: real, hi: real)
    requires n > 0 && Times(n, lo) <= t <= Times(n, hi)
    ensures lo <= t / (n as real) <= hi
  {
    TimesIsProduct(n, lo);
    TimesIsProduct(n, hi);
    QuotientBounds(t, n as real, lo, hi);
  }

  /** The mean of values that lie between `lo` and `hi` lies between them
      too: the value `dedup` gives a merged word is within the range of the
      values it merges. */
  lemma MeanBounds(ws: seq<WordScore>, lo: real, hi: real)
    requires ws != []
    requires forall w | w in ws :: lo <= w.value <= hi
    ensures lo <= Total(ws) / (|ws| as real) <= hi
  {
    TotalBounds(ws, lo, hi);
    TimesQuotientBounds(Total(ws), |ws|, lo, hi);
  }

  /** One entry of the source's `Map`. */
  datatype Entry = Entry(totalValue: real, count: nat, originalCase: string)

  /** The entry the loop holds for key `k` once it has seen `words`. */
  function EntryOf(words: seq<WordScore>, k: string): Entry
  {
    var g := Group(words, k);
    Entry(Total(g), |g|, Spelling(g))
  }

  /** How one more word changes the entry of a key: the entry of its own key
      gains its value and one to its count, and takes its spelling when it is
      the first word of the key or starts with an upper-case letter. */
  lemma GroupSnoc(seen: seq<WordScore>, word: WordScore, k: string)
    ensures Group(seen + [word], k) == Group(seen, k) + (if ToLower(word.text) == k then [word] else [])
  {
    var ws := seen + [word];
    assert ws[..|ws| - 1] == seen;
  }

  lemma EntrySnoc(seen: seq<WordScore>, word: WordScore, k: string)
    ensures var e := EntryOf(seen, k);
      EntryOf(seen + [word], k) ==
        if ToLower(word.text) != k then e
        else Entry(e.totalValue + word.value, e.count + 1,
                   if e.count == 0 || UpperInitial(word.text) then word.text else e.originalCase)
  {
    var g := Group(seen, k);
    var g' := Group(seen + [word], k);
    GroupSnoc(seen, word, k);
    if ToLower(word.text) == k {
      assert g' == g + [word];
      assert g'[..|g'| - 1] == g;
      assert Total(g') == Total(g) + word.value;
      assert Spelling(g') == if |g| == 0 || UpperInitial(word.text) then word.text else Spelling(g);
      assert EntryOf(seen + [word], k) == Entry(Total(g'), |g'|, Spelling(g'));
    } else {
      assert g' == g;
    }
  }

  lemma KeysSnoc(seen: seq<WordScore>, word: WordScore)
    ensures var keys := Keys(seen);
      Keys(seen + [word]) == if ToLower(word.text) in keys then keys else keys + [ToLower(word.text)]
    ensures ToLower(word.text) !in Keys(seen) ==> Group(seen, ToLower(word.text)) == []
  {
    var ws := seen + [word];
    assert ws[..|ws| - 1] == seen;
    KeysSpec(seen);
    GroupSpec(seen, ToLower(word.text));
  }


  /** The first `i` words all have non-empty texts. */
  predicate TextsUpTo(words: seq<WordScore>, i: nat)
    requires i <= |words|
  {
    i == 0 || (words[i - 1].text != [] && TextsUpTo(words, i - 1))
  }

  lemma {:induction false} TextsUpToAll(words: seq<WordScore>, i: nat)
    requires i <= |words| && TextsUpTo(words, i)
    ensures forall j :: 0 <= j < i ==> words[j].text != []
  {
    if i > 0 {
      TextsUpToAll(words, i - 1);
    }
  }

  /** Words with no empty text have no first empty one. */
  lemma NoEmptyText(words: seq<WordScore>)
    requires TextsUpTo(words, |words|)
    ensures FirstEmpty(words) == None
  {
    TextsUpToAll(words, |words|);
    assert NonEmptyTexts(words);
  }

  /** An empty text after non-empty ones is the first empty one. */
  lemma FirstEmptyAt(words: seq<WordScore>, i: nat)
    requires i < |words| && words[i].text == [] && TextsUpTo(words, i)
    ensures FirstEmpty(words) == Some(i)
  {
    TextsUpToAll(words, i);
    FirstEmptyIndex(words, i);
  }

  lemma FirstEmptyIndex(words: seq<WordScore>, i: nat)
    requires i < |words| && words[i].text == []
    requires forall j :: 0 <= j < i ==> words[j].text != []
    ensures FirstEmpty(words) == Some(i)
  {
  }

  /** What the loop body does to the entry of the word's key. */
  function Step(e: Entry, word: WordScore): Entry
  {
    Entry(e.totalValue + word.value, e.count + 1,
      if UpperInitial(word.text) then word.text else e.originalCase)
  }

  /** The source's `Map` once the loop has seen `words`. */
  function Table(words: seq<WordScore>): map<string, Entry>
  {
    if words == [] then map[]
    else
      var t := Table(words[..|words| - 1]);
      var word := words[|words| - 1];
      var k := ToLower(word.text);
      t[k := Step(if k in t then t[k] else Entry(0.0, 0, word.text), word)]
  }

  lemma TableEntryStep(init: seq<WordScore>, word: WordScore, k: string)
    requires k in Table(init) <==> k in Keys(init)
    requires k in Table(init) ==> Table(init)[k] == EntryOf(init, k)
    ensures k in Table(init + [word]) <==> k in Keys(init + [word])
    ensures k in Table(init + [word]) ==> Table(init + [word])[k] == EntryOf(init + [word], k)
  {
    var ws := init + [word];
    TableSnoc(init, word);
    KeysSnoc(init, word);
    if k != ToLower(word.text) {
      EntrySnoc(init, word, k);
    } else {
      NewKeyEntry(init, word);
    }
  }

  /** The entry of the new word's own key, whether the key is new or not. */
  lemma NewKeyEntry(init: seq<WordScore>, word: WordScore)
    requires var k := ToLower(word.text);
      && (k in Table(init) <==> k in Keys(init))
      && (k in Table(init) ==> Table(init)[k] == EntryOf(init, k))
    ensures var k := ToLower(word.text);
      var t := Table(init);
      Step(if k in t then t[k] else Entry(0.0, 0, word.text), word) == EntryOf(init + [word], k)
  {
    var k := ToLower(word.text);
    EntrySnoc(init, word, k);
    GroupSpec(init, k);
    KeysSnoc(init, word);
  }

  /** The table holds one entry per lower-case text, each summing the values
      and counting the words of its key, with the spelling of `Spelling`. */
  lemma {:induction false} TableSpec(words: seq<WordScore>)
    ensures forall k :: k in Table(words) <==> k in Keys(words)
    ensures forall k | k in Table(words) :: Table(words)[k] == EntryOf(words, k)
  {
    if words != [] {
      var init := words[..|words| - 1];
      var word := words[|words| - 1];
      assert words == init + [word];
      TableSpec(init);
      forall k
        ensures k in Table(words) <==> k in Keys(words)
        ensures k in Table(words) ==> Table(words)[k] == EntryOf(words, k)
      {
        TableEntryStep(init, word, k);
      }
    }
  }

  lemma TableHasKey(words: seq<WordScore>, k: string)
    ensures k in Table(words) <==> k in Keys(words)
  {
    TableSpec(words);
  }

  /** `Table` of a longer prefix: one more `Step` on the new word's key. */
  lemma TableSnoc(seen: seq<WordScore>, word: WordScore)
    ensures var t := Table(seen);
      var k := ToLower(word.text);
      Table(seen + [word]) == t[k := Step(if k in t then t[k] else Entry(0.0, 0, word.text), word)]
  {
    assert (seen + [word])[..|seen|] == seen;
  }

  /** Lines 77-83 of the loop body: add the word's value and count it, and
      take its spelling when it starts with an upper-case letter. */
  method UpdateEntry(entry: Entry, word: WordScore) returns (updated: Entry)
    requires word.text != []
    ensures updated == Step(entry, word)
  {
    updated := entry.(totalValue := entry.totalValue + word.value, count := entry.count + 1);
    if UpperChar(word.text[0]) == word.text[0] && LowerChar(word.text[0]) != word.text[0] {
      updated := updated.(originalCase := word.text);
    }
  }

  /** `Table` and `Keys` one word further on. */
  lemma GroupStep(words: seq<WordScore>, i: nat)
    requires i < |words|
    ensures var t := Table(words[..i]);
      var k := ToLower(words[i].text);
      && (k in t <==> k in Keys(words[..i]))
      && Keys(words[..i + 1]) == (if k in t then Keys(words[..i]) else Keys(words[..i]) + [k])
      && Table(words[..i + 1]) == t[k := Step(if k in t then t[k] else Entry(0.0, 0, words[i].text), words[i])]
  {
    assert words[..i + 1] == words[..i] + [words[i]];
    TableSnoc(words[..i], words[i]);
    KeysSnoc(words[..i], words[i]);
    TableHasKey(words[..i], ToLower(words[i].text));
  }

  /** One turn of the grouping loop, for a word with a non-empty text: a new
      key is set with an empty entry and queued, and the entry then takes
      the word's value, count and spelling. */
  method AddWord(ghost words: seq<WordScore>, ghost i: nat, wordMap: map<string, Entry>, order: seq<string>,
                 word: WordScore)
    returns (wordMap': map<string, Entry>, order': seq<string>)
    requires i < |words| && word == words[i] && word.text != []
    requires order == Keys(words[..i]) && wordMap == Table(words[..i])
    ensures order' == Keys(words[..i + 1]) && wordMap' == Table(words[..i + 1])
  {
    var lowerText := ToLower(word.text);
    GroupStep(words, i);
    var entry := if lowerText in wordMap then wordMap[lowerText] else Entry(0.0, 0, word.text);
    order' := order;
    if lowerText !in wordMap {
      order' := order + [lowerText];
    }
    entry := UpdateEntry(entry, word);
    wordMap' := wordMap[lowerText := entry];
  }

  /** The grouping loop of `dedup`: one entry per lower-case text, keys in
      the order first seen, or the index of the word it throws on. */
  method GroupWords(words: seq<WordScore>) returns (wordMap: map<string, Entry>, order: seq<string>, failed: Option<nat>)
    ensures failed == FirstEmpty(words)
    ensures failed.None? ==> order == Keys(words) && wordMap == Table(words)
  {
    wordMap := map[];
    order := [];
    for i := 0 to |words|
      invariant TextsUpTo(words, i)
      invariant order == Keys(words[..i])
      invariant wordMap == Table(words[..i])
    {
      var word := words[i];
      if word.text == [] {
        // `word.text[0].toUpperCase()` throws on this word; what the body
        // did to the map before that is lost with it.
        FirstEmptyAt(words, i);
        return wordMap, order, Some(i);
      }
      wordMap, order := AddWord(words, i, wordMap, order, word);
    }
    assert words[..|words|] == words;
    failed := None;
    NoEmptyText(words);
  }

  /** The push loop of `dedup`: for each key in order, the entry's spelling
      with its total divided by its count. */
  method PushRows(ghost words: seq<WordScore>, wordMap: map<string, Entry>, order: seq<string>)
    returns (dedupedWords: seq<WordScore>)
    requires forall k :: k in order ==> Group(words, k) != [] && k in wordMap && wordMap[k] == EntryOf(words, k)
    ensures dedupedWords == Rows(words, order)
  {
    dedupedWords := [];
    for j := 0 to |order|
      invariant dedupedWords == Rows(words, order[..j])
    {
      assert order[..j + 1][..j] == order[..j];
      var data := wordMap[order[j]];
      dedupedWords := dedupedWords + [WordScore(data.originalCase, data.totalValue / (data.count as real))];
    }
    assert order[..|order|] == order;
  }

  /** `dedup(words)`: the grouping loop, the push loop, then the sort. */
  method Dedup(words: seq<WordScore>) returns (r: Result<seq<WordScore>, DedupError>)
    ensures r == Deduped(words)
  {
    var wordMap, order, failed := GroupWords(words);
    if failed.Some? {
      return Failure(EmptyText(failed.value));
    }
    KeysSpec(words);
    TableSpec(words);
    forall k | k in order
      ensures Group(words, k) != []
    {
      GroupSpec(words, k);
    }
    var dedupedWords := PushRows(words, wordMap, order);
    r := Success(SortByValue(dedupedWords));
  }

  /** The passes in the order `preprocess` applies them, before `dedup`. */
  function Cleaned(words: seq<WordScore>): seq<WordScore>
  {
    var processed := RemoveNumbers(RemoveNewlines(RemoveWhitespace(RemovePunctuation(words))));
    RemoveNonAlphabetic(RemoveStopWords(RemoveEmptyWords(processed)))
  }

  /** `preprocess(words)`: every word it returns is a non-empty run of ASCII
      letters and not a stop word, no two share a lower-case text, and they
      come in non-increasing order of value; `dedup` cannot throw here. */
  method Preprocess(words: seq<WordScore>) returns (processed: seq<WordScore>)
    ensures Deduped(Cleaned(words)) == Success(processed)
    ensures forall w | w in processed :: IsLetters(w.text) && !IsStopWord(w.text)
    ensures DistinctLower(processed)
    ensures NonIncreasing(processed)
  {
    var cleaned := RemovePunctuation(words);
    cleaned := RemoveWhitespace(cleaned);
    cleaned := RemoveNewlines(cleaned);
    cleaned := RemoveNumbers(cleaned);
    cleaned := RemoveEmptyWords(cleaned);
    cleaned := RemoveStopWords(cleaned);
    cleaned := RemoveNonAlphabetic(cleaned);
    assert cleaned == Cleaned(words);
    assert forall i :: 0 <= i < |cleaned| ==> cleaned[i].text != [] by {
      forall i | 0 <= i < |cleaned|
        ensures cleaned[i].text != []
      {
        assert cleaned[i] in cleaned;
      }
    }
    var deduped := Dedup(cleaned);
    DedupSpec(cleaned);
    processed := deduped.value;
    forall w | w in processed
      ensures IsLetters(w.text) && !IsStopWord(w.text)
    {
      var k :| k in LowerSet(cleaned) && Group(cleaned, k) != [] && w == Row(cleaned, k);
      var g := Group(cleaned, k);
      GroupSpec(cleaned, k);
      SpellingSpec(g);
      var i :| 0 <= i < |g| && Spelling(g) == g[i].text;
      assert g[i] in g;
    }
  }
}
