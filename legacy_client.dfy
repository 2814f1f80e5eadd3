/** The stand-alone browser client (inf_llm/static/js/index.js): the submit
    handler that posts the prompt with the history, reads the streamed reply
    as lines, keeps only `data: ` lines, and records the turn; and the stop
    button. */
module LegacyClient {

  import opened Wrappers
  import opened Strings
  import JsText
  import Serve

  // ---------------------------------------------------------------------
  // Line framing: `buffer.split(/\r?\n/)`.

  /** The index of the first line feed in `s`, or -1. */
  function NewlineAt(s: string): (i: int)
    ensures -1 <= i < |s|
  {
    if s == [] then -1
    else if s[0] == '\n' then 0
    else
      var k := NewlineAt(s[1..]);
      if k < 0 then -1 else k + 1
  }

  predicate NoNewline(s: string)
  {
    forall j :: 0 <= j < |s| ==> s[j] != '\n'
  }

  /** `NewlineAt` finds the first line feed, and -1 means there is none. */
  lemma {:induction false} NewlineAtSpec(s: string)
    ensures NewlineAt(s) >= 0 ==> s[NewlineAt(s)] == '\n' && NoNewline(s[..NewlineAt(s)])
    ensures NewlineAt(s) < 0 <==> NoNewline(s)
  {
    if s != [] && s[0] != '\n' {
      NewlineAtSpec(s[1..]);
      var k := NewlineAt(s[1..]);
      if k >= 0 {
        assert s[..k + 1] == [s[0]] + s[1..][..k];
      } else {
        assert forall j :: 1 <= j < |s| ==> s[j] == s[1..][j - 1];
      }
    } else if s != [] {
      assert s[0] == '\n';
    }
  }

  /** A line feed at `i` with none before it is the first one. */
  lemma {:induction false} NewlineAtIs(s: string, i: int)
    requires 0 <= i < |s| && s[i] == '\n' && NoNewline(s[..i])
    ensures NewlineAt(s) == i
    decreases i
  {
    if i > 0 {
      assert s[0] == s[..i][0];
      assert s[1..][..i - 1] == s[..i][1..];
      NewlineAtIs(s[1..], i - 1);
    }
  }

  /** A line as the separator `\r?\n` leaves it: one carriage return just
      before the line feed belongs to the separator. */
  function DropCR(line: string): string
  {
    if line != [] && line[|line| - 1] == '\r' then line[..|line| - 1] else line
  }

  /** `s.split(/\r?\n/)`: the pieces between line breaks, the last of which
      is whatever follows the last line feed. */
  function SplitLines(s: string): (lines: seq<string>)
    ensures lines != []
    decreases |s|
  {
    var i := NewlineAt(s);
    if i < 0 then [s] else [DropCR(s[..i])] + SplitLines(s[i + 1..])
  }

  /** The lines a line feed has ended. */
  function CompleteLines(s: string): seq<string>
  {
    var lines := SplitLines(s);
    lines[..|lines| - 1]
  }

  /** What follows the last line feed: the buffer kept for the next chunk. */
  function Rest(s: string): string
  {
    var lines := SplitLines(s);
    lines[|lines| - 1]
  }

  /** No piece of the split contains a line feed. */
  lemma {:induction false} SplitLinesHaveNoNewline(s: string)
    ensures forall k | 0 <= k < |SplitLines(s)| :: NoNewline(SplitLines(s)[k])
    decreases |s|
  {
    var i := NewlineAt(s);
    NewlineAtSpec(s);
    if i >= 0 {
      SplitLinesHaveNoNewline(s[i + 1..]);
      var first := DropCR(s[..i]);
      assert forall j :: 0 <= j < |first| ==> first[j] == s[..i][j];
    }
  }

  /** A line feed in `a` ends the same first line of `a + b`. */
  lemma SplitAfterNewline(a: string, b: string)
    requires NewlineAt(a) >= 0
    ensures var i := NewlineAt(a);
      SplitLines(a + b) == [DropCR(a[..i])] + SplitLines(a[i + 1..] + b)
  {
    var i := NewlineAt(a);
    NewlineAtSpec(a);
    var ab := a + b;
    assert ab[..i] == a[..i];
    NewlineAtIs(ab, i);
    assert ab[i + 1..] == a[i + 1..] + b;
  }

  lemma ConsSplice(first: string, lr: seq<string>, y: seq<string>)
    requires lr != []
    ensures var la := [first] + lr;
      && [first] + (lr[..|lr| - 1] + y) == la[..|la| - 1] + y
      && la[|la| - 1] == lr[|lr| - 1]
  {
    var la := [first] + lr;
    assert la[..|la| - 1] == [first] + lr[..|lr| - 1];
  }

  /** Splitting a longer text: the lines already complete stay as they are,
      and the new text continues the unfinished last piece. */
  lemma {:induction false} SplitLinesAppend(a: string, b: string)
    ensures var la := SplitLines(a);
      SplitLines(a + b) == la[..|la| - 1] + SplitLines(la[|la| - 1] + b)
    decreases |a|
  {
    var i := NewlineAt(a);
    var la := SplitLines(a);
    if i < 0 {
      assert la == [a];
      assert la[..|la| - 1] + SplitLines(la[|la| - 1] + b) == SplitLines(a + b);
    } else {
      var first := DropCR(a[..i]);
      var lr := SplitLines(a[i + 1..]);
      assert la == [first] + lr;
      SplitAfterNewline(a, b);
      SplitLinesAppend(a[i + 1..], b);
      ConsSplice(first, lr, SplitLines(lr[|lr| - 1] + b));
    }
  }

  const DataPrefix: string := "data: "

  /** The text the `data: ` lines among `lines` carry, in order. */
  function DataText(lines: seq<string>): string
  {
    if lines == [] then ""
    else
      var line := lines[|lines| - 1];
      DataText(lines[..|lines| - 1]) + (if StartsWith(line, DataPrefix) then line[6..] else "")
  }

  lemma {:induction false} DataTextAppend(xs: seq<string>, ys: seq<string>)
    ensures DataText(xs + ys) == DataText(xs) + DataText(ys)
    decreases |ys|
  {
    if ys == [] {
      assert xs + ys == xs;
    } else {
      assert (xs + ys)[..|xs + ys| - 1] == xs + ys[..|ys| - 1];
      DataTextAppend(xs, ys[..|ys| - 1]);
    }
  }

  /** The text the complete lines of a stream carry, and the buffer left, grow
      chunk by chunk exactly as the read loop advances them. */
  lemma ReadStep(received: string, chunk: string)
    ensures var lines := SplitLines(Rest(received) + chunk);
      && DataText(CompleteLines(received + chunk))
         == DataText(CompleteLines(received)) + DataText(lines[..|lines| - 1])
      && Rest(received + chunk) == lines[|lines| - 1]
  {
    var la := SplitLines(received);
    var lines := SplitLines(Rest(received) + chunk);
    var all := SplitLines(received + chunk);
    SplitLinesAppend(received, chunk);
    assert all == la[..|la| - 1] + lines;
    InitOfAppend(la[..|la| - 1], lines);
    DataTextAppend(la[..|la| - 1], lines[..|lines| - 1]);
    assert CompleteLines(received + chunk) == la[..|la| - 1] + lines[..|lines| - 1];
    assert CompleteLines(received) == la[..|la| - 1];
  }

  lemma InitOfAppend(xs: seq<string>, ys: seq<string>)
    requires ys != []
    ensures var zs := xs + ys;
      zs[..|zs| - 1] == xs + ys[..|ys| - 1] && zs[|zs| - 1] == ys[|ys| - 1]
  {
  }

  /** `s` with every `\r\n` written as a bare `\n`. */
  function BareBreaks(s: string): string
    decreases |s|
  {
    if s == [] then ""
    else if s[0] == '\r' && |s| > 1 && s[1] == '\n' then BareBreaks(s[1..])
    else [s[0]] + BareBreaks(s[1..])
  }

  /** Lines written back one after the other, each ended by a line feed. */
  function JoinLines(lines: seq<string>): string
  {
    if lines == [] then "" else lines[0] + "\n" + JoinLines(lines[1..])
  }

  /** A line and its line feed: the carriage return just before the line
      feed is the only one that goes. */
  lemma {:induction false} BareBreaksLine(x: string, u: string)
    requires NoNewline(x)
    ensures BareBreaks(x + "\n" + u) == DropCR(x) + "\n" + BareBreaks(u)
    decreases |x|
  {
    if x == [] {
      LineFeedFirst(x, u);
    } else if x == "\r" {
      LineFeedFirst([], u);
      CarriageReturnLine(u);
    } else {
      NoNewlineTail(x);
      BareBreaksLine(x[1..], u);
      OrdinaryFirst(x, u);
    }
  }

  lemma LineFeedFirst(x: string, u: string)
    requires x == []
    ensures BareBreaks(x + "\n" + u) == DropCR(x) + "\n" + BareBreaks(u)
  {
    var s := x + "\n" + u;
    assert s == "\n" + u;
    BareBreaksKeep(s);
    assert s[1..] == u;
  }

  lemma CarriageReturnLine(u: string)
    requires BareBreaks([] + "\n" + u) == DropCR([]) + "\n" + BareBreaks(u)
    ensures BareBreaks("\r" + "\n" + u) == DropCR("\r") + "\n" + BareBreaks(u)
  {
    var s := "\r" + "\n" + u;
    BareBreaksDrop(s);
    assert s[1..] == [] + "\n" + u;
  }

  /** The step past a first character that does not start the separator. */
  lemma OrdinaryFirst(x: string, u: string)
    requires x != [] && x != "\r" && (|x| > 1 ==> x[1] != '\n')
    requires BareBreaks(x[1..] + "\n" + u) == DropCR(x[1..]) + "\n" + BareBreaks(u)
    ensures BareBreaks(x + "\n" + u) == DropCR(x) + "\n" + BareBreaks(u)
  {
    var s := x + "\n" + u;
    LineTail(x, u);
    BareBreaksKeep(s);
    assert DropCR(x) == [x[0]] + DropCR(x[1..]);
  }

  lemma BareBreaksKeep(s: string)
    requires s != [] && !(s[0] == '\r' && |s| > 1 && s[1] == '\n')
    ensures BareBreaks(s) == [s[0]] + BareBreaks(s[1..])
  {
  }

  lemma BareBreaksDrop(s: string)
    requires |s| > 1 && s[0] == '\r' && s[1] == '\n'
    ensures BareBreaks(s) == BareBreaks(s[1..])
  {
  }

  lemma NoNewlineTail(x: string)
    requires x != [] && NoNewline(x)
    ensures NoNewline(x[1..]) && (|x| > 1 ==> x[1] != '\n')
  {
    assert forall j :: 0 <= j < |x| - 1 ==> x[1..][j] == x[j + 1];
  }

  /** Past the first character of a line that is not a lone carriage return,
      its line feed is still ahead. */
  lemma LineTail(x: string, u: string)
    requires x != [] && x != "\r" && (|x| > 1 ==> x[1] != '\n')
    ensures var s := x + "\n" + u;
      && s[0] == x[0] && s[1..] == x[1..] + "\n" + u
      && !(s[0] == '\r' && |s| > 1 && s[1] == '\n')
  {
    var s := x + "\n" + u;
    if |x| == 1 {
      assert x == [x[0]];
    } else {
      assert s[1] == x[1];
    }
  }

  /** The first line of a text that holds a line feed, and what follows. */
  lemma SplitFirst(s: string) returns (x: string, t: string)
    requires NewlineAt(s) >= 0
    ensures s == x + "\n" + t && NoNewline(x) && |t| < |s|
    ensures CompleteLines(s) == [DropCR(x)] + CompleteLines(t) && Rest(s) == Rest(t)
  {
    var i := NewlineAt(s);
    NewlineAtSpec(s);
    x, t := s[..i], s[i + 1..];
    assert s == x + "\n" + t;
    var lr := SplitLines(t);
    assert SplitLines(s) == [DropCR(x)] + lr;
    ConsSplice(DropCR(x), lr, []);
  }

  /** Splitting loses nothing but the carriage returns of `\r\n`: the
      buffer is the part of `s` after its last line feed, and the complete
      lines, each followed by a line feed, give back the text up to it. */
  lemma {:induction false} SplitLinesRebuild(s: string)
    ensures |Rest(s)| <= |s| && s[|s| - |Rest(s)|..] == Rest(s) && NoNewline(Rest(s))
    ensures |Rest(s)| < |s| ==> s[|s| - |Rest(s)| - 1] == '\n'
    ensures JoinLines(CompleteLines(s)) == BareBreaks(s[..|s| - |Rest(s)|])
    decreases |s|
  {
    if NewlineAt(s) < 0 {
      NewlineAtSpec(s);
      assert SplitLines(s) == [s];
      assert s[..0] == "";
    } else {
      var x, t := SplitFirst(s);
      SplitLinesRebuild(t);
      var r := Rest(t);
      var k := |t| - |r|;
      LinePrefix(x, t, k);
      var c := CompleteLines(t);
      calc {
        JoinLines(CompleteLines(s));
        { assert ([DropCR(x)] + c)[1..] == c; }
        DropCR(x) + "\n" + JoinLines(c);
        DropCR(x) + "\n" + BareBreaks(t[..k]);
        { BareBreaksLine(x, t[..k]); }
        BareBreaks(x + "\n" + t[..k]);
      }
    }
  }

  /** Positions in `x + "\n" + t` past the line feed are positions in `t`. */
  lemma LinePrefix(x: string, t: string, k: nat)
    requires k <= |t|
    ensures var s := x + "\n" + t;
      && s[..|x| + 1 + k] == x + "\n" + t[..k]
      && s[|x| + 1 + k..] == t[k..]
      && (k > 0 ==> s[|x| + k] == t[k - 1])
      && (k == 0 ==> s[|x| + k] == '\n')
  {
  }

  /** A line as the split gives it back: no line feed, and no carriage
      return at its end that the separator would take. */
  predicate PlainLine(line: string)
  {
    NoNewline(line) && (line == [] || line[|line| - 1] != '\r')
  }

  /** The other way round: plain lines, each followed by a line feed, and
      then an unfinished piece split back into those lines and that piece. */
  lemma {:induction false} SplitJoined(lines: seq<string>, rest: string)
    requires forall k :: 0 <= k < |lines| ==> PlainLine(lines[k])
    requires NoNewline(rest)
    ensures SplitLines(JoinLines(lines) + rest) == lines + [rest]
    ensures CompleteLines(JoinLines(lines) + rest) == lines
    ensures Rest(JoinLines(lines) + rest) == rest
    decreases |lines|
  {
    if lines == [] {
      assert JoinLines(lines) + rest == rest;
      SplitSingle(rest);
    } else {
      var more := lines[1..];
      assert forall k :: 0 <= k < |more| ==> more[k] == lines[k + 1];
      SplitJoined(more, rest);
      JoinedStep(lines, rest);
    }
    var all := lines + [rest];
    assert all[..|all| - 1] == lines;
  }

  /** One more plain line in front adds one piece in front. */
  lemma JoinedStep(lines: seq<string>, rest: string)
    requires lines != [] && PlainLine(lines[0])
    requires SplitLines(JoinLines(lines[1..]) + rest) == lines[1..] + [rest]
    ensures SplitLines(JoinLines(lines) + rest) == lines + [rest]
  {
    var tail := JoinLines(lines[1..]) + rest;
    JoinLinesCons(lines, rest);
    SplitConsAt(lines[0], tail, JoinLines(lines) + rest);
    assert [lines[0]] + (lines[1..] + [rest]) == lines + [rest];
  }

  lemma JoinLinesCons(lines: seq<string>, rest: string)
    requires lines != []
    ensures JoinLines(lines) + rest == lines[0] + "\n" + (JoinLines(lines[1..]) + rest)
  {
  }

  lemma SplitConsAt(line: string, tail: string, whole: string)
    requires PlainLine(line) && whole == line + "\n" + tail
    ensures SplitLines(whole) == [line] + SplitLines(tail)
  {
    SplitCons(line, tail);
  }

  /** The inner loop: appends the text of each `data: ` line, from offset 6. */
  method AppendDataLines(text: string, lines: seq<string>) returns (botText: string)
    ensures botText == text + DataText(lines)
  {
    botText := text;
    var j := 0;
    while j < |lines|
      invariant 0 <= j <= |lines|
      invariant botText == text + DataText(lines[..j])
    {
      var line := lines[j];
      assert lines[..j + 1][..j] == lines[..j];
      if StartsWith(line, DataPrefix) {
        botText := botText + line[6..];
      }
      j := j + 1;
    }
    assert lines[..j] == lines;
  }

  /** The read loop: each chunk is appended to the buffer, the buffer is
      split, its unfinished last piece kept, and the `data: ` lines among the
      others append their text. */
  method ReadStream(chunks: seq<string>) returns (botText: string, buffer: string)
    ensures botText == DataText(CompleteLines(Concat(chunks)))
    ensures buffer == Rest(Concat(chunks))
  {
    botText, buffer := "", "";
    assert SplitLines("") == [""];
    var k := 0;
    while k < |chunks|
      invariant 0 <= k <= |chunks|
      invariant botText == DataText(CompleteLines(Concat(chunks[..k])))
      invariant buffer == Rest(Concat(chunks[..k]))
    {
      ReadLoopStep(chunks, k);
      buffer := buffer + chunks[k];
      var lines := SplitLines(buffer);
      buffer := lines[|lines| - 1];
      botText := AppendDataLines(botText, lines[..|lines| - 1]);
      k := k + 1;
    }
    assert chunks[..k] == chunks;
  }

  /** One turn of the read loop, stated on the chunks received so far. */
  lemma ReadLoopStep(chunks: seq<string>, k: nat)
    requires k < |chunks|
    ensures var lines := SplitLines(Rest(Concat(chunks[..k])) + chunks[k]);
      && DataText(CompleteLines(Concat(chunks[..k + 1])))
         == DataText(CompleteLines(Concat(chunks[..k]))) + DataText(lines[..|lines| - 1])
      && Rest(Concat(chunks[..k + 1])) == lines[|lines| - 1]
  {
    var received := Concat(chunks[..k]);
    assert chunks[..k + 1][..k] == chunks[..k];
    assert Concat(chunks[..k + 1]) == received + chunks[k];
    ReadStep(received, chunks[k]);
  }

  /** Text after the last line feed never reaches the reply, whatever chunks
      it arrived in: appending text without a line feed changes nothing. */
  lemma UnterminatedTextIgnored(received: string, tail: string)
    requires NoNewline(tail)
    ensures DataText(CompleteLines(received + tail)) == DataText(CompleteLines(received))
  {
    ReadStep(received, tail);
    var last := Rest(received);
    RestHasNoNewline(received);
    NoNewlineAppend(last, tail);
    SplitSingle(last + tail);
  }

  lemma RestHasNoNewline(s: string)
    ensures NoNewline(Rest(s))
  {
    SplitLinesHaveNoNewline(s);
  }

  lemma NoNewlineAppend(a: string, b: string)
    requires NoNewline(a) && NoNewline(b)
    ensures NoNewline(a + b)
  {
    forall j | 0 <= j < |a + b| ensures (a + b)[j] != '\n' {
      if j >= |a| {
        assert (a + b)[j] == b[j - |a|];
      }
    }
  }

  /** Text without a line feed is one unfinished piece. */
  lemma SplitSingle(s: string)
    requires NoNewline(s)
    ensures SplitLines(s) == [s]
  {
    NewlineAtSpec(s);
  }

  /** A piece of text the framing carries unchanged: no line feed and no
      carriage return. */
  predicate SingleLine(d: string)
  {
    forall j :: 0 <= j < |d| ==> d[j] != '\n' && d[j] != '\r'
  }

  /** A complete line, then whatever follows its line feed. */
  lemma SplitCons(line: string, rest: string)
    requires NoNewline(line) && (line == [] || line[|line| - 1] != '\r')
    ensures SplitLines(line + "\n" + rest) == [line] + SplitLines(rest)
  {
    var s := line + "\n" + rest;
    assert s[..|line|] == line;
    NewlineAtIs(s, |line|);
    assert s[|line| + 1..] == rest;
  }

  /** The `data: ` line of a frame is a complete line carrying `d`. */
  lemma DataLine(d: string)
    requires SingleLine(d)
    ensures var line := DataPrefix + d;
      && NoNewline(line) && line[|line| - 1] != '\r'
      && StartsWith(line, DataPrefix) && line[6..] == d
  {
    var line := DataPrefix + d;
    forall j | 0 <= j < |line|
      ensures line[j] != '\n'
    {
      if j >= 6 {
        assert line[j] == d[j - 6];
      }
    }
    if d != [] {
      assert line[|line| - 1] == d[|d| - 1];
    }
    assert line[..6] == DataPrefix;
  }

  /** One frame splits into its `data: ` line and an empty line, and leaves
      nothing in the buffer. */
  lemma FrameRead(d: string)
    requires SingleLine(d)
    ensures var lines := SplitLines(Serve.Frame(d));
      DataText(lines[..|lines| - 1]) == d && lines[|lines| - 1] == ""
  {
    var line := DataPrefix + d;
    DataLine(d);
    var r := "" + "\n" + "";
    assert Serve.Frame(d) == line + "\n" + r;
    SplitCons("", "");
    SplitSingle("");
    SplitCons(line, r);
    var lines := SplitLines(Serve.Frame(d));
    assert lines == [line, "", ""];
    assert lines[..2] == [line] + [""];
    DataTextAppend([line], [""]);
    assert DataText([line]) == DataText([]) + d;
    assert DataText([""]) == DataText([]) + "";
  }

  lemma FramesConcatSnoc(ds: seq<string>)
    requires ds != []
    ensures Concat(Serve.Frames(ds)) == Concat(Serve.Frames(ds[..|ds| - 1])) + Serve.Frame(ds[|ds| - 1])
  {
    var fs := Serve.Frames(ds);
    assert fs[..|fs| - 1] == Serve.Frames(ds[..|ds| - 1]);
  }

  /** The server's frames read back: when no delta holds a line break, the
      client collects exactly the deltas, in order, and keeps an empty buffer. */
  lemma {:induction false} FramesRoundTrip(ds: seq<string>)
    requires forall k :: 0 <= k < |ds| ==> SingleLine(ds[k])
    ensures DataText(CompleteLines(Concat(Serve.Frames(ds)))) == Concat(ds)
    ensures Rest(Concat(Serve.Frames(ds))) == ""
  {
    if ds != [] {
      var init := ds[..|ds| - 1];
      var d := ds[|ds| - 1];
      FramesRoundTrip(init);
      var received := Concat(Serve.Frames(init));
      FramesConcatSnoc(ds);
      ReadStep(received, Serve.Frame(d));
      assert Rest(received) + Serve.Frame(d) == Serve.Frame(d);
      FrameRead(d);
    } else {
      assert SplitLines("") == [""];
    }
  }

  /** A delta holding one line feed is read as two lines: the text after the
      line feed is lost unless it happens to start with `data: ` itself, and
      then only what follows that prefix is read, without the line break. */
  lemma LineBreakInDelta(x: string, y: string)
    requires SingleLine(x) && SingleLine(y)
    ensures CompleteLines(Serve.Frame(x + "\n" + y)) == [DataPrefix + x, y, ""]
    ensures Rest(Serve.Frame(x + "\n" + y)) == ""
    ensures DataText(CompleteLines(Serve.Frame(x + "\n" + y)))
            == x + (if StartsWith(y, DataPrefix) then y[6..] else "")
    ensures !StartsWith(y, DataPrefix) ==> DataText(CompleteLines(Serve.Frame(x + "\n" + y))) == x
  {
    var line := DataPrefix + x;
    TwoLineFrameSplits(x, y);
    var complete := [line, y, ""];
    assert complete[..2] == [line, y];
    assert [line, y][..1] == [line];
    assert [line][..0] == [];
    assert line[..6] == DataPrefix && line[6..] == x;
    assert !StartsWith("", DataPrefix);
    assert DataText([line]) == x by {
      assert DataText([line]) == DataText([]) + line[6..];
    }
    assert DataText([line, y]) == x + (if StartsWith(y, DataPrefix) then y[6..] else "");
    assert DataText(complete) == DataText([line, y]);
  }

  lemma TwoLineFrameSplits(x: string, y: string)
    requires SingleLine(x) && SingleLine(y)
    ensures SplitLines(Serve.Frame(x + "\n" + y)) == [DataPrefix + x, y, "", ""]
  {
    var line := DataPrefix + x;
    var r2 := "" + "\n" + "";
    var r1 := y + "\n" + r2;
    assert Serve.Frame(x + "\n" + y) == line + "\n" + r1;
    DataLine(x);
    assert y == [] || y[|y| - 1] != '\r';
    assert NoNewline(y);
    SplitSingle("");
    SplitCons("", "");
    SplitCons(y, r2);
    SplitCons(line, r1);
  }

  // ---------------------------------------------------------------------
  // The submit and stop handlers.

  datatype Speaker = You | Bot

  /** A message shown in the chat area. */
  datatype Bubble = Bubble(speaker: Speaker, text: string)

  /** One history entry, as sent with the next request. */
  datatype Entry = Entry(role: string, content: string)

  /** The request the handler sends: the prompt and the history before it. */
  datatype Request = Request(prompt: string, history: seq<Entry>)

  /** How the stream ended: normally, cut by the stop button, or by any other
      error. */
  datatype StreamEnd = Completed | Aborted | Failed

  /** What the server and the browser did with the request: a readable stream
      (the chunks read before it ended), the non-streaming fallback (the
      `response` field of its JSON, if any, or a failure), or a request that
      failed before any reply (by abort or otherwise). */
  datatype Reply =
    | Streamed(chunks: seq<string>, end: StreamEnd)
    | Fallback(response: Option<string>, ok: bool)
    | RequestFailed(aborted: bool)

  const StoppedNote: string := "\n[Generation stopped by user]"
  const NetworkError: string := "[Network error]"
  const NoResponse: string := "[No response]"

  /** The page: the history, the bubbles shown, the prompt box, the send and
      stop buttons, and whether a request can currently be aborted. */
  class Client {
    var history: seq<Entry>
    var bubbles: seq<Bubble>
    var promptValue: string
    var sendDisabled: bool
    var stopVisible: bool
    var stopDisabled: bool
    var controllerActive: bool
    var abortRequested: bool

    constructor ()
      ensures history == [] && bubbles == [] && promptValue == ""
      ensures !sendDisabled && !stopVisible && !stopDisabled
      ensures !controllerActive && !abortRequested
    {
      history, bubbles, promptValue := [], [], "";
      sendDisabled, stopVisible, stopDisabled := false, false, false;
      controllerActive, abortRequested := false, false;
    }

    /** Typing in the prompt box. */
    method Type(text: string)
      modifies this
      ensures promptValue == text
      ensures history == old(history) && bubbles == old(bubbles)
      ensures sendDisabled == old(sendDisabled) && stopVisible == old(stopVisible)
      ensures stopDisabled == old(stopDisabled) && controllerActive == old(controllerActive)
      ensures abortRequested == old(abortRequested)
    {
      promptValue := text;
    }

    /** Everything before the request is answered: show the prompt and an
      empty bot bubble, clear the box, disable send, show stop. */
    method Begin(prompt: string) returns (request: Request)
      modifies this
      ensures request == Request(prompt, old(history))
      ensures bubbles == old(bubbles) + [Bubble(You, prompt), Bubble(Bot, "")]
      ensures promptValue == "" && sendDisabled && stopVisible && !stopDisabled
      ensures controllerActive && !abortRequested && history == old(history)
    {
      bubbles := bubbles + [Bubble(You, prompt)];
      promptValue := "";
      sendDisabled, stopVisible, stopDisabled := true, true, false;
      bubbles := bubbles + [Bubble(Bot, "")];
      controllerActive, abortRequested := true, false;
      request := Request(prompt, history);
    }

    /** Replaces the text of the last bubble. */
    method ShowReply(text: string)
      requires bubbles != []
      modifies this
      ensures bubbles == old(bubbles)[|old(bubbles)| - 1 := old(bubbles)[|old(bubbles)| - 1].(text := text)]
      ensures history == old(history) && promptValue == old(promptValue)
      ensures sendDisabled == old(sendDisabled) && stopVisible == old(stopVisible)
      ensures stopDisabled == old(stopDisabled) && controllerActive == old(controllerActive)
      ensures abortRequested == old(abortRequested)
    {
      bubbles := bubbles[|bubbles| - 1 := bubbles[|bubbles| - 1].(text := text)];
    }

    /** The `try` block of `form.onsubmit` and its `catch`: the bot bubble
        ends up showing the reply, and the turn is recorded only when no
        error was thrown. */
    method AwaitReply(reply: Reply, prompt: string)
      requires bubbles != []
      modifies this
      ensures bubbles == old(bubbles)[|old(bubbles)| - 1 := old(bubbles)[|old(bubbles)| - 1].(text := Shown(reply))]
      ensures history == old(history) + (if Succeeded(reply)
                                         then [Entry("user", prompt), Entry("bot", BotText(reply))]
                                         else [])
      ensures promptValue == old(promptValue)
      ensures sendDisabled == old(sendDisabled) && stopVisible == old(stopVisible)
      ensures stopDisabled == old(stopDisabled) && controllerActive == old(controllerActive)
      ensures abortRequested == old(abortRequested)
    {
      match reply {
        case Streamed(chunks, end) =>
          AwaitStream(chunks, end, prompt);
        case Fallback(response, ok) =>
          AwaitFallback(response, ok, prompt);
        case RequestFailed(aborted) =>
          ShowReply(if aborted then StoppedNote else NetworkError);
      }
    }

    /** The streaming branch: the read loop, then the note or the error. */
    method AwaitStream(chunks: seq<string>, end: StreamEnd, prompt: string)
      requires bubbles != []
      modifies this
      ensures var reply := Streamed(chunks, end);
        && bubbles == old(bubbles)[|old(bubbles)| - 1 := old(bubbles)[|old(bubbles)| - 1].(text := Shown(reply))]
        && history == old(history) + (if Succeeded(reply)
                                      then [Entry("user", prompt), Entry("bot", BotText(reply))]
                                      else [])
      ensures promptValue == old(promptValue)
      ensures sendDisabled == old(sendDisabled) && stopVisible == old(stopVisible)
      ensures stopDisabled == old(stopDisabled) && controllerActive == old(controllerActive)
      ensures abortRequested == old(abortRequested)
    {
      var botText, buffer := ReadStream(chunks);
      ShowReply(botText);
      match end {
        case Completed =>
          history := history + [Entry("user", prompt), Entry("bot", botText)];
        case Aborted =>
          ShowReply(botText + StoppedNote);
        case Failed =>
          ShowReply(NetworkError);
      }
    }

    /** The non-streaming branch: the JSON's `response`, `[No response]`,
        or the network error. */
    method AwaitFallback(response: Option<string>, ok: bool, prompt: string)
      requires bubbles != []
      modifies this
      ensures var reply := Fallback(response, ok);
        && bubbles == old(bubbles)[|old(bubbles)| - 1 := old(bubbles)[|old(bubbles)| - 1].(text := Shown(reply))]
        && history == old(history) + (if Succeeded(reply)
                                      then [Entry("user", prompt), Entry("bot", BotText(reply))]
                                      else [])
      ensures promptValue == old(promptValue)
      ensures sendDisabled == old(sendDisabled) && stopVisible == old(stopVisible)
      ensures stopDisabled == old(stopDisabled) && controllerActive == old(controllerActive)
      ensures abortRequested == old(abortRequested)
    {
      if !ok {
        ShowReply(NetworkError);
      } else if response.Some? && response.value != "" {
        ShowReply(response.value);
        history := history + [Entry("user", prompt), Entry("bot", response.value)];
      } else {
        ShowReply(NoResponse);
        history := history + [Entry("user", prompt), Entry("bot", "")];
      }
    }

    /** `form.onsubmit`. The trimmed prompt is sent with the history as it
        was; the reply is shown in the bot bubble; the turn is added to the
        history only when no error was thrown; the buttons are restored on
        every path. */
    method Submit(reply: Reply) returns (request: Option<Request>)
      modifies this
      ensures JsText.Trim(old(promptValue)) == "" ==>
        && request == None
        && history == old(history) && bubbles == old(bubbles) && promptValue == old(promptValue)
        && sendDisabled == old(sendDisabled) && stopVisible == old(stopVisible)
        && stopDisabled == old(stopDisabled) && controllerActive == old(controllerActive)
        && abortRequested == old(abortRequested)
      ensures JsText.Trim(old(promptValue)) != "" ==>
        var prompt := JsText.Trim(old(promptValue));
        && request == Some(Request(prompt, old(history)))
        && promptValue == ""
        && !sendDisabled && !stopVisible && stopDisabled && !controllerActive && !abortRequested
        && |bubbles| == |old(bubbles)| + 2
        && bubbles[..|old(bubbles)| + 1] == old(bubbles) + [Bubble(You, prompt)]
        && bubbles[|bubbles| - 1] == Bubble(Bot, Shown(reply))
        && history == old(history) + (if Succeeded(reply)
                                      then [Entry("user", prompt), Entry("bot", BotText(reply))]
                                      else [])
    {
      var prompt := JsText.Trim(promptValue);
      if prompt == "" {
        return None;
      }
      var req := Begin(prompt);
      request := Some(req);
      AwaitReply(reply, prompt);
      sendDisabled, stopVisible, stopDisabled := false, false, true;
      controllerActive := false;
    }

    /** `stopBtn.onclick`: aborts, and disables the button, only while a
        request is in flight. */
    method Stop()
      modifies this
      ensures old(controllerActive) ==> abortRequested && stopDisabled
      ensures !old(controllerActive) ==> abortRequested == old(abortRequested)
                                         && stopDisabled == old(stopDisabled)
      ensures history == old(history) && bubbles == old(bubbles) && promptValue == old(promptValue)
      ensures sendDisabled == old(sendDisabled) && stopVisible == old(stopVisible)
      ensures controllerActive == old(controllerActive)
    {
      if controllerActive {
        abortRequested := true;
        stopDisabled := true;
      }
    }
  }

  /** The turn is recorded exactly when no error is thrown: the stream ends
      normally, or the fallback's JSON is read. */
  predicate Succeeded(reply: Reply)
  {
    match reply
    case Streamed(_, end) => end == Completed
    case Fallback(_, ok) => ok
    case RequestFailed(_) => false
  }

  /** The reply text recorded in the history (the `botText` variable). */
  function BotText(reply: Reply): string
  {
    match reply
    case Streamed(chunks, _) => DataText(CompleteLines(Concat(chunks)))
    case Fallback(response, _) => if response.Some? then response.value else ""
    case RequestFailed(_) => ""
  }

  /** The text the bot bubble ends with. */
  function Shown(reply: Reply): string
  {
    match reply
    case Streamed(chunks, end) =>
      var text := DataText(CompleteLines(Concat(chunks)));
      (match end
       case Completed => text
       case Aborted => text + StoppedNote
       case Failed => NetworkError)
    case Fallback(response, ok) =>
      if !ok then NetworkError
      else if response.Some? && response.value != "" then response.value
      else NoResponse
    case RequestFailed(aborted) => if aborted then StoppedNote else NetworkError
  }

  /** An abort keeps what was shown and appends the note; any other error
      replaces it; the bubble never shows the note without an abort. */
  lemma AbortKeepsPartialReply(chunks: seq<string>)
    ensures Shown(Streamed(chunks, Aborted)) == BotText(Streamed(chunks, Aborted)) + StoppedNote
    ensures Shown(Streamed(chunks, Failed)) == NetworkError
    ensures !Succeeded(Streamed(chunks, Aborted)) && !Succeeded(Streamed(chunks, Failed))
  {
  }
}
