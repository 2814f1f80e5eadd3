/** The two cache-event listeners (inf_llm/attention/context_manager_listener.py):
    a log-file writer that formats one line per event, and a word-cloud
    listener that cleans a block's decoded text, filters and counts its words,
    and saves a cloud when there are enough distinct words. */
module CacheListener {

  import opened Wrappers
  import opened Strings
  import opened PyText

  /** A keyword-argument value: an integer or a string. Other Python values
      (`None`, `bool`, `float`, lists) are not modelled. */
  datatype Value = IntValue(i: int) | TextValue(s: string)

  /** The exceptions the listeners can raise. */
  datatype ListenerError =
    | KeyError(key: string)
    | ValueError(message: string)
    | TypeError(message: string)
    | FileNotFound

  const FormatCodeError: string := "Unknown format code 'd' for object of type 'str'"
  const SliceIndexError: string := "slice indices must be integers or None or have an __index__ method"

  /** `str(v)`, as an f-string field without a format specification shows it. */
  function Show(v: Value): string
  {
    match v
    case IntValue(i) => IntToString(i)
    case TextValue(s) => s
  }

  /** An f-string field with the `02d` specification. */
  function Show02d(v: Value): (r: Result<string, ListenerError>)
    ensures r.Success? <==> v.IntValue?
    ensures r.Success? ==> r.value == Format02d(v.i)
    ensures r.Failure? ==> r.error == ValueError(FormatCodeError)
    ensures r.Success? && 0 <= v.i < 100 ==> |r.value| == 2 && IsDigitString(r.value)
  {
    match v
    case IntValue(i) => Success(Format02d(i))
    case TextValue(_) => Failure(ValueError(FormatCodeError))
  }

  /** `kwargs[key]`. */
  function Get(kwargs: map<string, Value>, key: string): (r: Result<Value, ListenerError>)
    ensures r.Success? <==> key in kwargs
    ensures r.Success? ==> r.value == kwargs[key]
  {
    if key in kwargs then Success(kwargs[key]) else Failure(KeyError(key))
  }

  /** `input_ids[block_start:block_end]` when both keys are given, `None`
      when either is missing; a non-integer bound raises. */
  function BlockSlice(kwargs: map<string, Value>, tokens: seq<int>): (r: Result<Option<seq<int>>, ListenerError>)
    ensures r.Success? && r.value.Some? <==>
      "block_start" in kwargs && "block_end" in kwargs
      && kwargs["block_start"].IntValue? && kwargs["block_end"].IntValue?
    ensures r == Success(None) <==> !("block_start" in kwargs && "block_end" in kwargs)
    ensures r.Success? && r.value.Some? ==>
      r.value.value == Slice(tokens, kwargs["block_start"].i, kwargs["block_end"].i)
    ensures r.Failure? ==> r.error == TypeError(SliceIndexError)
  {
    if "block_start" in kwargs && "block_end" in kwargs then
      match (kwargs["block_start"], kwargs["block_end"])
      case (IntValue(s), IntValue(e)) => Success(Some(Slice(tokens, s, e)))
      case _ => Failure(TypeError(SliceIndexError))
    else Success(None)
  }

  // ---------------------------------------------------------------------
  // The log-file listener.

  /** What one event writes to the log file, line by line, and the exception
      it ends with, if any. */
  datatype Written = Written(lines: seq<string>, error: Option<ListenerError>)

  const ContentsPrefix: string := "  block_contents="
  const RetPrefix: string := "  ret="

  /** The header of an `add`, `load` or `evict` line, or of a `topk` line;
      `stamp` is the clock reading already formatted with three decimals. */
  function EventLine(stamp: string, kwargs: map<string, Value>, event: string, withBlock: bool)
    : Result<string, ListenerError>
  {
    match Get(kwargs, "unit_id")
    case Failure(e) => Failure(e)
    case Success(u) =>
      match Show02d(u)
      case Failure(e) => Failure(e)
      case Success(unit) =>
        var head := "[" + stamp + "] u" + unit + " " + RightAlign(event, 5);
        if !withBlock then Success(head + "\n")
        else
          match Get(kwargs, "block_id")
          case Failure(e) => Failure(e)
          case Success(b) => Success(head + " block " + Show(b) + "\n")
  }

  /** The optional `block_contents` line, written after the event's lines;
      `decode` is the tokenizer's decoder. */
  function ContentsLine(kwargs: map<string, Value>, tokens: seq<int>, decode: seq<int> -> string)
    : Result<Option<string>, ListenerError>
  {
    match BlockSlice(kwargs, tokens)
    case Failure(e) => Failure(e)
    case Success(None) => Success(None)
    case Success(Some(ids)) => Success(Some(ContentsPrefix + decode(ids) + "\n"))
  }

  /** Appends the contents line, if any, to lines already written. */
  function WithContents(lines: seq<string>, kwargs: map<string, Value>, tokens: seq<int>,
                        decode: seq<int> -> string): Written
  {
    match ContentsLine(kwargs, tokens, decode)
    case Failure(e) => Written(lines, Some(e))
    case Success(None) => Written(lines, None)
    case Success(Some(c)) => Written(lines + [c], None)
  }

  predicate IsBlockEvent(event: string) { event == "add" || event == "load" || event == "evict" }

  /** The file listener's dispatch on the event name. */
  function FileEventWrites(event: string, kwargs: map<string, Value>, stamp: string, tokens: seq<int>,
                           decode: seq<int> -> string): Written
  {
    if IsBlockEvent(event) then
      match EventLine(stamp, kwargs, event, true)
      case Failure(e) => Written([], Some(e))
      case Success(line) => WithContents([line], kwargs, tokens, decode)
    else if event == "topk" then
      match EventLine(stamp, kwargs, event, false)
      case Failure(e) => Written([], Some(e))
      case Success(line) =>
        match Get(kwargs, "ret")
        case Failure(e) => Written([line], Some(e))
        case Success(ret) => WithContents([line, RetPrefix + Show(ret) + "\n"], kwargs, tokens, decode)
    else Written([], Some(ValueError("Unknown event: " + event)))
  }

  /** An unknown event writes nothing and raises `ValueError`. */
  lemma UnknownEventWritesNothing(event: string, kwargs: map<string, Value>, stamp: string,
                                  tokens: seq<int>, decode: seq<int> -> string)
    requires !IsBlockEvent(event) && event != "topk"
    ensures FileEventWrites(event, kwargs, stamp, tokens, decode)
      == Written([], Some(ValueError("Unknown event: " + event)))
  {
  }

  /** A block event whose keys are all present writes one line: a two-digit
      unit number (for units 0 to 99), the event right-aligned in five
      columns and the block id; then the contents line exactly when both
      bounds are given. */
  lemma BlockEventLayout(event: string, kwargs: map<string, Value>, stamp: string,
                         tokens: seq<int>, decode: seq<int> -> string)
    requires IsBlockEvent(event)
    requires "unit_id" in kwargs && "block_id" in kwargs && kwargs["unit_id"].IntValue?
    requires 0 <= kwargs["unit_id"].i < 100
    ensures var w := FileEventWrites(event, kwargs, stamp, tokens, decode);
      var u := kwargs["unit_id"].i;
      && |w.lines| >= 1
      && w.lines[0] == "[" + stamp + "] u" + [DigitChar(u / 10), DigitChar(u % 10)] + " "
                       + RightAlign(event, 5) + " block " + Show(kwargs["block_id"]) + "\n"
      && |RightAlign(event, 5)| == 5
      && (|w.lines| == 2 <==> BlockSlice(kwargs, tokens).Success? && BlockSlice(kwargs, tokens).value.Some?)
      && |w.lines| <= 2
  {
  }

  /** Whatever the event, the contents line is written only when both
      `block_start` and `block_end` are given, and it is the last line. */
  lemma ContentsOnlyWithBothBounds(event: string, kwargs: map<string, Value>,
                                                     stamp: string, tokens: seq<int>,
                                                     decode: seq<int> -> string)
    ensures var w := FileEventWrites(event, kwargs, stamp, tokens, decode);
      forall k :: 0 <= k < |w.lines| && StartsWith(w.lines[k], ContentsPrefix) ==>
        && k == |w.lines| - 1
        && "block_start" in kwargs && "block_end" in kwargs
  {
    var w := FileEventWrites(event, kwargs, stamp, tokens, decode);
    if IsBlockEvent(event) || event == "topk" {
      var line := EventLine(stamp, kwargs, event, IsBlockEvent(event));
      if line.Success? {
        assert line.value[0] == '[';
        assert !StartsWith(line.value, ContentsPrefix);
        if IsBlockEvent(event) {
          WithContentsShape([line.value], kwargs, tokens, decode);
        } else if "ret" in kwargs {
          var retLine := RetPrefix + Show(kwargs["ret"]) + "\n";
          assert retLine[2] == 'r';
          assert !StartsWith(retLine, ContentsPrefix);
          WithContentsShape([line.value, retLine], kwargs, tokens, decode);
        }
      }
    }
  }

  /** `WithContents` keeps the lines already written and adds at most one,
      only when both bounds are given. */
  lemma WithContentsShape(lines: seq<string>, kwargs: map<string, Value>, tokens: seq<int>,
                          decode: seq<int> -> string)
    ensures var w := WithContents(lines, kwargs, tokens, decode);
      && |lines| <= |w.lines| <= |lines| + 1
      && w.lines[..|lines|] == lines
      && (|w.lines| > |lines| ==> "block_start" in kwargs && "block_end" in kwargs)
  {
  }

  /** A `topk` event writes its header, then the `ret` line; without `ret`
      the header is already written when the `KeyError` is raised. */
  lemma TopkLines(kwargs: map<string, Value>, stamp: string, tokens: seq<int>, decode: seq<int> -> string)
    requires "unit_id" in kwargs && kwargs["unit_id"].IntValue?
    ensures var w := FileEventWrites("topk", kwargs, stamp, tokens, decode);
      && |w.lines| >= 1
      && w.lines[0] == "[" + stamp + "] u" + Format02d(kwargs["unit_id"].i) + " " + " topk\n"
      && ("ret" !in kwargs ==> w == Written(w.lines[..1], Some(KeyError("ret"))))
      && ("ret" in kwargs ==> |w.lines| >= 2 && w.lines[1] == RetPrefix + Show(kwargs["ret"]) + "\n")
  {
    assert RightAlign("topk", 5) == " topk";
  }

  /** The log file: it is truncated when the listener is made (if its
      directory exists) and every event appends to it. */
  class FileListener {
    const writable: bool
    var contents: seq<string>

    constructor (directoryExists: bool)
      ensures writable == directoryExists && contents == []
    {
      writable := directoryExists;
      contents := [];
    }

    /** `_listener(event, **kwargs)`. */
    method Listen(event: string, kwargs: map<string, Value>, stamp: string, tokens: seq<int>,
                  decode: seq<int> -> string)
      returns (error: Option<ListenerError>)
      modifies this
      ensures !writable ==> contents == old(contents) && error == Some(FileNotFound)
      ensures writable ==>
        var w := FileEventWrites(event, kwargs, stamp, tokens, decode);
        contents == old(contents) + w.lines && error == w.error
    {
      if !writable {
        return Some(FileNotFound);
      }
      var w := FileEventWrites(event, kwargs, stamp, tokens, decode);
      contents := contents + w.lines;
      error := w.error;
    }
  }

  // ---------------------------------------------------------------------
  // The word-cloud listener.

  /** The stop words added to the stop-word corpus. */
  const ExtraStopWords: set<string> := {
    "the", "and", "is", "in", "to", "of", "a", "for", "that", "on",
    "with", "by", "this", "as", "at", "from", "or", "an", "be", "it",
    "are", "was", "were", "been", "has", "have", "had", "will", "would",
    "shall", "should", "may", "might", "can", "could", "i", "you", "he",
    "she", "they", "we", "their", "our", "your", "his", "her", "its"}

  /** The stop set: the corpus's English list plus the extra words. */
  function StopWords(corpus: set<string>): (r: set<string>)
    ensures ExtraStopWords <= r && corpus <= r
  {
    corpus + ExtraStopWords
  }

  /** One character of the cleanup: letters and digits lower-cased, white
      space kept, everything else turned into a space. */
  function CleanChar(c: char): char
  {
    if IsAlnum(c) || IsSpace(c) then LowerChar(c) else ' '
  }

  function Clean(s: string): string
  {
    if s == [] then "" else Clean(s[..|s| - 1]) + [CleanChar(s[|s| - 1])]
  }

  /** The cleanup keeps the length, changes no letter but to lower case and
      leaves only lower-case letters, digits and white space. */
  lemma {:induction false} CleanSpec(s: string)
    ensures |Clean(s)| == |s|
    ensures forall i :: 0 <= i < |s| ==> Clean(s)[i] == CleanChar(s[i])
    ensures forall i :: 0 <= i < |s| ==>
      IsAsciiLower(Clean(s)[i]) || IsAsciiDigit(Clean(s)[i]) || IsSpace(Clean(s)[i])
  {
    if s != [] {
      CleanSpec(s[..|s| - 1]);
    }
  }

  /** A word is counted unless it is a stop word or all digits. */
  predicate Counted(w: string, stop: set<string>) { w !in stop && !IsDigitString(w) }

  function Kept(words: seq<string>, stop: set<string>): seq<string>
  {
    if words == [] then []
    else
      var w := words[|words| - 1];
      Kept(words[..|words| - 1], stop) + (if Counted(w, stop) then [w] else [])
  }

  lemma {:induction false} KeptSpec(words: seq<string>, stop: set<string>)
    ensures forall w :: w in Kept(words, stop) <==> w in words && Counted(w, stop)
  {
    if words != [] {
      KeptSpec(words[..|words| - 1], stop);
      assert words == words[..|words| - 1] + [words[|words| - 1]];
    }
  }

  /** The number of occurrences of `w` in `ws`. */
  function Count(ws: seq<string>, w: string): nat
  {
    if ws == [] then 0 else Count(ws[..|ws| - 1], w) + (if ws[|ws| - 1] == w then 1 else 0)
  }

  lemma {:induction false} CountPositive(ws: seq<string>, w: string)
    ensures Count(ws, w) > 0 <==> w in ws
  {
    if ws != [] {
      CountPositive(ws[..|ws| - 1], w);
      assert ws == ws[..|ws| - 1] + [ws[|ws| - 1]];
    }
  }

  /** `word_freq` after counting `ws` one word at a time. */
  function FreqOf(ws: seq<string>): map<string, nat>
  {
    if ws == [] then map[]
    else
      var m := FreqOf(ws[..|ws| - 1]);
      var w := ws[|ws| - 1];
      m[w := (if w in m then m[w] else 0) + 1]
  }

  /** The keys are exactly the words, and each value is the word's number of
      occurrences. */
  lemma {:induction false} FreqOfSpec(ws: seq<string>)
    ensures forall w :: w in FreqOf(ws) <==> w in ws
    ensures forall w | w in FreqOf(ws) :: FreqOf(ws)[w] == Count(ws, w) >= 1
  {
    if ws != [] {
      var init := ws[..|ws| - 1];
      FreqOfSpec(init);
      assert ws == init + [ws[|ws| - 1]];
      forall w | w in FreqOf(ws) ensures FreqOf(ws)[w] == Count(ws, w) >= 1 {
        CountPositive(init, w);
      }
    }
  }

  /** The sum of the values of `m` over the keys `ks`. */
  ghost function MapSum(m: map<string, nat>, ks: set<string>): nat
    requires ks <= m.Keys
    decreases ks
  {
    if ks == {} then 0
    else
      var k :| k in ks;
      m[k] + MapSum(m, ks - {k})
  }

  lemma MapSumRemove(m: map<string, nat>, ks: set<string>, k: string)
    requires ks <= m.Keys && k in ks
    ensures MapSum(m, ks) == m[k] + MapSum(m, ks - {k})
    decreases ks
  {
    var j :| j in ks && MapSum(m, ks) == m[j] + MapSum(m, ks - {j});
    if j != k {
      MapSumRemove(m, ks - {j}, k);
      MapSumRemove(m, ks - {k}, j);
      assert ks - {j} - {k} == ks - {k} - {j};
    }
  }

  lemma MapSumAgree(m1: map<string, nat>, m2: map<string, nat>, ks: set<string>)
    requires ks <= m1.Keys && ks <= m2.Keys
    requires forall k | k in ks :: m1[k] == m2[k]
    ensures MapSum(m1, ks) == MapSum(m2, ks)
    decreases ks
  {
    if ks != {} {
      var k :| k in ks;
      MapSumRemove(m1, ks, k);
      MapSumRemove(m2, ks, k);
      MapSumAgree(m1, m2, ks - {k});
    }
  }

  /** The counts add up to the number of words counted. */
  lemma {:induction false} FreqOfTotal(ws: seq<string>)
    ensures MapSum(FreqOf(ws), FreqOf(ws).Keys) == |ws|
  {
    if ws != [] {
      var init := ws[..|ws| - 1];
      var w := ws[|ws| - 1];
      var m := FreqOf(init);
      var m' := FreqOf(ws);
      FreqOfTotal(init);
      MapSumRemove(m', m'.Keys, w);
      assert m'.Keys - {w} == m.Keys - {w};
      MapSumAgree(m', m, m.Keys - {w});
      if w in m {
        MapSumRemove(m, m.Keys, w);
      } else {
        assert m.Keys - {w} == m.Keys;
      }
    }
  }

  /** The counting loop: every kept word bumps its entry. */
  method WordFreq(words: seq<string>, stop: set<string>) returns (freq: map<string, nat>)
    ensures freq == FreqOf(Kept(words, stop))
  {
    freq := map[];
    var i := 0;
    while i < |words|
      invariant 0 <= i <= |words|
      invariant freq == FreqOf(Kept(words[..i], stop))
    {
      var word := words[i];
      assert words[..i + 1][..i] == words[..i];
      assert words[..i + 1][i] == word;
      if word !in stop && !IsDigitString(word) {
        ghost var before := Kept(words[..i], stop);
        assert Kept(words[..i + 1], stop) == before + [word];
        assert (before + [word])[..|before|] == before;
        freq := freq[word := (if word in freq then freq[word] else 0) + 1];
      } else {
        assert Kept(words[..i + 1], stop) == Kept(words[..i], stop);
      }
      i := i + 1;
    }
    assert words[..i] == words;
  }

  /** The frequencies a block's decoded text yields. */
  function CloudFrequencies(text: string, stop: set<string>): map<string, nat>
  {
    FreqOf(Kept(Split(Clean(text)), stop))
  }

  /** Each counted word is a non-empty run of lower-case letters and digits,
      not all digits and not a stop word; the counts add up to the number of
      counted words. */
  lemma CloudWords(text: string, stop: set<string>)
    ensures var freq := CloudFrequencies(text, stop);
      && (forall w | w in freq ::
            && w != [] && w !in stop && !IsDigitString(w)
            && (forall i :: 0 <= i < |w| ==> IsAsciiLower(w[i]) || IsAsciiDigit(w[i])))
      && MapSum(freq, freq.Keys) == |Kept(Split(Clean(text)), stop)|
  {
    var cleaned := Clean(text);
    var words := Split(cleaned);
    var kept := Kept(words, stop);
    CleanSpec(text);
    KeptSpec(words, stop);
    FreqOfSpec(kept);
    FreqOfTotal(kept);
    SplitFromChars(cleaned);
  }

  /** Every character of a word of `split()` comes from the split string. */
  lemma SplitFromChars(s: string)
    ensures forall w, i | w in Split(s) && 0 <= i < |w| :: w[i] in s
    decreases |s|
  {
    var t := StripStart(s);
    StripStartSpec(s);
    if t != [] {
      var w := WordPrefix(t);
      SplitFromChars(t[|w|..]);
      forall v, i | v in Split(s) && 0 <= i < |v| ensures v[i] in s {
        if v == w {
          assert v[i] == t[i] == s[|s| - |t| + i];
        } else {
          assert v in Split(t[|w|..]);
          assert v[i] in t[|w|..];
        }
      }
    }
  }

  /** What the word-cloud listener does with one event: nothing, one printed
      status line, an exception, or a saved cloud with its frequencies, path
      and status line. */
  datatype CloudOutcome =
    | Ignored
    | Printed(line: string)
    | Raised(error: ListenerError)
    | Saved(frequencies: map<string, nat>, path: string, line: string)

  /** `os.path.join(directory, name)` for a relative `name`. */
  function JoinPath(directory: string, name: string): (r: string)
    ensures StartsWith(r, directory) && |name| <= |r| && r[|r| - |name|..] == name
    ensures directory == [] || directory[|directory| - 1] == '/' ==> r == directory + name
    ensures directory != [] && directory[|directory| - 1] != '/' ==> r == directory + "/" + name
  {
    if directory == [] || directory[|directory| - 1] == '/' then directory + name
    else directory + "/" + name
  }

  function StatusLine(unit: string, event: string, block: string, tail: string): string
  {
    "u" + unit + " " + RightAlign(event, 5) + " block " + block + " " + tail
  }

  /** The token ids a block event would decode, when the event names both
      ids, gives integer bounds and the slice is not empty. */
  function CloudInput(kwargs: map<string, Value>, tokens: seq<int>): Option<seq<int>>
  {
    if "unit_id" in kwargs && "block_id" in kwargs then
      match BlockSlice(kwargs, tokens)
      case Success(Some(ids)) => if ids == [] then None else Some(ids)
      case _ => None
    else None
  }

  /** `_listener(event, **kwargs)` of the word-cloud listener; `corpus` is the
      stop-word corpus and `decode` the tokenizer's decoder. */
  method WordCloudListen(event: string, kwargs: map<string, Value>, outputDir: string,
                         corpus: set<string>, tokens: seq<int>, decode: seq<int> -> string)
    returns (outcome: CloudOutcome)
    ensures event != "add" ==> outcome == Ignored
    ensures event == "add" && "unit_id" !in kwargs ==> outcome == Raised(ValueError(FormatCodeError))
    ensures event == "add" && "unit_id" in kwargs && "block_id" in kwargs
            && BlockSlice(kwargs, tokens).Failure? ==>
      outcome == Raised(TypeError(SliceIndexError))
    ensures event == "add" && "unit_id" in kwargs && kwargs["unit_id"].TextValue?
            && !("block_id" in kwargs && BlockSlice(kwargs, tokens).Failure?) ==>
      outcome == Raised(ValueError(FormatCodeError))
    ensures event == "add" && "unit_id" in kwargs && "block_id" !in kwargs && kwargs["unit_id"].IntValue? ==>
      outcome == Printed(StatusLine(Format02d(kwargs["unit_id"].i), event, "??", "no contents"))
    ensures outcome.Saved? <==>
      && event == "add" && "unit_id" in kwargs && kwargs["unit_id"].IntValue?
      && CloudInput(kwargs, tokens).Some?
      && |CloudFrequencies(decode(CloudInput(kwargs, tokens).value), StopWords(corpus))| >= 5
    ensures outcome.Saved? ==>
      && outcome.frequencies == CloudFrequencies(decode(CloudInput(kwargs, tokens).value), StopWords(corpus))
      && outcome.path == JoinPath(outputDir, "u" + Format02d(kwargs["unit_id"].i) + "_block_"
                                             + Show(kwargs["block_id"]) + ".png")
      && outcome.line == StatusLine(Format02d(kwargs["unit_id"].i), event, Show(kwargs["block_id"]),
                                    "meaningful content saved to " + outcome.path)
    ensures event == "add" && "unit_id" in kwargs && "block_id" in kwargs && kwargs["unit_id"].IntValue?
            && BlockSlice(kwargs, tokens).Success? && CloudInput(kwargs, tokens).None? ==>
      outcome == Printed(StatusLine(Format02d(kwargs["unit_id"].i), event, Show(kwargs["block_id"]),
                                    "no contents"))
    ensures event == "add" && "unit_id" in kwargs && kwargs["unit_id"].IntValue?
            && CloudInput(kwargs, tokens).Some?
            && |CloudFrequencies(decode(CloudInput(kwargs, tokens).value), StopWords(corpus))| < 5 ==>
      outcome == Printed(StatusLine(Format02d(kwargs["unit_id"].i), event, Show(kwargs["block_id"]),
                                    "insufficient content"))
  {
    if event != "add" {
      return Ignored;
    }
    if "unit_id" !in kwargs || "block_id" !in kwargs {
      var u := if "unit_id" in kwargs then kwargs["unit_id"] else TextValue("??");
      var b := if "block_id" in kwargs then kwargs["block_id"] else TextValue("??");
      match Show02d(u) {
        case Failure(e) => return Raised(e);
        case Success(unit) => return Printed(StatusLine(unit, event, Show(b), "no contents"));
      }
    }
    var unitId, blockId := kwargs["unit_id"], kwargs["block_id"];
    var contents: seq<int> := [];
    match BlockSlice(kwargs, tokens) {
      case Failure(e) => return Raised(e);
      case Success(None) =>
      case Success(Some(ids)) => contents := ids;
    }
    if contents == [] {
      match Show02d(unitId) {
        case Failure(e) => return Raised(e);
        case Success(unit) => return Printed(StatusLine(unit, event, Show(blockId), "no contents"));
      }
    }
    var text := decode(contents);
    var cleaned := Clean(text);
    var words := Split(cleaned);
    var freq := WordFreq(words, StopWords(corpus));
    if |freq| < 5 {
      match Show02d(unitId) {
        case Failure(e) => return Raised(e);
        case Success(unit) => return Printed(StatusLine(unit, event, Show(blockId), "insufficient content"));
      }
    }
    match Show02d(unitId) {
      case Failure(e) => return Raised(e);
      case Success(unit) =>
        var path := JoinPath(outputDir, "u" + unit + "_block_" + Show(blockId) + ".png");
        return Saved(freq, path, StatusLine(unit, event, Show(blockId), "meaningful content saved to " + path));
    }
  }
}
