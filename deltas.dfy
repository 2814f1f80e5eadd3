/** The "yield only what is new" loop shared by the three streaming back ends:
    a text generator produces cumulative texts, and each step forwards
    `text[len(last_text):]` when it is not empty. */
module DeltaStream {

  import opened Wrappers
  import opened Strings

  /** What the text generator did during one request: the cumulative texts it
      produced, and the message of the exception that ended it early, if any. */
  datatype Generation = Generation(texts: seq<string>, error: Option<string>)

  /** Python `text[len(last):]`. */
  function Suffix(text: string, last: string): (r: string)
    ensures |last| <= |text| ==> text == text[..|last|] + r
    ensures |text| <= |last| ==> r == []
  {
    if |last| <= |text| then text[|last|..] else []
  }

  /** The newest text so far (`last_text`, initially `""`). */
  function LastText(texts: seq<string>): string
  {
    if texts == [] then "" else texts[|texts| - 1]
  }

  /** Every text extends the one before it. */
  predicate PrefixExtending(texts: seq<string>)
  {
    forall i :: 0 < i < |texts| ==> StartsWith(texts[i], texts[i - 1])
  }

  /** The pieces forwarded for `texts`, in order: each text's part beyond the
      length of the previous text, skipping empty ones. */
  function Deltas(texts: seq<string>): (ds: seq<string>)
    ensures |ds| <= |texts|
    ensures forall k :: 0 <= k < |ds| ==> ds[k] != []
  {
    if texts == [] then []
    else
      var init := texts[..|texts| - 1];
      var d := Suffix(texts[|texts| - 1], LastText(init));
      Deltas(init) + (if d == [] then [] else [d])
  }

  /** When the generator only ever extends its text, the forwarded pieces put
      back together give exactly the final text. */
  lemma {:induction false} DeltasConcat(texts: seq<string>)
    requires PrefixExtending(texts)
    ensures Concat(Deltas(texts)) == LastText(texts)
  {
    if texts != [] {
      var init := texts[..|texts| - 1];
      var t := texts[|texts| - 1];
      var d := Suffix(t, LastText(init));
      assert PrefixExtending(init) by {
        forall i | 0 < i < |init| ensures StartsWith(init[i], init[i - 1]) {
          assert init[i] == texts[i] && init[i - 1] == texts[i - 1];
        }
      }
      DeltasConcat(init);
      if init != [] {
        assert StartsWith(texts[|texts| - 1], texts[|texts| - 2]);
      }
      ConcatAppend(Deltas(init), if d == [] then [] else [d]);
      assert Concat(if d == [] then [] else [d]) == d by {
        if d != [] {
          assert [d][..0] == [];
        }
      }
    }
  }

  /** One more text extends the deltas by its suffix, if that is not empty. */
  lemma DeltasStep(texts: seq<string>, i: nat)
    requires i < |texts|
    ensures var d := Suffix(texts[i], LastText(texts[..i]));
      && Deltas(texts[..i + 1]) == Deltas(texts[..i]) + (if d == [] then [] else [d])
      && LastText(texts[..i + 1]) == texts[i]
  {
    assert texts[..i + 1][..i] == texts[..i];
  }

  /** The generator loop: walks the texts, forwards every non-empty suffix and
      keeps `last_text` up to date. */
  method StreamDeltas(texts: seq<string>) returns (yielded: seq<string>, lastText: string)
    ensures yielded == Deltas(texts)
    ensures lastText == LastText(texts)
  {
    yielded, lastText := [], "";
    var i := 0;
    while i < |texts|
      invariant 0 <= i <= |texts|
      invariant yielded == Deltas(texts[..i])
      invariant lastText == LastText(texts[..i])
    {
      DeltasStep(texts, i);
      var text := texts[i];
      var newText := Suffix(text, lastText);
      if newText != [] {
        yielded := yielded + [newText];
      }
      lastText := text;
      i := i + 1;
    }
    assert texts[..i] == texts;
  }
}
