/** The word cloud's derived values (frontend/lib/components/WordCloud.tsx):
    the string hash that picks each word's rotation and colour, and the
    domain of the font-size scale. */
module WordCloud {

  import opened Wrappers

  const TwoTo31: int := 0x8000_0000
  const TwoTo32: int := 0x1_0000_0000

  /** ECMAScript ToInt32: the integer wrapped into the signed 32-bit range. */
  function ToInt32(x: int): (r: int)
    ensures -TwoTo31 <= r < TwoTo31
    ensures (r - x) % TwoTo32 == 0
    ensures -TwoTo31 <= x < TwoTo31 ==> r == x
  {
    (x + TwoTo31) % TwoTo32 - TwoTo31
  }

  function Abs(x: int): nat { if x < 0 then -x else x }

  /** One step of the loop: `((hash << 5) + hash) + code`, where the shift
      wraps to 32 bits but the additions do not. */
  function HashStep(h: int, c: char): int
  {
    ToInt32(ToInt32(h) * 32) + h + c as int
  }

  /** The loop variable after the characters of `s`. */
  function HashPrefix(s: string): int
  {
    if s == [] then 5381 else HashStep(HashPrefix(s[..|s| - 1]), s[|s| - 1])
  }

  /** The step is the `hash * 33 + c` its comment names only while the
      hash is a 32-bit value and `hash * 32` still fits in 32 bits. */
  lemma HashStepWhileSmall(h: int, c: char)
    requires -TwoTo31 <= h * 32 < TwoTo31
    ensures HashStep(h, c) == h * 33 + c as int
  {
  }

  /** Beyond that range the shift wraps: the hash of "~~~~~" is not the
      product-and-sum the comment describes. */
  lemma HashStepWraps()
    ensures HashPrefix("~~~~~") != ((((5381 * 33 + 126) * 33 + 126) * 33 + 126) * 33 + 126) * 33 + 126
  {
    assert "~~~~~"[..4] == "~~~~";
    assert "~~~~"[..3] == "~~~";
    assert "~~~"[..2] == "~~";
    assert "~~"[..1] == "~";
    assert "~"[..0] == "";
  }

  /** `hashString(str)`. */
  method HashString(str: string) returns (r: int)
    ensures r == Abs(HashPrefix(str))
    ensures r >= 0
    ensures str == "" ==> r == 5381
  {
    var hash := 5381;
    var i := 0;
    while i < |str|
      invariant 0 <= i <= |str|
      invariant hash == HashPrefix(str[..i])
    {
      assert str[..i + 1][..i] == str[..i];
      hash := ToInt32(ToInt32(hash) * 32) + hash + str[i] as int;
      i := i + 1;
    }
    assert str[..i] == str;
    r := if hash < 0 then -hash else hash;
  }

  /** The rotation of a word: 0 degrees for an even hash, 90 for an odd one. */
  method Rotation(text: string) returns (degrees: int)
    ensures degrees == 0 || degrees == 90
    ensures degrees == 0 <==> Abs(HashPrefix(text)) % 2 == 0
  {
    var h := HashString(text);
    degrees := if h % 2 == 0 then 0 else 90;
  }

  /** The colour-scale key of a word: its hash modulo 10. */
  method ColourKey(text: string) returns (key: int)
    ensures 0 <= key < 10
    ensures (Abs(HashPrefix(text)) - key) % 10 == 0
  {
    var h := HashString(text);
    key := h % 10;
    LastDigit(h);
  }

  /** Taking away the remainder leaves a multiple of ten. */
  lemma LastDigit(h: int)
    ensures (h - h % 10) % 10 == 0
  {
    assert h - h % 10 == 10 * (h / 10);
  }

  function Min(xs: seq<real>): (m: real)
    requires xs != []
    ensures m in xs && forall x | x in xs :: m <= x
  {
    if |xs| == 1 then xs[0]
    else
      var rest := Min(xs[1..]);
      assert forall x | x in xs[1..] :: x in xs;
      assert forall x | x in xs :: x == xs[0] || x in xs[1..];
      if xs[0] <= rest then xs[0] else rest
  }

  function Max(xs: seq<real>): (m: real)
    requires xs != []
    ensures m in xs && forall x | x in xs :: x <= m
  {
    if |xs| == 1 then xs[0]
    else
      var rest := Max(xs[1..]);
      assert forall x | x in xs[1..] :: x in xs;
      assert forall x | x in xs :: x == xs[0] || x in xs[1..];
      if xs[0] >= rest then xs[0] else rest
  }

  /** The font-size scale's domain for the word values: none when there are
      no words (nothing is drawn), otherwise from the smallest value to the
      largest, or to one above the smallest when all values are equal. */
  function FontDomain(values: seq<real>): (d: Option<(real, real)>)
    ensures d.None? <==> values == []
    ensures d.Some? ==>
      && d.value.0 in values
      && (forall v | v in values :: d.value.0 <= v)
      && d.value.0 < d.value.1
      && (forall v | v in values :: v <= d.value.1)
      && (d.value.1 in values || d.value.1 == d.value.0 + 1.0)
  {
    if values == [] then None
    else
      var lo, hi := Min(values), Max(values);
      Some((lo, if hi == lo then lo + 1.0 else hi))
  }
}
