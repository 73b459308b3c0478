/** The emoji encodings the games display numbers and letters with: keycap digits (`toKeycap`), the
    heavy minus sign for negatives, and regional-indicator letters (`toLetterEmoji`). */
module Keycap {
  import opened Basics

  const VariationSelector: char := '\U{FE0F}'
  const CombiningKeycap: char := '\U{20E3}'
  const HeavyMinus: char := '\U{2796}'

  /** Decimal digits of `n.toString()`, most significant first. */
  function Digits(n: nat): (ds: seq<nat>)
    ensures |ds| >= 1
    ensures forall i :: 0 <= i < |ds| ==> ds[i] < 10
    ensures n >= 10 ==> ds[0] != 0
  {
    if n < 10 then [n] else Digits(n / 10) + [n % 10]
  }

  function Value(ds: seq<nat>): nat {
    if ds == [] then 0 else Value(ds[..|ds| - 1]) * 10 + ds[|ds| - 1]
  }

  lemma {:induction false} ValueDigits(n: nat)
    ensures Value(Digits(n)) == n
  {
    if n >= 10 {
      ValueDigits(n / 10);
      var ds := Digits(n / 10) + [n % 10];
      assert ds[..|ds| - 1] == Digits(n / 10);
    }
  }

  /** `'d️⃣'`: the digit, the emoji variation selector, the combining keycap. */
  function Cap(d: nat): (s: string)
    requires d < 10
    ensures |s| == 3 && '0' <= s[0] <= '9' && s[1] == VariationSelector && s[2] == CombiningKeycap
  {
    [('0' as int + d) as char, VariationSelector, CombiningKeycap]
  }

  function Caps(ds: seq<nat>): (s: string)
    requires forall i :: 0 <= i < |ds| ==> ds[i] < 10
    ensures |s| == 3 * |ds|
  {
    if ds == [] then "" else Cap(ds[0]) + Caps(ds[1..])
  }

  /** `toKeycap` of the falling, sort, calc and pattern games: keycaps of `Math.abs(num)`, preceded by
      the heavy minus sign when `num` is negative. */
  function Signed(num: int): string {
    var mag := if num < 0 then -num else num;
    (if num < 0 then [HeavyMinus] else []) + Caps(Digits(mag))
  }

  /** `toKeycap` of the compare and memory games: keycaps of `num.toString()`, where the `'-'` of a
      negative number has no keycap and maps to the empty string. */
  function Unsigned(num: int): string {
    var mag := if num < 0 then -num else num;
    Caps(Digits(mag))
  }

  /** Reading keycaps back: digits from a run of keycaps. */
  function ParseCaps(s: string): (r: Option<seq<nat>>)
    ensures r.Some? ==> forall i :: 0 <= i < |r.value| ==> r.value[i] < 10
    decreases |s|
  {
    if s == [] then Some([])
    else if |s| >= 3 && '0' <= s[0] <= '9' && s[1] == VariationSelector && s[2] == CombiningKeycap then
      match ParseCaps(s[3..])
      case None => None
      case Some(ds) => Some([s[0] as int - '0' as int] + ds)
    else None
  }

  function Decode(s: string): Option<int> {
    if |s| > 0 && s[0] == HeavyMinus then
      match ParseCaps(s[1..])
      case Some(ds) => if ds == [] then None else Some(-(Value(ds) as int))
      case None => None
    else
      match ParseCaps(s)
      case Some(ds) => if ds == [] then None else Some(Value(ds))
      case None => None
  }

  lemma {:induction false} ParseCapsOf(ds: seq<nat>)
    requires forall i :: 0 <= i < |ds| ==> ds[i] < 10
    ensures ParseCaps(Caps(ds)) == Some(ds)
  {
    if ds != [] {
      ParseCapsOf(ds[1..]);
      var s := Caps(ds);
      assert s[3..] == Caps(ds[1..]);
      assert s[..3] == Cap(ds[0]);
      assert s[0] as int - '0' as int == ds[0];
      assert '0' <= s[0] <= '9' && s[1] == VariationSelector && s[2] == CombiningKeycap;
      assert [ds[0]] + ds[1..] == ds;
    }
  }

  /** Signed keycaps are read back as the number they show, negative numbers included. */
  lemma SignedRoundTrip(num: int)
    ensures Decode(Signed(num)) == Some(num)
  {
    var mag := if num < 0 then -num else num;
    var ds := Digits(mag);
    ParseCapsOf(ds);
    ValueDigits(mag);
    var caps := Caps(ds);
    assert caps[..3] == Cap(ds[0]);
    if num < 0 {
      assert Signed(num)[1..] == caps;
    } else {
      assert Signed(num) == caps;
    }
  }

  /** Unsigned keycaps drop the sign: a negative number shows as its magnitude. Every number those two
      games display is non-negative, where the two encodings agree. */
  lemma UnsignedDropsSign(num: int)
    ensures Unsigned(-num) == Unsigned(num)
    ensures num >= 0 ==> Unsigned(num) == Signed(num)
    ensures num > 0 ==> Decode(Unsigned(-num)) == Some(num)
  {
    if num > 0 {
      SignedRoundTrip(num);
    }
  }

  /** `toLetterEmoji`: a letter becomes its regional indicator symbol; anything else is kept. */
  function LetterEmoji(ch: char): (e: char)
    ensures 'a' <= ch <= 'z' ==> e as int == 0x1F1E6 + (ch as int - 'a' as int)
    ensures 'A' <= ch <= 'Z' ==> e as int == 0x1F1E6 + (ch as int - 'A' as int)
    ensures !('a' <= ch <= 'z' || 'A' <= ch <= 'Z') ==> e == ch
  {
    var lower := if 'A' <= ch <= 'Z' then (ch as int + 32) as char else ch;
    var code := lower as int - 97;
    if 0 <= code < 26 then (0x1F1E6 + code) as char else ch
  }

  /** Distinct lowercase letters show as distinct emoji. */
  lemma LetterEmojiInjective(a: char, b: char)
    requires 'a' <= a <= 'z' && 'a' <= b <= 'z' && a != b
    ensures LetterEmoji(a) != LetterEmoji(b)
  {
  }
}
