/** The JavaScript string primitives the task engine relies on:
    `String.prototype.trim` (through "is the query blank"), `toLowerCase`
    restricted to ASCII, `includes`, and `parseInt(s, 10)`. */
module Text {
  import opened Tasks

  predicate IsDigit(c: char) {
    '0' <= c <= '9'
  }

  predicate AllDigits(s: string) {
    forall i :: 0 <= i < |s| ==> IsDigit(s[i])
  }

  /** The characters `trim` and `parseInt` skip: ECMAScript's WhiteSpace and
      LineTerminator code points. */
  predicate IsWhitespace(c: char) {
    var n := c as int;
    n == 0x09 || n == 0x0A || n == 0x0B || n == 0x0C || n == 0x0D || n == 0x20
    || n == 0xA0 || n == 0x1680 || (0x2000 <= n <= 0x200A) || n == 0x2028
    || n == 0x2029 || n == 0x202F || n == 0x205F || n == 0x3000 || n == 0xFEFF
  }

  /** `!s.trim()`: the string is empty once its surrounding whitespace is
      removed, that is, stripping its leading whitespace leaves nothing. */
  predicate IsBlank(s: string): (b: bool)
    ensures b <==> SkipWhitespace(s) == []
  {
    var r := SkipWhitespace(s);
    assert r != [] ==> r[0] == s[|s| - |r|];
    forall i :: 0 <= i < |s| ==> IsWhitespace(s[i])
  }

  function LowerChar(c: char): char {
    if 'A' <= c <= 'Z' then (c as int + 32) as char else c
  }

  /** `toLowerCase` on the ASCII range; other characters are kept. */
  function ToLower(s: string): (r: string)
    ensures |r| == |s|
    ensures forall i :: 0 <= i < |s| ==> r[i] == LowerChar(s[i])
    ensures forall i :: 0 <= i < |r| ==> !('A' <= r[i] <= 'Z')
    ensures forall i :: 0 <= i < |s| && !('A' <= s[i] <= 'Z') ==> r[i] == s[i]
  {
    seq(|s|, i requires 0 <= i < |s| => LowerChar(s[i]))
  }

  /** Lower-casing a lower-cased string changes nothing. */
  lemma ToLowerIdempotent(s: string)
    ensures ToLower(ToLower(s)) == ToLower(s)
  {
  }

  /** Lower-casing never produces a digit or a dot from anything else. */
  lemma LowerCharKeepsDigitsAndDots(c: char)
    ensures IsDigit(LowerChar(c)) <==> IsDigit(c)
    ensures LowerChar(c) == '.' <==> c == '.'
  {
  }

  predicate OccursAt(hay: string, needle: string, i: int) {
    0 <= i <= |hay| - |needle| && hay[i..i + |needle|] == needle
  }

  /** `hay.includes(needle)`: the needle occurs somewhere in the haystack.
      The empty needle occurs everywhere. */
  function Includes(hay: string, needle: string): (b: bool)
    ensures b <==> exists i :: OccursAt(hay, needle, i)
    decreases |hay|
  {
    if |needle| > |hay| then
      assert forall i :: !OccursAt(hay, needle, i);
      false
    else if hay[..|needle|] == needle then
      assert OccursAt(hay, needle, 0);
      true
    else
      var b := Includes(hay[1..], needle);
      assert forall i :: OccursAt(hay[1..], needle, i) ==> OccursAt(hay, needle, i + 1);
      assert forall i :: OccursAt(hay, needle, i) && i > 0 ==> OccursAt(hay[1..], needle, i - 1);
      b
  }

  /** The whitespace prefix `parseInt` skips, removed. */
  function SkipWhitespace(s: string): (r: string)
    ensures |r| <= |s| && r == s[|s| - |r|..]
    ensures forall i :: 0 <= i < |s| - |r| ==> IsWhitespace(s[i])
    ensures r == [] || !IsWhitespace(r[0])
  {
    if s != [] && IsWhitespace(s[0]) then SkipWhitespace(s[1..]) else s
  }

  /** The longest prefix of `s` made of decimal digits. */
  function DigitPrefix(s: string): (r: string)
    ensures |r| <= |s| && r == s[..|r|]
    ensures AllDigits(r)
    ensures |r| < |s| ==> !IsDigit(s[|r|])
  {
    if s != [] && IsDigit(s[0]) then [s[0]] + DigitPrefix(s[1..]) else []
  }

  /** The value of a string of decimal digits. */
  function DecimalValue(d: string): nat
    requires AllDigits(d)
  {
    if d == [] then 0 else 10 * DecimalValue(d[..|d| - 1]) + (d[|d| - 1] as int - '0' as int)
  }

  /** The decimal rendering of a natural number, without leading zeros. */
  function Decimal(n: nat): (r: string)
    ensures |r| > 0 && AllDigits(r)
  {
    var last := ('0' as int + n % 10) as char;
    if n < 10 then [last] else Decimal(n / 10) + [last]
  }

  /** `parseInt(s, 10)`: skip leading whitespace, read an optional sign, then
      the longest run of digits; NaN when that run is empty. A string of
      digits reads as its value; a blank string, or one whose first
      character after the whitespace is neither a sign nor a digit, reads
      as NaN. */
  function ParseInt(s: string): (r: Num)
    ensures s != [] && AllDigits(s) ==> r == Int(DecimalValue(s))
    ensures IsBlank(s) ==> r == NaN
    ensures var t := SkipWhitespace(s);
      t != [] && t[0] != '-' && t[0] != '+' && !IsDigit(t[0]) ==> r == NaN
  {
    var t := SkipWhitespace(s);
    assert s != [] && AllDigits(s) ==> t == s && DigitPrefix(s) == s by {
      if s != [] && AllDigits(s) {
        DigitPrefixOfDigits(s);
      }
    }
    var signed := |t| > 0 && (t[0] == '-' || t[0] == '+');
    var digits := DigitPrefix(if signed then t[1..] else t);
    if digits == [] then NaN
    else if signed && t[0] == '-' then Int(-(DecimalValue(digits) as int))
    else Int(DecimalValue(digits))
  }

  /** Reading back the decimal rendering of a number gives that number. */
  lemma {:induction false} DecimalValueOfDecimal(n: nat)
    ensures DecimalValue(Decimal(n)) == n
  {
    var d := Decimal(n);
    if n >= 10 {
      DecimalValueOfDecimal(n / 10);
      assert d[..|d| - 1] == Decimal(n / 10);
    }
  }

  /** A digit string is its own digit prefix. */
  lemma DigitPrefixOfDigits(s: string)
    requires AllDigits(s)
    ensures DigitPrefix(s) == s
  {
  }

  /** `parseInt` reads back what a number input field holds: the decimal
      rendering of a number, with a minus sign when it is negative. */
  lemma ParseIntRoundTrip(n: int)
    ensures ParseInt(if n < 0 then "-" + Decimal(-n) else Decimal(n)) == Int(n)
  {
    var m: nat := if n < 0 then -n else n;
    var d := Decimal(m);
    DigitPrefixOfDigits(d);
    DecimalValueOfDecimal(m);
    var s := if n < 0 then "-" + d else d;
    assert !IsWhitespace(s[0]);
    assert SkipWhitespace(s) == s;
    if n < 0 {
      assert s[1..] == d;
    } else {
      assert s[0] != '-' && s[0] != '+';
    }
  }
}
