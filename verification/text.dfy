/**
 * String helpers of the market script: `pad`, `toCamelCase`, and the pieces of
 * the JavaScript runtime they rely on (`Number.prototype.toString` for integers,
 * `toUpperCase`/`toLowerCase` on ASCII letters, the regular-expression classes
 * `\w` and `\s`).
 */
module Text {

  // ---------------------------------------------------------------------------
  // Decimal digits

  predicate AllDigits(s: string)
  {
    forall i :: 0 <= i < |s| ==> '0' <= s[i] <= '9'
  }

  function DigitChar(d: nat): (c: char)
    requires d < 10
    ensures '0' <= c <= '9'
  {
    ('0' as int + d) as char
  }

  function DigitValue(c: char): (d: nat)
    requires '0' <= c <= '9'
    ensures d < 10
  {
    c as int - '0' as int
  }

  /** Decimal notation of a natural number, most significant digit first. */
  function Digits(n: nat): (s: string)
    ensures |s| > 0 && AllDigits(s)
    ensures s[0] == '0' ==> n == 0  // no leading zero
    decreases n
  {
    if n < 10 then [DigitChar(n)] else Digits(n / 10) + [DigitChar(n % 10)]
  }

  /** The number a string of decimal digits denotes. */
  function ParseDecimal(s: string): nat
    requires AllDigits(s)
  {
    if s == [] then 0 else ParseDecimal(s[..|s| - 1]) * 10 + DigitValue(s[|s| - 1])
  }

  /** Reading back the decimal notation of `n` gives `n`. */
  lemma {:induction false} DigitsRoundTrip(n: nat)
    ensures ParseDecimal(Digits(n)) == n
    decreases n
  {
    if n >= 10 {
      var s := Digits(n);
      assert s[..|s| - 1] == Digits(n / 10);
      DigitsRoundTrip(n / 10);
    }
  }

  /** `num.toString()` for an integer `num`: a minus sign for negatives, then the digits. */
  function NumberToString(num: int): string
  {
    if num < 0 then "-" + Digits(-num) else Digits(num)
  }

  function Zeros(k: nat): (z: string)
    ensures |z| == k && forall i :: 0 <= i < k ==> z[i] == '0'
  {
    if k == 0 then [] else "0" + Zeros(k - 1)
  }

  lemma {:induction false} ZerosDenoteZero(k: nat)
    ensures AllDigits(Zeros(k)) && ParseDecimal(Zeros(k)) == 0
    decreases k
  {
    if k > 0 {
      assert Zeros(k)[..k - 1] == Zeros(k - 1) by {
        forall i | 0 <= i < k - 1 ensures Zeros(k)[i] == Zeros(k - 1)[i] { }
      }
      ZerosDenoteZero(k - 1);
    }
  }

  /** Leading zeros do not change the number a digit string denotes. */
  lemma {:induction false} LeadingZerosKeepValue(k: nat, s: string)
    requires AllDigits(s)
    ensures AllDigits(Zeros(k) + s) && ParseDecimal(Zeros(k) + s) == ParseDecimal(s)
    decreases |s|
  {
    var t := Zeros(k) + s;
    if s == [] {
      assert t == Zeros(k);
      ZerosDenoteZero(k);
    } else {
      assert t[..|t| - 1] == Zeros(k) + s[..|s| - 1];
      LeadingZerosKeepValue(k, s[..|s| - 1]);
    }
  }

  /** One more leading zero. */
  lemma ZerosStep(k: nat, s: string)
    ensures "0" + (Zeros(k) + s) == Zeros(k + 1) + s
  {
    assert Zeros(k + 1) == "0" + Zeros(k);
  }

  /** Zeros in front of the decimal string of a natural number still read back as that number. */
  lemma PaddedValue(num: int, k: nat)
    ensures num >= 0 ==> AllDigits(Zeros(k) + NumberToString(num)) && ParseDecimal(Zeros(k) + NumberToString(num)) == num
  {
    if num >= 0 {
      LeadingZerosKeepValue(k, NumberToString(num));
      DigitsRoundTrip(num);
    }
  }

  /**
   * `pad(num, totalDigits)`: the decimal string of `num`, grown by prepending
   * '0' one character at a time until it is `totalDigits` long.
   */
  method Pad(num: int, totalDigits: int) returns (r: string)
    ensures var s := NumberToString(num);
      && (|s| >= totalDigits ==> r == s)
      && (|s| < totalDigits ==> |r| == totalDigits)
      && |r| >= |s| && r == Zeros(|r| - |s|) + s
    ensures num >= 0 ==> AllDigits(r) && ParseDecimal(r) == num
  {
    var s := NumberToString(num);
    r := s;
    ghost var k := 0;
    assert r == Zeros(0) + s;
    while |r| < totalDigits
      invariant |r| == |s| + k && r == Zeros(k) + s
      invariant |s| < totalDigits ==> |r| <= totalDigits
      invariant |s| >= totalDigits ==> k == 0
      decreases totalDigits - |r|
    {
      ZerosStep(k, s);
      r := "0" + r;
      k := k + 1;
    }
    PaddedValue(num, k);
  }

  // ---------------------------------------------------------------------------
  // Letters and character classes

  /** `toUpperCase` on one character of the ASCII range (other characters are left out). */
  function ToUpper(c: char): char
  {
    if 'a' <= c <= 'z' then (c as int - 32) as char else c
  }

  /** `toLowerCase` on one character of the ASCII range (other characters are left out). */
  function ToLower(c: char): char
  {
    if 'A' <= c <= 'Z' then (c as int + 32) as char else c
  }

  /** The regular-expression class `\w`: ASCII letters, digits and '_'. */
  predicate IsWordChar(c: char)
  {
    ('a' <= c <= 'z') || ('A' <= c <= 'Z') || ('0' <= c <= '9') || c == '_'
  }

  /** The regular-expression class `\s` of ECMAScript: white space and line terminators. */
  predicate IsWhitespace(c: char)
  {
    var n := c as int;
    (9 <= n <= 13) || n == 0x20 || n == 0xA0 || n == 0x1680 || (0x2000 <= n <= 0x200A)
    || n == 0x2028 || n == 0x2029 || n == 0x202F || n == 0x205F || n == 0x3000 || n == 0xFEFF
  }

  /** No character is both in `\w` and in `\s`. */
  lemma WordIsNotSpace(c: char)
    ensures IsWordChar(c) ==> !IsWhitespace(c)
  {
  }

  /** Upper-casing keeps a character in or out of `\w` and `\s`, and is idempotent. */
  lemma UpperKeepsClasses(c: char)
    ensures IsWordChar(ToUpper(c)) == IsWordChar(c)
    ensures IsWhitespace(ToUpper(c)) == IsWhitespace(c)
    ensures ToUpper(ToUpper(c)) == ToUpper(c)
    ensures IsWhitespace(c) ==> ToUpper(c) == c
  {
  }

  /** `s.toLowerCase()` on ASCII letters. */
  function Lower(s: string): (r: string)
    ensures |r| == |s|
    ensures forall i :: 0 <= i < |s| ==> r[i] == ToLower(s[i])
  {
    if s == [] then [] else [ToLower(s[0])] + Lower(s[1..])
  }

  predicate IsLowerCase(s: string)
  {
    forall i :: 0 <= i < |s| ==> !('A' <= s[i] <= 'Z')
  }

  /** Lower-casing yields a lower-case string and leaves a lower-case string alone. */
  lemma LowerIsLowerCase(s: string)
    ensures IsLowerCase(Lower(s))
    ensures IsLowerCase(s) ==> Lower(s) == s
  {
  }

  // ---------------------------------------------------------------------------
  // toCamelCase

  /**
   * `str.replace(/(?:^|\s)\w/g, m => m.toUpperCase())`, resuming the global
   * search at index `i`: at each index the pattern either matches (at index 0
   * a single word character, elsewhere a white-space character followed by a
   * word character), and the match is upper-cased and skipped, or it fails and
   * one character is copied.
   */
  function ReplaceFrom(s: string, i: nat): string
    requires i <= |s|
    decreases |s| - i
  {
    if i == |s| then []
    else if i == 0 && IsWordChar(s[0]) then [ToUpper(s[0])] + ReplaceFrom(s, 1)
    else if i + 1 < |s| && IsWhitespace(s[i]) && IsWordChar(s[i + 1]) then
      [ToUpper(s[i]), ToUpper(s[i + 1])] + ReplaceFrom(s, i + 2)
    else [s[i]] + ReplaceFrom(s, i + 1)
  }

  function ToCamelCase(s: string): (r: string)
    ensures |r| == |s|
  {
    ReplaceFromLength(s, 0);
    ReplaceFrom(s, 0)
  }

  /** A character is capitalised exactly when it is a word character at the start or after white space. */
  predicate StartsWord(s: string, k: nat)
    requires k < |s|
  {
    IsWordChar(s[k]) && (k == 0 || IsWhitespace(s[k - 1]))
  }

  /** The scan copies or upper-cases each character once: the length is kept. */
  lemma {:induction false} ReplaceFromLength(s: string, i: nat)
    requires i <= |s|
    ensures |ReplaceFrom(s, i)| == |s| - i
    decreases |s| - i
  {
    if i == |s| {
    } else if i == 0 && IsWordChar(s[0]) {
      ReplaceFromLength(s, 1);
    } else if i + 1 < |s| && IsWhitespace(s[i]) && IsWordChar(s[i + 1]) {
      ReplaceFromLength(s, i + 2);
    } else {
      ReplaceFromLength(s, i + 1);
    }
  }

  /**
   * The character the scan resumed at `i` writes for index `k`, provided `i`
   * does not sit in the middle of a match.
   */
  lemma {:induction false} ReplaceFromIndex(s: string, i: nat, k: nat)
    requires i <= k < |s|
    requires 0 < i ==> !(IsWhitespace(s[i - 1]) && IsWordChar(s[i]))
    ensures |ReplaceFrom(s, i)| == |s| - i
    ensures ReplaceFrom(s, i)[k - i] == if StartsWord(s, k) then ToUpper(s[k]) else s[k]
    decreases |s| - i, 1
  {
    ReplaceFromLength(s, i);
    if i == 0 && IsWordChar(s[0]) {
      ScanWordAtStart(s, k);
    } else if i + 1 < |s| && IsWhitespace(s[i]) && IsWordChar(s[i + 1]) {
      ScanSpaceThenWord(s, i, k);
    } else {
      ScanCopy(s, i, k);
    }
  }

  /** The match `^\w` at index 0. */
  lemma {:induction false} ScanWordAtStart(s: string, k: nat)
    requires k < |s| && IsWordChar(s[0])
    ensures |ReplaceFrom(s, 0)| == |s|
    ensures ReplaceFrom(s, 0)[k] == if StartsWord(s, k) then ToUpper(s[k]) else s[k]
    decreases |s|, 0
  {
    ReplaceFromLength(s, 0);
    var r := ReplaceFrom(s, 0);
    assert r == [ToUpper(s[0])] + ReplaceFrom(s, 1);
    if k > 0 {
      WordIsNotSpace(s[0]);
      ReplaceFromIndex(s, 1, k);
      assert r[k] == ReplaceFrom(s, 1)[k - 1];
    } else {
      assert StartsWord(s, k);
    }
  }

  /** The match `\s\w` at index `i`. */
  lemma {:induction false} ScanSpaceThenWord(s: string, i: nat, k: nat)
    requires i <= k < |s| && i + 1 < |s| && IsWhitespace(s[i]) && IsWordChar(s[i + 1])
    requires !(i == 0 && IsWordChar(s[0]))
    ensures |ReplaceFrom(s, i)| == |s| - i
    ensures ReplaceFrom(s, i)[k - i] == if StartsWord(s, k) then ToUpper(s[k]) else s[k]
    decreases |s| - i, 0
  {
    ReplaceFromLength(s, i);
    var r := ReplaceFrom(s, i);
    assert r == [ToUpper(s[i]), ToUpper(s[i + 1])] + ReplaceFrom(s, i + 2);
    WordIsNotSpace(s[i + 1]);
    if k >= i + 2 {
      ReplaceFromIndex(s, i + 2, k);
      assert r[k - i] == ReplaceFrom(s, i + 2)[k - i - 2];
    } else if k == i + 1 {
      assert StartsWord(s, k);
    } else {
      WordIsNotSpace(s[i]);
      UpperKeepsClasses(s[i]);
      assert !StartsWord(s, k);
    }
  }

  /** No match at index `i`: one character is copied. */
  lemma {:induction false} ScanCopy(s: string, i: nat, k: nat)
    requires i <= k < |s|
    requires 0 < i ==> !(IsWhitespace(s[i - 1]) && IsWordChar(s[i]))
    requires !(i == 0 && IsWordChar(s[0]))
    requires !(i + 1 < |s| && IsWhitespace(s[i]) && IsWordChar(s[i + 1]))
    ensures |ReplaceFrom(s, i)| == |s| - i
    ensures ReplaceFrom(s, i)[k - i] == if StartsWord(s, k) then ToUpper(s[k]) else s[k]
    decreases |s| - i, 0
  {
    ReplaceFromLength(s, i);
    var r := ReplaceFrom(s, i);
    var rest := ReplaceFrom(s, i + 1);
    assert r == [s[i]] + rest;
    if k > i {
      ReplaceFromIndex(s, i + 1, k);
      assert r[k - i] == rest[k - i - 1];
    } else if i > 0 {
      assert !StartsWord(s, k);
    }
  }

  /**
   * `toCamelCase` keeps the length and upper-cases a character exactly when it
   * is a word character at index 0 or right after a white-space character.
   */
  lemma CamelCaseAt(s: string)
    ensures |ToCamelCase(s)| == |s|
    ensures forall k :: 0 <= k < |s| ==>
      ToCamelCase(s)[k] == if StartsWord(s, k) then ToUpper(s[k]) else s[k]
  {
    ReplaceFromLength(s, 0);
    forall k | 0 <= k < |s|
      ensures ToCamelCase(s)[k] == if StartsWord(s, k) then ToUpper(s[k]) else s[k]
    {
      ReplaceFromIndex(s, 0, k);
    }
  }

  /** Applying `toCamelCase` twice gives what applying it once gives. */
  lemma CamelCaseIdempotent(s: string)
    ensures ToCamelCase(ToCamelCase(s)) == ToCamelCase(s)
  {
    var t := ToCamelCase(s);
    CamelCaseAt(s);
    CamelCaseAt(t);
    forall k | 0 <= k < |s|
      ensures ToCamelCase(t)[k] == t[k]
    {
      UpperKeepsClasses(s[k]);
      if k > 0 {
        UpperKeepsClasses(s[k - 1]);
      }
    }
  }
}
