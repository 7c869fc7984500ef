/**
 The pieces of Kotlin's and Java's string library that the validators of the
 form rely on: the whole-string match of the regular expression `.*[k].*`,
 `String.length` (UTF-16 code units), `String.toIntOrNull()` and
 `Int.toString()`.

 Characters are Unicode scalar values; a Kotlin string is the same text
 written in UTF-16.
 */
module KotlinText {
  import opened Options

  /** The line terminators of java.util.regex.Pattern when no flag is given:
      the characters that `.` does not match. */
  predicate IsLineTerminator(c: char) {
    c == '\n' || c == '\r' || c == '\U{85}' || c == '\U{2028}' || c == '\U{2029}'
  }

  /** Every character of `s` is matched by `.`. */
  predicate SingleLine(s: string) {
    forall i :: 0 <= i < |s| ==> !IsLineTerminator(s[i])
  }

  /** The four bracket classes the form uses: `[A-Z]`, `[a-z]`, `[@#$%^&+=]`, `[0-9]`. */
  datatype CharClass = Upper | Lower | Special | Digit

  predicate InClass(c: char, k: CharClass) {
    match k
    case Upper => 'A' <= c <= 'Z'
    case Lower => 'a' <= c <= 'z'
    case Special => c in "@#$%^&+="
    case Digit => '0' <= c <= '9'
  }

  /** Reference semantics: `s` is in the language of the regular expression
      `.*[k].*`, i.e. it splits into a dot-only prefix, one character of class
      `k`, and a dot-only suffix. */
  ghost predicate InLanguage(s: string, k: CharClass) {
    exists i :: 0 <= i < |s| && InClass(s[i], k) && SingleLine(s[..i]) && SingleLine(s[i + 1..])
  }

  /** What the match amounts to: some character of class `k`, and no line
      terminator anywhere. */
  ghost predicate HasOnOneLine(s: string, k: CharClass) {
    SingleLine(s) && exists i :: 0 <= i < |s| && InClass(s[i], k)
  }

  /** Kotlin's `s.matches(".*[k].*".toRegex())`, a match of the whole string. */
  function MatchesAround(s: string, k: CharClass): (b: bool)
    ensures b <==> HasOnOneLine(s, k)
  {
    if s == [] then false
    else if IsLineTerminator(s[0]) then false
    else if InClass(s[0], k) then SingleLine(s[1..])
    else
      var b := MatchesAround(s[1..], k);
      assert HasOnOneLine(s[1..], k) ==> HasOnOneLine(s, k) by {
        if HasOnOneLine(s[1..], k) {
          var j :| 0 <= j < |s[1..]| && InClass(s[1..][j], k);
          assert InClass(s[j + 1], k);
        }
      }
      assert HasOnOneLine(s, k) ==> HasOnOneLine(s[1..], k) by {
        if HasOnOneLine(s, k) {
          var j :| 0 <= j < |s| && InClass(s[j], k);
          assert j != 0;
          assert InClass(s[1..][j - 1], k);
        }
      }
      b
  }

  /** The matcher agrees with the regular expression's language. */
  lemma MatchesAroundIsRegexMatch(s: string, k: CharClass)
    ensures MatchesAround(s, k) <==> InLanguage(s, k)
  {
    if InLanguage(s, k) {
      var i :| 0 <= i < |s| && InClass(s[i], k) && SingleLine(s[..i]) && SingleLine(s[i + 1..]);
      forall j | 0 <= j < |s| ensures !IsLineTerminator(s[j]) {
        if j < i {
          assert s[..i][j] == s[j];
        } else if j > i {
          assert s[i + 1..][j - i - 1] == s[j];
        }
      }
    }
    if MatchesAround(s, k) {
      var i :| 0 <= i < |s| && InClass(s[i], k);
      assert SingleLine(s[..i]) && SingleLine(s[i + 1..]);
    }
  }

  /** Kotlin's `String.length`: the number of UTF-16 code units, two for a
      character beyond U+FFFF. */
  function Utf16Length(s: string): (n: nat)
    ensures |s| <= n <= 2 * |s|
  {
    if s == [] then 0 else (if s[0] as int > 0xFFFF then 2 else 1) + Utf16Length(s[1..])
  }

  /** Text in the Basic Multilingual Plane, where Kotlin's length is the number of characters. */
  predicate InBmp(s: string) {
    forall i :: 0 <= i < |s| ==> s[i] as int <= 0xFFFF
  }

  lemma {:induction false} Utf16LengthOfBmp(s: string)
    requires InBmp(s)
    ensures Utf16Length(s) == |s|
  {
    if s != [] {
      assert InBmp(s[1..]) by {
        forall i | 0 <= i < |s[1..]| ensures s[1..][i] as int <= 0xFFFF {
          assert s[1..][i] == s[i + 1];
        }
      }
      Utf16LengthOfBmp(s[1..]);
    }
  }

  // ---------------------------------------------------------------------------
  // Integers as text: Int.toString() and String.toIntOrNull()
  // ---------------------------------------------------------------------------

  const IntMin: int := -0x8000_0000
  const IntMax: int := 0x7FFF_FFFF

  predicate IsDecimalDigit(c: char) {
    '0' <= c <= '9'
  }

  predicate AllDigits(s: string) {
    forall i :: 0 <= i < |s| ==> IsDecimalDigit(s[i])
  }

  /** The value of a run of decimal digits, most significant first. */
  function DigitsValue(s: string): nat
    requires AllDigits(s)
  {
    if s == [] then 0 else 10 * DigitsValue(s[..|s| - 1]) + (s[|s| - 1] as int - '0' as int)
  }

  function DigitChar(d: nat): (c: char)
    requires d < 10
    ensures IsDecimalDigit(c) && c as int - '0' as int == d
  {
    ('0' as int + d) as char
  }

  /** Decimal text of a natural number, without leading zeros. */
  function NatToDecimal(n: nat): (s: string)
    ensures s != [] && AllDigits(s)
    ensures s[0] == '0' ==> n == 0
  {
    if n < 10 then [DigitChar(n)] else NatToDecimal(n / 10) + [DigitChar(n % 10)]
  }

  /** Kotlin's `Int.toString()`: a minus sign for negative values, then the digits. */
  function IntToDecimal(n: int): (s: string)
    ensures s != [] && IsDecimalDigit(s[|s| - 1])
    ensures n >= 0 <==> IsDecimalDigit(s[0])
  {
    if n < 0 then "-" + NatToDecimal(-n) else NatToDecimal(n)
  }

  /** Kotlin's `String.toIntOrNull()` in radix 10: an optional `+` or `-`, at
      least one digit, and a value in the 32-bit range; anything else is null. */
  function ParseInt(s: string): (r: Option<int>)
    ensures r.Some? ==> IntMin <= r.value <= IntMax
    ensures r.Some? ==> s != [] && IsDecimalDigit(s[|s| - 1])
    ensures r.Some? ==> (r.value < 0 ==> s[0] == '-')
  {
    if s == [] then None
    else
      var negative := s[0] == '-';
      var digits := if s[0] == '-' || s[0] == '+' then s[1..] else s;
      if digits == [] || !AllDigits(digits) then None
      else
        var magnitude: int := DigitsValue(digits);
        var v := if negative then -magnitude else magnitude;
        if IntMin <= v <= IntMax then Some(v) else None
  }

  /** A character other than a digit after the optional sign makes the text unreadable. */
  lemma ParseIntRejectsNonDigit(s: string, i: nat)
    requires i < |s| && !IsDecimalDigit(s[i])
    requires i > 0 || (s[0] != '-' && s[0] != '+')
    ensures ParseInt(s) == None
  {
    var digits := if s[0] == '-' || s[0] == '+' then s[1..] else s;
    if digits == s {
      assert !IsDecimalDigit(digits[i]);
    } else {
      assert !IsDecimalDigit(digits[i - 1]);
    }
  }

  lemma {:induction false} DigitsValueOfNatToDecimal(n: nat)
    ensures DigitsValue(NatToDecimal(n)) == n
  {
    if n >= 10 {
      var s := NatToDecimal(n);
      DigitsValueOfNatToDecimal(n / 10);
      assert s[..|s| - 1] == NatToDecimal(n / 10);
    }
  }

  /** Reading back the text that `Int.toString()` writes gives the same integer. */
  lemma ParseIntOfIntToDecimal(n: int)
    requires IntMin <= n <= IntMax
    ensures ParseInt(IntToDecimal(n)) == Some(n)
  {
    var m: nat := if n < 0 then -n else n;
    DigitsValueOfNatToDecimal(m);
    var s := IntToDecimal(n);
    if n < 0 {
      assert s[1..] == NatToDecimal(m);
    }
  }
}
