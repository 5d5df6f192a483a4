/** The two pieces of Kotlin's string library the engine relies on: decimal
    rendering of an `Int` inside a string template, and `String.contains`. */
module Text {

  function DigitChar(d: nat): (c: char)
    requires d < 10
    ensures '0' <= c <= '9'
  {
    (d + '0' as int) as char
  }

  /** Decimal rendering of a non-negative number, as `"$n"` prints it. */
  function NatToString(n: nat): (s: string)
    ensures |s| >= 1
    ensures (n < 10) == (|s| == 1)
    ensures forall k :: 0 <= k < |s| ==> '0' <= s[k] <= '9'
  {
    if n < 10 then [DigitChar(n)] else NatToString(n / 10) + [DigitChar(n % 10)]
  }

  /** Different numbers render differently. */
  lemma {:induction false} NatToStringInjective(n: nat, m: nat)
    ensures NatToString(n) == NatToString(m) ==> n == m
  {
    if NatToString(n) == NatToString(m) {
      var s := NatToString(n);
      if n < 10 || m < 10 {
        assert |s| == 1;
        assert n < 10 && m < 10;
        assert s[0] == DigitChar(n) && s[0] == DigitChar(m);
      } else {
        assert s[|s| - 1] == DigitChar(n % 10) && s[|s| - 1] == DigitChar(m % 10);
        assert NatToString(n / 10) == s[..|s| - 1] == NatToString(m / 10);
        NatToStringInjective(n / 10, m / 10);
      }
    }
  }

  predicate IsDigit(c: char) {
    '0' <= c <= '9'
  }

  predicate AllDigits(s: string) {
    forall k :: 0 <= k < |s| ==> IsDigit(s[k])
  }

  /** The number a string of decimal digits denotes, most significant first. */
  function DecimalValue(s: string): nat
    requires AllDigits(s)
  {
    if s == [] then 0
    else DecimalValue(s[..|s| - 1]) * 10 + (s[|s| - 1] as int - '0' as int)
  }

  /** `NatToString(n)` is the decimal notation of `n`: it reads back as `n`,
      and only zero is written with a leading zero. */
  lemma {:induction false} NatToStringDecimal(n: nat)
    ensures AllDigits(NatToString(n)) && DecimalValue(NatToString(n)) == n
    ensures NatToString(n)[0] == '0' <==> n == 0
  {
    var s := NatToString(n);
    if n >= 10 {
      NatToStringDecimal(n / 10);
      assert s[..|s| - 1] == NatToString(n / 10);
      assert s[0] == NatToString(n / 10)[0];
    }
  }

  /** The number of leading decimal digits of `s`. */
  function DigitPrefixLength(s: string): (n: nat)
    ensures n <= |s|
  {
    if s == [] || !IsDigit(s[0]) then 0 else 1 + DigitPrefixLength(s[1..])
  }

  /** Digits followed by a non-digit: the digit run ends exactly there. */
  lemma {:induction false} DigitPrefixOfConcat(digits: string, rest: string)
    requires AllDigits(digits) && rest != [] && !IsDigit(rest[0])
    ensures DigitPrefixLength(digits + rest) == |digits|
  {
    if digits == [] {
      assert digits + rest == rest;
    } else {
      assert (digits + rest)[1..] == digits[1..] + rest;
      DigitPrefixOfConcat(digits[1..], rest);
    }
  }

  /** A message that renders a number after a fixed head and before text
      starting with a non-digit determines the number and the text. */
  lemma {:induction false} OneNumberMessage(head: string, n: nat, a: string, m: nat, b: string)
    requires a != [] && !IsDigit(a[0]) && b != [] && !IsDigit(b[0])
    requires head + NatToString(n) + a == head + NatToString(m) + b
    ensures n == m && a == b
  {
    var x, y := NatToString(n), NatToString(m);
    assert x + a == (head + x + a)[|head|..];
    assert y + b == (head + y + b)[|head|..];
    DigitPrefixOfConcat(x, a);
    DigitPrefixOfConcat(y, b);
    assert (x + a)[..|x|] == x && (y + b)[..|y|] == y;
    assert (x + a)[|x|..] == a && (y + b)[|y|..] == b;
    NatToStringInjective(n, m);
  }

  lemma Associate(a: string, b: string, c: string)
    ensures a + (b + c) == a + b + c
  {
  }

  /** The same for a message that renders two numbers, each followed by text
      starting with a non-digit. */
  lemma TwoNumberMessage(head: string, n: nat, mid: string, k: nat, tail: string, n': nat, k': nat)
    requires mid != [] && !IsDigit(mid[0]) && tail != [] && !IsDigit(tail[0])
    requires head + NatToString(n) + mid + NatToString(k) + tail
          == head + NatToString(n') + mid + NatToString(k') + tail
    ensures n == n' && k == k'
  {
    var x, x', y, y' := NatToString(n), NatToString(n'), NatToString(k), NatToString(k');
    var a, a' := mid + y + tail, mid + y' + tail;
    Associate(head + x, mid + y, tail);
    Associate(head + x, mid, y);
    Associate(head + x', mid + y', tail);
    Associate(head + x', mid, y');
    OneNumberMessage(head, n, a, n', a');
    OneNumberMessage(mid, k, tail, k', tail);
  }

  /** `needle` occurs in `hay` as a contiguous, case-sensitive substring. */
  ghost predicate IsSubstring(needle: string, hay: string) {
    exists i :: 0 <= i <= |hay| && needle <= hay[i..]
  }

  /** `hay.contains(needle)`: scan every start position for a prefix match. */
  function Contains(hay: string, needle: string): (b: bool)
    ensures b <==> IsSubstring(needle, hay)
    decreases |hay|
  {
    if needle <= hay then
      assert needle <= hay[0..];
      true
    else if hay == [] then
      false
    else
      SubstringOfTail(needle, hay);
      Contains(hay[1..], needle)
  }

  /** A needle that is not a prefix of `hay` occurs in `hay` exactly when it
      occurs in `hay` without its first character. */
  lemma SubstringOfTail(needle: string, hay: string)
    requires hay != [] && !(needle <= hay)
    ensures IsSubstring(needle, hay) <==> IsSubstring(needle, hay[1..])
  {
    if IsSubstring(needle, hay) {
      var i :| 0 <= i <= |hay| && needle <= hay[i..];
      assert i != 0;
      assert hay[1..][i - 1..] == hay[i..];
    }
    if IsSubstring(needle, hay[1..]) {
      var i :| 0 <= i <= |hay[1..]| && needle <= hay[1..][i..];
      assert hay[1..][i..] == hay[i + 1..];
    }
  }
}
