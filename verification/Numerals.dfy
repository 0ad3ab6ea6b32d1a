/** What digits mean, apart from how they are read: integers by place value, in decimal and in hexadecimal
    (`str::parse::<i64>` and `u32::from_str_radix`, as crates/propsim-history/src/edn.rs uses them). */
module Numerals {
  import opened Ops
  import opened Text
  import opened Json

  // ----- Place value -----

  datatype Base = Ten | Sixteen

  function Times(base: Base, n: nat): nat {
    match base
    case Ten => 10 * n
    case Sixteen => 16 * n
  }

  /** The digit `d` with `k` digits after it. */
  function Place(base: Base, d: nat, k: nat): nat {
    if k == 0 then d else Times(base, Place(base, d, k - 1))
  }

  /** `c` is the digit for `d`, in either case. */
  ghost predicate IsDigitOf(base: Base, c: char, d: nat) {
    d < Times(base, 1) && ("0123456789abcdef"[d] == c || "0123456789ABCDEF"[d] == c)
  }

  /** `n` is the sum of the digits times their places. */
  ghost predicate Denotes(base: Base, s: string, n: nat) {
    if s == "" then n == 0
    else exists d: nat, m: nat {:trigger IsDigitOf(base, s[0], d), Denotes(base, s[1..], m)} ::
      IsDigitOf(base, s[0], d) && Denotes(base, s[1..], m) && n == Place(base, d, |s| - 1) + m
  }

  lemma FirstPlace(base: Base, c: char, rest: string, d: nat, m: nat, n: nat)
    requires IsDigitOf(base, c, d) && Denotes(base, rest, m) && n == Place(base, d, |rest|) + m
    ensures Denotes(base, [c] + rest, n)
  {
    var s := [c] + rest;
    assert s[0] == c && s[1..] == rest;
  }

  lemma FirstDigit(base: Base, s: string, n: nat) returns (d: nat, m: nat)
    requires Denotes(base, s, n) && s != ""
    ensures IsDigitOf(base, s[0], d) && Denotes(base, s[1..], m) && n == Place(base, d, |s| - 1) + m
  {
    d, m :| IsDigitOf(base, s[0], d) && Denotes(base, s[1..], m) && n == Place(base, d, |s| - 1) + m;
  }

  /** Each digit moves up a place. */
  lemma Shifted(base: Base, c: char, rest: string, e: nat, k: nat, m: nat, n: nat, d: nat, m': nat, n': nat)
    requires IsDigitOf(base, c, e) && Denotes(base, rest, m') && |rest| == k + 1
    requires n == Place(base, e, k) + m && m' == Times(base, m) + d && n' == Times(base, n) + d
    ensures Denotes(base, [c] + rest, n')
  {
    FirstPlace(base, c, rest, e, m', n');
  }

  /** One more digit at the end. */
  lemma {:induction false} PlaceSnoc(base: Base, s: string, c: char, d: nat, n: nat, n': nat)
    requires Denotes(base, s, n) && IsDigitOf(base, c, d) && n' == Times(base, n) + d
    ensures Denotes(base, s + [c], n')
    decreases |s|
  {
    if s == "" {
      FirstPlace(base, c, "", d, 0, n');
      assert s + [c] == [c] + "";
    } else {
      var e, m := FirstDigit(base, s, n);
      var m' := Times(base, m) + d;
      PlaceSnoc(base, s[1..], c, d, m, m');
      Shifted(base, s[0], s[1..] + [c], e, |s| - 1, m, n, d, m', n');
      assert s + [c] == [s[0]] + (s[1..] + [c]);
    }
  }

  lemma DigitIsOnly(base: Base, c: char, d: nat, e: nat)
    requires IsDigitOf(base, c, d) && IsDigitOf(base, c, e)
    ensures d == e
  {
  }

  lemma {:induction false} PlaceValueIsOnly(base: Base, s: string, m: nat, n: nat)
    requires Denotes(base, s, m) && Denotes(base, s, n)
    ensures m == n
    decreases |s|
  {
    if s == "" {
    } else {
      var d: nat, k: nat :|
        IsDigitOf(base, s[0], d) && Denotes(base, s[1..], k) && m == Place(base, d, |s| - 1) + k;
      var e: nat, l: nat :|
        IsDigitOf(base, s[0], e) && Denotes(base, s[1..], l) && n == Place(base, e, |s| - 1) + l;
      DigitIsOnly(base, s[0], d, e);
      PlaceValueIsOnly(base, s[1..], k, l);
    }
  }

  ghost predicate IsDigitIn(base: Base, c: char) {
    exists d: nat :: IsDigitOf(base, c, d)
  }

  ghost predicate HasDigits(base: Base, s: string) {
    forall i :: 0 <= i < |s| ==> IsDigitIn(base, s[i])
  }

  lemma {:induction false} DenotesDigits(base: Base, s: string, n: nat)
    requires Denotes(base, s, n)
    ensures HasDigits(base, s)
    decreases |s|
  {
    if s == "" {
    } else {
      var d: nat, m: nat :|
        IsDigitOf(base, s[0], d) && Denotes(base, s[1..], m) && n == Place(base, d, |s| - 1) + m;
      DenotesDigits(base, s[1..], m);
      assert IsDigitIn(base, s[0]);
    }
  }

  // ----- Decimal -----

  /** A decimal integer of 64 bits: digits, perhaps after a sign. */
  ghost predicate IsNumeral(s: string, i: int) {
    && s != ""
    && -0x8000_0000_0000_0000 <= i < 0x8000_0000_0000_0000
    && if s[0] == '-' then s[1..] != "" && i <= 0 && Denotes(Ten, s[1..], -i)
       else if s[0] == '+' then s[1..] != "" && i >= 0 && Denotes(Ten, s[1..], i)
       else i >= 0 && Denotes(Ten, s, i)
  }

  lemma DigitsAre(c: char)
    ensures IsDigit(c) ==> IsDigitOf(Ten, c, DigitValue(c))
    ensures IsDigitIn(Ten, c) ==> IsDigit(c)
  {
  }

  lemma {:induction false} ValueIsPlaceValue(s: string)
    ensures DecimalValue(s).Some? ==> Denotes(Ten, s, DecimalValue(s).value)
    ensures DecimalValue(s).Some? <==> HasDigits(Ten, s)
    decreases |s|
  {
    if s == "" {
    } else {
      var init, c := s[..|s| - 1], s[|s| - 1];
      ValueIsPlaceValue(init);
      assert s == init + [c];
      DigitsAre(c);
      assert HasDigits(Ten, s) ==> HasDigits(Ten, init);
      if DecimalValue(s).Some? {
        PlaceSnoc(Ten, init, c, DigitValue(c), DecimalValue(init).value, DecimalValue(s).value);
        DenotesDigits(Ten, s, DecimalValue(s).value);
      }
    }
  }

  lemma DecimalIs(s: string, n: nat)
    ensures DecimalValue(s) == Some(n) <==> Denotes(Ten, s, n)
  {
    ValueIsPlaceValue(s);
    if Denotes(Ten, s, n) {
      DenotesDigits(Ten, s, n);
      PlaceValueIsOnly(Ten, s, n, DecimalValue(s).value);
    }
  }

  /** What parses as an integer, and as which: exactly the numerals. */
  lemma IntegersAreNumerals(s: string, i: i64)
    ensures ParseI64(s) == Some(i) <==> IsNumeral(s, i)
  {
    var signed := s != "" && (s[0] == '-' || s[0] == '+');
    var digits := if signed then s[1..] else s;
    var n: int := i;
    if n >= 0 {
      DecimalIs(digits, n);
    }
    if n <= 0 {
      DecimalIs(digits, -n);
    }
  }

  lemma NumeralChars(s: string, i: int)
    requires IsNumeral(s, i)
    ensures forall k :: 0 <= k < |s| ==> IsDigit(s[k]) || (k == 0 && (s[k] == '-' || s[k] == '+'))
  {
    var signed := s[0] == '-' || s[0] == '+';
    var digits := if signed then s[1..] else s;
    DenotesDigits(Ten, digits, if s[0] == '-' then -i else i);
    forall k | 0 <= k < |s| ensures IsDigit(s[k]) || (k == 0 && signed) {
      DigitsAre(s[k]);
      assert signed && k > 0 ==> s[k] == digits[k - 1];
    }
  }

  lemma {:induction false} NoLeadingZero(n: nat)
    ensures n > 0 ==> Decimal(n)[0] != '0'
  {
    if n >= 10 {
      NoLeadingZero(n / 10);
      assert Decimal(n)[0] == Decimal(n / 10)[0];
    }
  }

  /** What is printed for an integer is its shortest numeral: no plus, and no zero in front. */
  lemma PrintedShortest(i: i64)
    ensures var s := IntText(i);
            && IsNumeral(s, i) && s[0] != '+'
            && (s[0] == '0' ==> s == "0") && (s[0] == '-' ==> |s| > 1 && s[1] != '0')
  {
    IntReads(i);
    IntegersAreNumerals(IntText(i), i);
    var n: int := i;
    if n < 0 {
      NoLeadingZero(-n);
    } else {
      NoLeadingZero(n);
    }
  }

  // ----- Hexadecimal -----

  lemma HexDigitIs(c: char)
    ensures HexValue(c).Some? ==> IsDigitOf(Sixteen, c, HexValue(c).value)
    ensures IsDigitIn(Sixteen, c) ==> HexValue(c).Some?
  {
  }

  lemma {:induction false} HexIsPlaceValue(s: string)
    ensures HexDigits(s).Some? ==> Denotes(Sixteen, s, HexDigits(s).value)
    ensures HexDigits(s).Some? <==> HasDigits(Sixteen, s)
    decreases |s|
  {
    if s == "" {
    } else {
      var init, c := s[..|s| - 1], s[|s| - 1];
      HexIsPlaceValue(init);
      assert s == init + [c];
      HexDigitIs(c);
      assert HasDigits(Sixteen, s) ==> HasDigits(Sixteen, init);
      if HexDigits(s).Some? {
        PlaceSnoc(Sixteen, init, c, HexValue(c).value, HexDigits(init).value, HexDigits(s).value);
        DenotesDigits(Sixteen, s, HexDigits(s).value);
      }
    }
  }

  /** The four characters stand for the character of that code: hexadecimal digits of either case, the first of
      them perhaps a plus, for anything but a surrogate. */
  ghost predicate IsCodeOf(h: string, c: char) {
    |h| == 4 && exists n: nat ::
      (if h[0] == '+' then Denotes(Sixteen, h[1..], n) else Denotes(Sixteen, h, n))
      && (n < 0xD800 || 0xE000 <= n < 0x11_0000) && c == n as char
  }

  /** What a `\u` escape makes of its four characters: exactly the character they stand for. */
  lemma EscapesAreCodes(h: string, c: char)
    requires |h| == 4
    ensures UnicodeEscape(h) == Some(c) <==> IsCodeOf(h, c)
  {
    var digits := if h[0] == '+' then h[1..] else h;
    HexIsPlaceValue(digits);
    if n: nat :| Denotes(Sixteen, digits, n) && (n < 0xD800 || 0xE000 <= n < 0x11_0000) && c == n as char {
      DenotesDigits(Sixteen, digits, n);
      PlaceValueIsOnly(Sixteen, digits, n, HexDigits(digits).value);
    }
  }
}
