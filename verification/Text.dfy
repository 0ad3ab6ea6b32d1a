/** Characters, decimal integers and string escapes, as both wire formats use them
    (crates/propsim-history/src/edn.rs). Text is a sequence of characters. */
module Text {
  import opened Ops

  /** What is left of the input after something was read, or a parse error. */
  datatype Parsed<+T> = Got(value: T, rest: string) | Bad

  /** What comes next inside a string: its closing quote, a character, or an error. */
  datatype Piece = Close(rest: string) | Char(c: char, rest: string) | Broken

  /** `u8::is_ascii_whitespace`. */
  predicate IsAsciiSpace(c: char) {
    c == ' ' || c == '\t' || c == '\n' || c == '\r' || c == '\U{0C}'
  }

  predicate IsDigit(c: char) {
    '0' <= c <= '9'
  }

  lemma MoveFirst<T>(acc: seq<T>, more: seq<T>)
    requires more != []
    ensures (acc + [more[0]]) + more[1..] == acc + more
  {
  }

  lemma Regrouped(a: string, b: string, c: string)
    ensures a + (b + c) == (a + b) + c
  {
  }

  lemma AddOne<T>(acc: seq<T>, x: T, more: seq<T>)
    ensures (acc + [x]) + more == acc + ([x] + more)
  {
  }

  lemma Regroup4(a: string, b: string, c: string, after: string)
    ensures (a + b + c) + after == a + (b + (c + after))
  {
  }

  lemma Regroup5(a: string, a1: string, b: string, c: string, after: string)
    ensures a + (a1 + b + (c + after)) == (a + a1) + b + c + after
  {
  }

  lemma Rejoined(s: string, a: string, s1: string, b: string, rest: string)
    requires s == a + s1 && s1 == b + rest
    ensures s == a + b + rest
  {
  }

  /** One character on. */
  lemma Ahead(s: string, i: nat)
    requires i < |s|
    ensures s[i..] != "" && s[i..][0] == s[i] && s[i..][1..] == s[i + 1..]
  {
  }

  // ----- Integers -----

  function Digit(n: nat): char
    requires n < 10
  {
    '0' + n as char
  }

  function DigitValue(c: char): nat
    requires IsDigit(c)
  {
    (c - '0') as nat
  }

  function Decimal(n: nat): (s: string)
    ensures s != "" && forall i :: 0 <= i < |s| ==> IsDigit(s[i])
  {
    if n < 10 then [Digit(n)] else Decimal(n / 10) + [Digit(n % 10)]
  }

  /** `i64::to_string`. */
  function IntText(i: i64): string {
    var n: int := i;
    if n < 0 then "-" + Decimal(-n) else Decimal(n)
  }

  function DecimalValue(s: string): Option<nat> {
    if s == "" then Some(0)
    else
      var last := |s| - 1;
      match DecimalValue(s[..last])
      case None => None
      case Some(n) => if IsDigit(s[last]) then Some(10 * n + DigitValue(s[last])) else None
  }

  /** `str::parse::<i64>`: an optional sign, at least one digit, and no overflow. */
  function ParseI64(s: string): Option<i64> {
    var signed := s != "" && (s[0] == '-' || s[0] == '+');
    var digits := if signed then s[1..] else s;
    if digits == "" then None
    else
      match DecimalValue(digits)
      case None => None
      case Some(m) =>
        var n: int := m;
        if signed && s[0] == '-' then (if n <= TWO_63 then Some(-n) else None)
        else if n < TWO_63 then Some(n) else None
  }

  lemma {:induction false} DecimalReads(n: nat)
    ensures DecimalValue(Decimal(n)) == Some(n)
  {
    if n >= 10 {
      DecimalReads(n / 10);
      assert Decimal(n)[..|Decimal(n)| - 1] == Decimal(n / 10);
    } else {
      assert Decimal(n)[..0] == "";
    }
  }

  lemma IntReads(i: i64)
    ensures ParseI64(IntText(i)) == Some(i)
  {
    var n: int := i;
    if n < 0 {
      DecimalReads(-n);
      assert ("-" + Decimal(-n))[1..] == Decimal(-n);
    } else {
      DecimalReads(n);
      assert IsDigit(Decimal(i)[0]) && Decimal(i)[0] != '-' && Decimal(i)[0] != '+';
    }
  }

  // ----- Escapes -----

  function EscapeChar(c: char): string {
    if c == '\"' then "\\\""
    else if c == '\\' then "\\\\"
    else if c == '\n' then "\\n"
    else if c == '\r' then "\\r"
    else if c == '\t' then "\\t"
    else [c]
  }

  /** `push_escaped`. */
  function Escape(s: string): string {
    if s == "" then "" else EscapeChar(s[0]) + Escape(s[1..])
  }

  function Quoted(s: string): string {
    "\"" + Escape(s) + "\""
  }

  lemma {:induction false} EscapeHasNoBreak(s: string)
    ensures '\n' !in Escape(s) && '\r' !in Escape(s)
  {
    if s == "" {
    } else {
      EscapeHasNoBreak(s[1..]);
    }
  }

  lemma {:induction false} EscapeSnoc(s: string, c: char)
    ensures Escape(s + [c]) == Escape(s) + EscapeChar(c)
  {
    if s != "" {
      EscapeSnoc(s[1..], c);
      assert (s + [c])[1..] == s[1..] + [c];
    } else {
      assert ([c])[1..] == "";
    }
  }
}
