/** The EDN wire format: what is written, what is read, and that reading undoes writing for exactly
    the values whose keywords can be told from their surroundings
    (crates/propsim-history/src/edn.rs). */
module Edn {
  import opened Ops
  import opened Text

  // ----- Writing -----

  function PairsText(pairs: seq<(Value, Value)>): string
    decreases pairs
  {
    if pairs == [] then ""
    else if |pairs| == 1 then PairText(pairs[0])
    else PairText(pairs[0]) + ", " + PairsText(pairs[1..])
  }

  function ItemsText(items: seq<Value>): string
    decreases items
  {
    if items == [] then ""
    else if |items| == 1 then EdnText(items[0])
    else EdnText(items[0]) + " " + ItemsText(items[1..])
  }

  function EdnText(v: Value): (s: string)
    decreases v
  {
    match v
    case Nil => "nil"
    case Bool(b) => if b then "true" else "false"
    case Int(i) => IntText(i)
    case Str(s) => Quoted(s)
    case Keyword(k) => ":" + k
    case List(items) => "[" + ItemsText(items) + "]"
    case Map(pairs) => "{" + PairsText(pairs) + "}"
  }

  function PairText(p: (Value, Value)): string
    decreases p, 1
  {
    EdnText(p.0) + " " + EdnText(p.1)
  }

  // ----- Reading -----

  predicate IsDelim(c: char) {
    IsAsciiSpace(c) || c in ",{}[]()\";"
  }

  function SkipLine(s: string): (r: string)
    ensures |r| <= |s|
  {
    if s == "" then "" else if s[0] == '\n' then s[1..] else SkipLine(s[1..])
  }

  /** Commas are whitespace, and `;` starts a comment. */
  function SkipWs(s: string): (r: string)
    ensures |r| <= |s|
    decreases |s|
  {
    if s == "" then ""
    else if IsAsciiSpace(s[0]) || s[0] == ',' then SkipWs(s[1..])
    else if s[0] == ';' then SkipWs(SkipLine(s[1..]))
    else s
  }

  /** The longest prefix without a delimiter. */
  function Token(s: string): (t: string)
    ensures t <= s
    ensures forall i :: 0 <= i < |t| ==> !IsDelim(t[i])
  {
    if s == "" || IsDelim(s[0]) then "" else [s[0]] + Token(s[1..])
  }

  /** What a backslash makes of the character after it. One it has no special meaning for stands for
      itself. */
  function ReadEscape(s: string): (r: Parsed<char>)
    ensures r.Got? ==> |r.rest| < |s|
  {
    if s == "" || s[0] >= '\U{80}' then Bad
    else
      var c := match s[0] case 'n' => '\n' case 'r' => '\r' case 't' => '\t' case other => other;
      Got(c, s[1..])
  }

  function ReadPiece(s: string): (r: Piece)
    ensures !r.Broken? ==> |r.rest| < |s|
  {
    if s == "" then Broken
    else if s[0] == '\"' then Close(s[1..])
    else if s[0] == '\\' then
      match ReadEscape(s[1..])
      case Got(c, rest) => Char(c, rest)
      case Bad => Broken
    else Char(s[0], s[1..])
  }

  /** A string body after its opening quote. */
  function ReadString(s: string, acc: string): (r: Parsed<string>)
    ensures r.Got? ==> |r.rest| < |s|
    decreases |s|
  {
    match ReadPiece(s)
    case Close(rest) => Got(acc, rest)
    case Char(c, rest) => ReadString(rest, acc + [c])
    case Broken => Bad
  }

  function ReadKeyword(s: string): (r: Parsed<Value>)
    ensures r.Got? ==> |r.rest| < |s|
  {
    var t := Token(s);
    if t == "" then Bad else Got(Keyword(t), s[|t|..])
  }

  function ReadAtom(s: string): (r: Parsed<Value>)
    ensures r.Got? ==> |r.rest| < |s|
  {
    var t := Token(s);
    var rest := s[|t|..];
    if t == "nil" then Got(Nil, rest)
    else if t == "true" then Got(Bool(true), rest)
    else if t == "false" then Got(Bool(false), rest)
    else
      match ParseI64(t)
      case Some(i) => Got(Int(i), rest)
      case None => Bad
  }

  function ReadItems(s: string, close: char, acc: seq<Value>): (r: Parsed<Value>)
    ensures r.Got? ==> |r.rest| < |s|
    decreases |s|, 1
  {
    var s1 := SkipWs(s);
    if s1 == "" then Bad
    else if s1[0] == close then Got(List(acc), s1[1..])
    else
      match ReadValue(s1)
      case Got(v, rest) => ReadItems(rest, close, acc + [v])
      case Bad => Bad
  }

  function ReadValue(s: string): (r: Parsed<Value>)
    ensures r.Got? ==> |r.rest| < |s|
    decreases |s|, 0
  {
    var s1 := SkipWs(s);
    if s1 == "" then Bad
    else if s1[0] == '{' then ReadPairs(s1[1..], [])
    else if s1[0] == '[' then ReadItems(s1[1..], ']', [])
    else if s1[0] == '(' then ReadItems(s1[1..], ')', [])
    else if s1[0] == '\"' then
      match ReadString(s1[1..], "")
      case Got(t, rest) => Got(Str(t), rest)
      case Bad => Bad
    else if s1[0] == ':' then ReadKeyword(s1[1..])
    else ReadAtom(s1)
  }

  function ReadPairs(s: string, acc: seq<(Value, Value)>): (r: Parsed<Value>)
    ensures r.Got? ==> |r.rest| < |s|
    decreases |s|, 1
  {
    var s1 := SkipWs(s);
    if s1 == "" then Bad
    else if s1[0] == '}' then Got(Map(acc), s1[1..])
    else
      match ReadValue(s1)
      case Bad => Bad
      case Got(k, rest) =>
        match ReadValue(rest)
        case Got(v, rest') => ReadPairs(rest', acc + [(k, v)])
        case Bad => Bad
  }

  /** `parse_edn`: one value and nothing after it. */
  function ParseEdn(s: string): Option<Value> {
    match ReadValue(SkipWs(s))
    case Got(v, rest) => if SkipWs(rest) == "" then Some(v) else None
    case Bad => None
  }

  // ----- Which values survive -----

  /** A keyword name that ends where it is meant to. */
  predicate IsKeywordName(k: string) {
    k != "" && forall i :: 0 <= i < |k| ==> !IsDelim(k[i])
  }

  predicate Printable(v: Value) {
    match v
    case Keyword(k) => IsKeywordName(k)
    case List(items) => forall i :: 0 <= i < |items| ==> Printable(items[i])
    case Map(pairs) => forall i :: 0 <= i < |pairs| ==> Printable(pairs[i].0) && Printable(pairs[i].1)
    case _ => true
  }

  // ----- Reading undoes writing -----

  /** Nothing that follows can be taken for part of an atom. */
  predicate Ends(rest: string) {
    rest == "" || IsDelim(rest[0])
  }

  /** A character a printed value can start with. */
  predicate Starts(c: char) {
    !IsAsciiSpace(c) && c !in ",;])}"
  }

  lemma NotDelim(c: char)
    requires IsDigit(c) || c == '-'
    ensures !IsDelim(c)
  {
  }

  lemma IntChars(i: i64)
    ensures IntText(i) != "" && (IntText(i)[0] == '-' || IsDigit(IntText(i)[0]))
    ensures forall k :: 0 <= k < |IntText(i)| ==> !IsDelim(IntText(i)[k])
  {
    var t, n: int := IntText(i), i;
    forall k | 0 <= k < |t| ensures !IsDelim(t[k]) {
      assert IsDigit(t[k]) || t[k] == '-' by {
        if n < 0 && k > 0 {
          assert t[k] == Decimal(-n)[k - 1];
        }
      }
      NotDelim(t[k]);
    }
  }

  lemma TextStarts(v: Value)
    ensures EdnText(v) != "" && Starts(EdnText(v)[0])
    ensures v.Nil? || v.Bool? || v.Int? ==> EdnText(v)[0] !in "{[(\":"
  {
    if v.Int? {
      IntChars(v.i);
    }
  }

  lemma SkipNothing(s: string)
    requires s != "" && Starts(s[0])
    ensures SkipWs(s) == s
  {
  }

  lemma {:induction false} TokenIs(t: string, rest: string)
    requires forall i :: 0 <= i < |t| ==> !IsDelim(t[i])
    requires Ends(rest)
    ensures Token(t + rest) == t && (t + rest)[|t|..] == rest
  {
    if t == "" {
      assert t + rest == rest;
    } else {
      assert (t + rest)[1..] == t[1..] + rest;
      TokenIs(t[1..], rest);
    }
  }

  /** One escaped character read back. */
  lemma EscapeReads(c: char, tail: string, acc: string)
    ensures ReadString(EscapeChar(c) + tail, acc) == ReadString(tail, acc + [c])
  {
    var e := EscapeChar(c);
    assert (e + tail)[0] == e[0];
    if |e| == 2 {
      assert (e + tail)[1..] == [e[1]] + tail;
      assert ([e[1]] + tail)[1..] == tail;
    } else {
      assert (e + tail)[1..] == tail;
    }
  }

  lemma {:induction false} StringReads(s: string, rest: string, acc: string)
    ensures ReadString(Escape(s) + ("\"" + rest), acc) == Got(acc + s, rest)
    decreases |s|
  {
    if s == "" {
      assert Escape(s) + ("\"" + rest) == "\"" + rest;
      assert ("\"" + rest)[0] == '\"' && ("\"" + rest)[1..] == rest;
      assert acc + s == acc;
    } else {
      var tail := Escape(s[1..]) + ("\"" + rest);
      assert Escape(s) + ("\"" + rest) == EscapeChar(s[0]) + tail;
      EscapeReads(s[0], tail, acc);
      StringReads(s[1..], rest, acc + [s[0]]);
      MoveFirst(acc, s);
    }
  }

  lemma AtomReads(v: Value, rest: string)
    requires v.Nil? || v.Bool? || v.Int?
    requires Ends(rest)
    ensures ReadAtom(EdnText(v) + rest) == Got(v, rest)
  {
    if v.Int? {
      IntChars(v.i);
      IntReads(v.i);
    }
    TokenIs(EdnText(v), rest);
  }

  /** What is read next is decided by the first character. */
  lemma ByHead(s: string)
    requires s != "" && Starts(s[0])
    ensures s[0] == '{' ==> ReadValue(s) == ReadPairs(s[1..], [])
    ensures s[0] == '[' ==> ReadValue(s) == ReadItems(s[1..], ']', [])
    ensures s[0] == '\"' && ReadString(s[1..], "").Got? ==>
              ReadValue(s) == Got(Str(ReadString(s[1..], "").value), ReadString(s[1..], "").rest)
    ensures s[0] == ':' ==> ReadValue(s) == ReadKeyword(s[1..])
    ensures s[0] !in "{[(\":" ==> ReadValue(s) == ReadAtom(s)
  {
  }

  lemma KeywordReads(k: string, rest: string)
    requires IsKeywordName(k) && Ends(rest)
    ensures ReadKeyword((":" + k + rest)[1..]) == Got(Keyword(k), rest)
  {
    assert (":" + k + rest)[1..] == k + rest;
    TokenIs(k, rest);
  }

  lemma PairsEnd(rest: string, acc: seq<(Value, Value)>)
    ensures ReadPairs("}" + rest, acc) == Got(Map(acc), rest)
  {
    assert ("}" + rest)[1..] == rest;
  }

  lemma Unwrap(left: char, body: string, right: string, rest: string)
    ensures ([left] + body + right + rest)[1..] == body + (right + rest)
  {
  }

  /** The text from the end of an item on. */
  function ItemsTail(more: seq<Value>, last: string): string {
    if more == [] then last else " " + (ItemsText(more) + last)
  }

  lemma Regroup(a: string, b: string, c: string, d: string)
    ensures a + b + c + d == a + (b + (c + d))
  {
  }

  lemma ItemsSplit(items: seq<Value>, last: string)
    requires items != []
    ensures ItemsText(items) + last == EdnText(items[0]) + ItemsTail(items[1..], last)
    ensures items[1..] == [] ==> ItemsText(items[1..]) + last == last
  {
    if |items| > 1 {
      Regroup(EdnText(items[0]), " ", ItemsText(items[1..]), last);
    }
  }

  /** A separator before an item makes no difference. */
  lemma LeadingSpace(s: string)
    ensures SkipWs(" " + s) == SkipWs(s)
    ensures SkipWs(", " + s) == SkipWs(s)
  {
    assert (" " + s)[1..] == s;
    assert (", " + s)[1..] == " " + s;
  }

  lemma ItemsStep(v: Value, tail: string, next: string, acc: seq<Value>)
    requires ReadValue(EdnText(v) + tail) == Got(v, tail)
    requires tail == next || tail == " " + next
    ensures ReadItems(EdnText(v) + tail, ']', acc) == ReadItems(next, ']', acc + [v])
  {
    TextStarts(v);
    SkipNothing(EdnText(v) + tail);
    LeadingSpace(next);
  }

  /** The text from the end of a pair on. */
  function PairsTail(more: seq<(Value, Value)>, last: string): string {
    if more == [] then last else ", " + (PairsText(more) + last)
  }

  lemma PairsSplit(pairs: seq<(Value, Value)>, last: string)
    requires pairs != []
    ensures var p := pairs[0];
            PairsText(pairs) + last == EdnText(p.0) + (" " + (EdnText(p.1) + PairsTail(pairs[1..], last)))
    ensures pairs[1..] == [] ==> PairsText(pairs[1..]) + last == last
  {
    var p := pairs[0];
    if |pairs| > 1 {
      Regroup(PairText(p), ", ", PairsText(pairs[1..]), last);
    }
    Regroup(EdnText(p.0), " ", EdnText(p.1), PairsTail(pairs[1..], last));
  }

  /** Values are read past the whitespace before them. */
  lemma SpacedReads(s: string)
    ensures ReadValue(" " + s) == ReadValue(s)
  {
    LeadingSpace(s);
  }

  lemma PairsStep(p: (Value, Value), tail: string, next: string, acc: seq<(Value, Value)>)
    requires var second := " " + (EdnText(p.1) + tail);
             ReadValue(EdnText(p.0) + second) == Got(p.0, second)
    requires ReadValue(EdnText(p.1) + tail) == Got(p.1, tail)
    requires tail == next || tail == ", " + next
    ensures ReadPairs(EdnText(p.0) + (" " + (EdnText(p.1) + tail)), acc) == ReadPairs(next, acc + [p])
  {
    var second := " " + (EdnText(p.1) + tail);
    TextStarts(p.0);
    SkipNothing(EdnText(p.0) + second);
    SpacedReads(EdnText(p.1) + tail);
    LeadingSpace(next);
  }

  /** Printed pairs are read through, whatever delimiter follows them. */
  lemma {:induction false} PairsRead(pairs: seq<(Value, Value)>, last: string, acc: seq<(Value, Value)>)
    requires forall i :: 0 <= i < |pairs| ==> Printable(pairs[i].0) && Printable(pairs[i].1)
    requires Ends(last)
    ensures ReadPairs(PairsText(pairs) + last, acc) == ReadPairs(last, acc + pairs)
    decreases pairs
  {
    if pairs == [] {
      assert PairsText(pairs) + last == last;
      assert acc + pairs == acc;
    } else {
      var p, more := pairs[0], pairs[1..];
      var tail := PairsTail(more, last);
      var second := " " + (EdnText(p.1) + tail);
      PairsSplit(pairs, last);
      PairReads(p, second, tail);
      PairsRead(more, last, acc + [p]);
      PairsStep(p, tail, PairsText(more) + last, acc);
      MoveFirst(acc, pairs);
    }
  }

  lemma {:induction false} ItemsRead(items: seq<Value>, rest: string, acc: seq<Value>)
    requires forall i :: 0 <= i < |items| ==> Printable(items[i])
    ensures ReadItems(ItemsText(items) + ("]" + rest), ']', acc) == Got(List(acc + items), rest)
    decreases items
  {
    var last := "]" + rest;
    if items == [] {
      assert ItemsText(items) + last == last && last[1..] == rest;
      assert acc + items == acc;
    } else {
      var more := items[1..];
      var tail := ItemsTail(more, last);
      ItemsSplit(items, last);
      ValueReads(items[0], tail);
      ItemsRead(more, rest, acc + [items[0]]);
      ItemsStep(items[0], tail, ItemsText(more) + last, acc);
      MoveFirst(acc, items);
    }
  }

  /** Reading what was written, followed by anything that ends it, yields the value and leaves
      what follows: at any depth, for every string and integer. */
  lemma {:induction false} ValueReads(v: Value, rest: string)
    requires Printable(v) && Ends(rest)
    ensures ReadValue(EdnText(v) + rest) == Got(v, rest)
    decreases v
  {
    var s := EdnText(v) + rest;
    TextStarts(v);
    assert s[0] == EdnText(v)[0];
    ByHead(s);
    match v
    case Str(t) =>
      Unwrap('\"', Escape(t), "\"", rest);
      StringReads(t, rest, "");
      assert "" + t == t;
    case Keyword(k) => KeywordReads(k, rest);
    case List(items) =>
      Unwrap('[', ItemsText(items), "]", rest);
      ItemsRead(items, rest, []);
      assert [] + items == items;
    case Map(pairs) =>
      Unwrap('{', PairsText(pairs), "}", rest);
      PairsRead(pairs, "}" + rest, []);
      assert [] + pairs == pairs;
      PairsEnd(rest, pairs);
    case _ =>
      AtomReads(v, rest);
  }

  lemma PairReads(p: (Value, Value), second: string, tail: string)
    requires Printable(p.0) && Printable(p.1) && Ends(second) && Ends(tail)
    ensures ReadValue(EdnText(p.0) + second) == Got(p.0, second)
    ensures ReadValue(EdnText(p.1) + tail) == Got(p.1, tail)
    decreases p
  {
    ValueReads(p.0, second);
    ValueReads(p.1, tail);
  }

  // ----- Whatever is read can be written -----

  lemma {:induction false} ItemsArePrintable(s: string, close: char, acc: seq<Value>)
    requires forall i :: 0 <= i < |acc| ==> Printable(acc[i])
    ensures ReadItems(s, close, acc).Got? ==> Printable(ReadItems(s, close, acc).value)
    decreases |s|, 1
  {
    var s1 := SkipWs(s);
    if s1 == "" || s1[0] == close {
    } else {
      ReadIsPrintable(s1);
      var r := ReadValue(s1);
      if r.Got? {
        ItemsArePrintable(r.rest, close, acc + [r.value]);
      }
    }
  }

  lemma {:induction false} ReadIsPrintable(s: string)
    ensures ReadValue(s).Got? ==> Printable(ReadValue(s).value)
    decreases |s|, 0
  {
    var s1 := SkipWs(s);
    if s1 == "" {
    } else {
      if s1[0] == '{' {
        PairsArePrintable(s1[1..], []);
      } else if s1[0] == '[' {
        ItemsArePrintable(s1[1..], ']', []);
      } else if s1[0] == '(' {
        ItemsArePrintable(s1[1..], ')', []);
      }
    }
  }

  lemma {:induction false} PairsArePrintable(s: string, acc: seq<(Value, Value)>)
    requires forall i :: 0 <= i < |acc| ==> Printable(acc[i].0) && Printable(acc[i].1)
    ensures ReadPairs(s, acc).Got? ==> Printable(ReadPairs(s, acc).value)
    decreases |s|, 1
  {
    var s1 := SkipWs(s);
    if s1 == "" || s1[0] == '}' {
    } else {
      ReadIsPrintable(s1);
      var k := ReadValue(s1);
      if k.Got? {
        ReadIsPrintable(k.rest);
        var v := ReadValue(k.rest);
        if v.Got? {
          PairsArePrintable(v.rest, acc + [(k.value, v.value)]);
        }
      }
    }
  }

  /** The round trip holds exactly for the printable values. */
  lemma EdnRoundTrip(v: Value)
    ensures ParseEdn(EdnText(v)) == Some(v) <==> Printable(v)
  {
    if Printable(v) {
      TextStarts(v);
      SkipNothing(EdnText(v));
      ValueReads(v, "");
      assert EdnText(v) + "" == EdnText(v);
    }
    ReadIsPrintable(SkipWs(EdnText(v)));
  }

  /** Reading, printing and reading again is reading once. */
  lemma ReadPrintRead(s: string)
    requires ParseEdn(s).Some?
    ensures ParseEdn(EdnText(ParseEdn(s).value)) == ParseEdn(s)
  {
    ReadIsPrintable(SkipWs(s));
    EdnRoundTrip(ParseEdn(s).value);
  }
}
