/** The JSON wire format. JSON has no keywords and only string keys, so writing forgets something;
    what is read back is known for every value, and is the value itself exactly when no string could
    be taken for a keyword and no key is anything but a string or a keyword
    (crates/propsim-history/src/edn.rs). */
module Json {
  import opened Ops
  import opened Text
  import opened Edn

  // ----- Writing -----

  /** `write_json_key`: whatever the key is, it comes out between quotes. */
  function KeyText(k: Value): string {
    match k
    case Str(s) => Quoted(s)
    case Keyword(kw) => "\":" + Escape(kw) + "\""
    case Int(i) => "\"" + IntText(i) + "\""
    case other => Quoted(EdnText(other))
  }

  function MembersText(pairs: seq<(Value, Value)>): string
    decreases pairs
  {
    if pairs == [] then ""
    else if |pairs| == 1 then MemberText(pairs[0])
    else MemberText(pairs[0]) + "," + MembersText(pairs[1..])
  }

  function ElementsText(items: seq<Value>): string
    decreases items
  {
    if items == [] then ""
    else if |items| == 1 then JsonText(items[0])
    else JsonText(items[0]) + "," + ElementsText(items[1..])
  }

  function JsonText(v: Value): (s: string)
    decreases v
  {
    match v
    case Nil => "null"
    case Bool(b) => if b then "true" else "false"
    case Int(i) => IntText(i)
    case Str(s) => Quoted(s)
    case Keyword(k) => "\":" + Escape(k) + "\""
    case List(items) => "[" + ElementsText(items) + "]"
    case Map(pairs) => "{" + MembersText(pairs) + "}"
  }

  function MemberText(p: (Value, Value)): string
    decreases p, 1
  {
    KeyText(p.0) + ":" + JsonText(p.1)
  }

  // ----- Reading -----

  function SkipSpace(s: string): (r: string)
    ensures |r| <= |s|
  {
    if s != "" && IsAsciiSpace(s[0]) then SkipSpace(s[1..]) else s
  }

  /** `str_to_value` */
  function StrToValue(s: string): (v: Value)
  {
    if s != "" && s[0] == ':' then Keyword(s[1..]) else Str(s)
  }

  function HexValue(c: char): Option<nat> {
    if '0' <= c <= '9' then Some((c - '0') as nat)
    else if 'a' <= c <= 'f' then Some((c - 'a') as nat + 10)
    else if 'A' <= c <= 'F' then Some((c - 'A') as nat + 10)
    else None
  }

  function HexDigits(s: string): Option<nat> {
    if s == "" then Some(0)
    else
      var last := |s| - 1;
      match (HexDigits(s[..last]), HexValue(s[last]))
      case (Some(n), Some(d)) => Some(16 * n + d)
      case _ => None
  }

  /** The four characters after `\u`, read as `u32::from_str_radix` reads them: a leading plus is
      allowed. Surrogates are no characters. */
  function UnicodeEscape(s: string): Option<char>
    requires |s| == 4
  {
    match HexDigits(if s[0] == '+' then s[1..] else s)
    case Some(n) => if n < 0xD800 || 0xE000 <= n < 0x11_0000 then Some(n as char) else None
    case None => None
  }

  /** What a backslash makes of the characters after it. */
  function ReadJsonEscape(s: string): (r: Parsed<char>)
    ensures r.Got? ==> |r.rest| < |s|
  {
    if s == "" || s[0] >= '\U{80}' then Bad
    else if s[0] == 'u' then
      if |s| < 5 then Bad
      else
        match UnicodeEscape(s[1..5])
        case Some(c) => Got(c, s[5..])
        case None => Bad
    else
      var c := match s[0] case 'n' => '\n' case 'r' => '\r' case 't' => '\t' case other => other;
      Got(c, s[1..])
  }

  function ReadJsonPiece(s: string): (r: Piece)
    ensures !r.Broken? ==> |r.rest| < |s|
  {
    if s == "" then Broken
    else if s[0] == '\"' then Close(s[1..])
    else if s[0] == '\\' then
      match ReadJsonEscape(s[1..])
      case Got(c, rest) => Char(c, rest)
      case Bad => Broken
    else Char(s[0], s[1..])
  }

  function ReadJsonString(s: string, acc: string): (r: Parsed<string>)
    ensures r.Got? ==> |r.rest| < |s|
    decreases |s|
  {
    match ReadJsonPiece(s)
    case Close(rest) => Got(acc, rest)
    case Char(c, rest) => ReadJsonString(rest, acc + [c])
    case Broken => Bad
  }

  function ReadLiteral(s: string): (r: Parsed<Value>)
    ensures r.Got? ==> |r.rest| < |s|
  {
    if "true" <= s then Got(Bool(true), s[4..])
    else if "false" <= s then Got(Bool(false), s[5..])
    else if "null" <= s then Got(Nil, s[4..])
    else Bad
  }

  predicate IsNumberChar(c: char) {
    IsDigit(c) || c in "-+.eE"
  }

  function NumberToken(s: string): (t: string)
    ensures t <= s
  {
    if s == "" || !IsNumberChar(s[0]) then "" else [s[0]] + NumberToken(s[1..])
  }

  function ReadNumber(s: string): (r: Parsed<Value>)
    ensures r.Got? ==> |r.rest| < |s|
  {
    var t := NumberToken(s);
    match ParseI64(t)
    case Some(i) => Got(Int(i), s[|t|..])
    case None => Bad
  }

  /** A quoted key and a colon. */
  function ReadKey(s: string): (r: Parsed<string>)
    requires s != ""
    ensures r.Got? ==> |r.rest| < |s| - 1
  {
    match ReadJsonString(s[1..], "")
    case Bad => Bad
    case Got(k, rest) =>
      var colon := SkipSpace(rest);
      if colon != "" && colon[0] == ':' then Got(k, colon[1..]) else Bad
  }

  function ReadMembers(s: string, acc: seq<(Value, Value)>): (r: Parsed<Value>)
    ensures r.Got? ==> |r.rest| < |s|
    decreases |s|, 1
  {
    var s1 := SkipSpace(s);
    if s1 == "" then Bad
    else if s1[0] == '}' then Got(Map(acc), s1[1..])
    else if s1[0] == ',' then ReadMembers(s1[1..], acc)
    else if s1[0] == '\"' then
      match ReadMember(s1)
      case Got(p, rest) => ReadMembers(rest, acc + [p])
      case Bad => Bad
    else Bad
  }

  /** Elements after the opening bracket. Commas may be missing or repeated. */
  function ReadElements(s: string, acc: seq<Value>): (r: Parsed<Value>)
    ensures r.Got? ==> |r.rest| < |s|
    decreases |s|, 1
  {
    var s1 := SkipSpace(s);
    if s1 == "" then Bad
    else if s1[0] == ']' then Got(List(acc), s1[1..])
    else if s1[0] == ',' then ReadElements(s1[1..], acc)
    else
      match ReadJson(s1)
      case Got(v, rest) => ReadElements(rest, acc + [v])
      case Bad => Bad
  }

  function ReadJson(s: string): (r: Parsed<Value>)
    ensures r.Got? ==> |r.rest| < |s|
    decreases |s|, 0
  {
    var s1 := SkipSpace(s);
    if s1 == "" then Bad
    else if s1[0] == '{' then ReadMembers(s1[1..], [])
    else if s1[0] == '[' then ReadElements(s1[1..], [])
    else if s1[0] == '\"' then
      match ReadJsonString(s1[1..], "")
      case Got(t, rest) => Got(StrToValue(t), rest)
      case Bad => Bad
    else if s1[0] in "tfn" then ReadLiteral(s1)
    else ReadNumber(s1)
  }

  function ReadMember(s: string): (r: Parsed<(Value, Value)>)
    requires s != ""
    ensures r.Got? ==> |r.rest| < |s|
    decreases |s|, 0
  {
    match ReadKey(s)
    case Bad => Bad
    case Got(k, rest) =>
      match ReadJson(rest)
      case Got(v, rest') => Got((StrToValue(k), v), rest')
      case Bad => Bad
  }

  /** `parse_json`: one value and nothing after it. */
  function ParseJson(s: string): Option<Value> {
    match ReadJson(SkipSpace(s))
    case Got(v, rest) => if SkipSpace(rest) == "" then Some(v) else None
    case Bad => None
  }

  // ----- What writing forgets -----

  /** The string a key is written as. */
  function KeyString(k: Value): string {
    match k
    case Str(s) => s
    case Keyword(kw) => ":" + kw
    case Int(i) => IntText(i)
    case other => EdnText(other)
  }

  function SeenPairs(pairs: seq<(Value, Value)>): (r: seq<(Value, Value)>)
    ensures |r| == |pairs| && forall i :: 0 <= i < |r| ==> r[i] == SeenPair(pairs[i])
    decreases pairs
  {
    if pairs == [] then [] else [SeenPair(pairs[0])] + SeenPairs(pairs[1..])
  }

  function SeenItems(items: seq<Value>): (r: seq<Value>)
    ensures |r| == |items| && forall i :: 0 <= i < |r| ==> r[i] == Seen(items[i])
    decreases items
  {
    if items == [] then [] else [Seen(items[0])] + SeenItems(items[1..])
  }

  /** The value as a JSON reader sees it. */
  function Seen(v: Value): (r: Value)
    decreases v
  {
    match v
    case Str(s) => StrToValue(s)
    case List(items) => List(SeenItems(items))
    case Map(pairs) => Map(SeenPairs(pairs))
    case other => other
  }

  function SeenPair(p: (Value, Value)): (Value, Value)
    decreases p, 0
  {
    (StrToValue(KeyString(p.0)), Seen(p.1))
  }

  predicate IsPlain(s: string) {
    s == "" || s[0] != ':'
  }

  predicate KeyOk(k: Value) {
    k.Keyword? || (k.Str? && IsPlain(k.s))
  }

  /** Strings are not led by a colon, and every key is such a string or a keyword. */
  predicate JsonOk(v: Value) {
    match v
    case Str(s) => IsPlain(s)
    case List(items) => forall i :: 0 <= i < |items| ==> JsonOk(items[i])
    case Map(pairs) => forall i :: 0 <= i < |pairs| ==> KeyOk(pairs[i].0) && JsonOk(pairs[i].1)
    case _ => true
  }

  lemma SameItems(items: seq<Value>)
    ensures SeenItems(items) == items <==> forall i :: 0 <= i < |items| ==> Seen(items[i]) == items[i]
  {
    if forall i :: 0 <= i < |items| ==> Seen(items[i]) == items[i] {
      assert SeenItems(items) == items;
    }
  }

  lemma SamePairs(pairs: seq<(Value, Value)>)
    ensures SeenPairs(pairs) == pairs <==> forall i :: 0 <= i < |pairs| ==> SeenPair(pairs[i]) == pairs[i]
  {
    if forall i :: 0 <= i < |pairs| ==> SeenPair(pairs[i]) == pairs[i] {
      assert SeenPairs(pairs) == pairs;
    }
  }

  lemma PairUnchanged(p: (Value, Value))
    ensures SeenPair(p) == p <==> KeyOk(p.0) && JsonOk(p.1)
    decreases p, 0
  {
    SeenUnchanged(p.1);
    if p.0.Keyword? {
      assert (":" + p.0.k)[1..] == p.0.k;
    }
  }

  /** Nothing is lost of exactly the values described by `JsonOk`. */
  lemma {:induction false} SeenUnchanged(v: Value)
    ensures Seen(v) == v <==> JsonOk(v)
    decreases v
  {
    match v
    case List(items) =>
      forall i | 0 <= i < |items| ensures Seen(items[i]) == items[i] <==> JsonOk(items[i]) {
        SeenUnchanged(items[i]);
      }
      SameItems(items);
    case Map(pairs) =>
      forall i | 0 <= i < |pairs|
        ensures SeenPair(pairs[i]) == pairs[i] <==> KeyOk(pairs[i].0) && JsonOk(pairs[i].1)
      {
        PairUnchanged(pairs[i]);
      }
      SamePairs(pairs);
    case _ =>
  }

  // ----- Reading what was written -----

  /** Nothing that follows can be taken for part of a number. */
  predicate Closes(rest: string) {
    rest == "" || !IsNumberChar(rest[0])
  }

  lemma EscapeColon(s: string)
    ensures Escape(":" + s) == ":" + Escape(s)
  {
    assert (":" + s)[1..] == s;
  }

  lemma QuoteColon(e: string)
    ensures "\"" + (":" + e) + "\"" == "\":" + e + "\""
  {
  }

  lemma ColonStays(s: string)
    ensures Quoted(":" + s) == "\":" + Escape(s) + "\""
  {
    EscapeColon(s);
    QuoteColon(Escape(s));
  }

  lemma IntIsDigits(i: i64)
    ensures forall k :: 0 <= k < |IntText(i)| ==> IsDigit(IntText(i)[k]) || IntText(i)[k] == '-'
  {
    var t, n: int := IntText(i), i;
    forall k | 0 <= k < |t| ensures IsDigit(t[k]) || t[k] == '-' {
      if n < 0 && k > 0 {
        assert t[k] == Decimal(-n)[k - 1];
      }
    }
  }

  lemma {:induction false} IntEscapes(s: string)
    ensures (forall i :: 0 <= i < |s| ==> IsDigit(s[i]) || s[i] == '-') ==> Escape(s) == s
  {
    if s == "" {
    } else {
      IntEscapes(s[1..]);
    }
  }

  lemma KeyTextIs(k: Value)
    ensures KeyText(k) == Quoted(KeyString(k))
  {
    match k
    case Keyword(kw) => ColonStays(kw);
    case Int(i) =>
      IntEscapes(IntText(i));
      IntIsDigits(i);
    case _ =>
  }

  lemma EscapeReadsJson(c: char, tail: string, acc: string)
    ensures ReadJsonString(EscapeChar(c) + tail, acc) == ReadJsonString(tail, acc + [c])
  {
    var e := EscapeChar(c);
    assert (e + tail)[0] == e[0];
    if |e| == 2 {
      assert (e + tail)[1..] == [e[1]] + tail;
      assert ([e[1]] + tail)[1..] == tail;
    } else {
      assert (e + tail)[1..] == tail;
    }
  }

  /** The escapes written are undone, whatever the string. */
  lemma {:induction false} JsonStringReads(s: string, rest: string, acc: string)
    ensures ReadJsonString(Escape(s) + ("\"" + rest), acc) == Got(acc + s, rest)
    decreases |s|
  {
    if s == "" {
      assert Escape(s) + ("\"" + rest) == "\"" + rest;
      assert ("\"" + rest)[0] == '\"' && ("\"" + rest)[1..] == rest;
      assert acc + s == acc;
    } else {
      var tail := Escape(s[1..]) + ("\"" + rest);
      assert Escape(s) + ("\"" + rest) == EscapeChar(s[0]) + tail;
      EscapeReadsJson(s[0], tail, acc);
      JsonStringReads(s[1..], rest, acc + [s[0]]);
      MoveFirst(acc, s);
    }
  }

  lemma {:induction false} NumberTokenIs(t: string, rest: string)
    requires forall i :: 0 <= i < |t| ==> IsNumberChar(t[i])
    requires Closes(rest)
    ensures NumberToken(t + rest) == t && (t + rest)[|t|..] == rest
  {
    if t == "" {
      assert t + rest == rest;
    } else {
      assert (t + rest)[1..] == t[1..] + rest;
      NumberTokenIs(t[1..], rest);
    }
  }

  lemma NumberReads(i: i64, rest: string)
    requires Closes(rest)
    ensures ReadNumber(IntText(i) + rest) == Got(Int(i), rest)
  {
    IntChars(i);
    IntReads(i);
    NumberTokenIs(IntText(i), rest);
  }

  /** A character a printed value can start with. */
  predicate Begins(c: char) {
    !IsAsciiSpace(c) && c !in ",]}:"
  }

  lemma TextBegins(v: Value)
    ensures JsonText(v) != "" && Begins(JsonText(v)[0])
    ensures v.Int? ==> JsonText(v)[0] !in "{[\"tfn"
  {
    if v.Int? {
      IntChars(v.i);
    }
  }

  lemma JsonByHead(s: string)
    requires s != "" && Begins(s[0])
    ensures s[0] == '{' ==> ReadJson(s) == ReadMembers(s[1..], [])
    ensures s[0] == '[' ==> ReadJson(s) == ReadElements(s[1..], [])
    ensures s[0] == '\"' && ReadJsonString(s[1..], "").Got? ==>
              ReadJson(s) == Got(StrToValue(ReadJsonString(s[1..], "").value), ReadJsonString(s[1..], "").rest)
    ensures s[0] in "tfn" ==> ReadJson(s) == ReadLiteral(s)
    ensures s[0] !in "{[\"tfn" ==> ReadJson(s) == ReadNumber(s)
  {
  }

  lemma QuotedReads(s: string, rest: string)
    ensures ReadJson(Quoted(s) + rest) == Got(StrToValue(s), rest)
    ensures ReadJsonString((Quoted(s) + rest)[1..], "") == Got(s, rest)
  {
    Unwrap('\"', Escape(s), "\"", rest);
    JsonStringReads(s, rest, "");
    assert "" + s == s;
    JsonByHead(Quoted(s) + rest);
  }

  lemma LiteralReads(v: Value, rest: string)
    requires v.Nil? || v.Bool?
    ensures ReadLiteral(JsonText(v) + rest) == Got(v, rest)
  {
    var s := JsonText(v) + rest;
    assert JsonText(v) <= s && s[|JsonText(v)|..] == rest;
    assert s[0] == JsonText(v)[0];
  }

  /** A separator makes no difference. */
  lemma SkipComma(s: string)
    ensures forall acc :: ReadElements("," + s, acc) == ReadElements(s, acc)
    ensures forall acc :: ReadMembers("," + s, acc) == ReadMembers(s, acc)
  {
    assert ("," + s)[1..] == s;
  }

  lemma ElementsStep(v: Value, tail: string, next: string, acc: seq<Value>)
    requires ReadJson(JsonText(v) + tail) == Got(Seen(v), tail)
    requires tail == next || tail == "," + next
    ensures ReadElements(JsonText(v) + tail, acc) == ReadElements(next, acc + [Seen(v)])
  {
    TextBegins(v);
    assert (JsonText(v) + tail)[0] == JsonText(v)[0];
    SkipComma(next);
  }

  lemma MembersStep(p: (Value, Value), tail: string, next: string, acc: seq<(Value, Value)>)
    requires var s := KeyText(p.0) + (":" + (JsonText(p.1) + tail));
             s != "" && ReadMember(s) == Got(SeenPair(p), tail)
    requires tail == next || tail == "," + next
    ensures ReadMembers(KeyText(p.0) + (":" + (JsonText(p.1) + tail)), acc) == ReadMembers(next, acc + [SeenPair(p)])
  {
    KeyTextIs(p.0);
    assert KeyText(p.0)[0] == '\"';
    SkipComma(next);
  }

  function MembersTail(more: seq<(Value, Value)>, last: string): string {
    if more == [] then last else "," + (MembersText(more) + last)
  }

  lemma MembersSplit(pairs: seq<(Value, Value)>, last: string)
    requires pairs != []
    ensures var p := pairs[0];
            MembersText(pairs) + last == KeyText(p.0) + (":" + (JsonText(p.1) + MembersTail(pairs[1..], last)))
    ensures pairs[1..] == [] ==> MembersText(pairs[1..]) + last == last
  {
    var p := pairs[0];
    if |pairs| > 1 {
      Regroup(MemberText(p), ",", MembersText(pairs[1..]), last);
    }
    Regroup(KeyText(p.0), ":", JsonText(p.1), MembersTail(pairs[1..], last));
  }

  lemma {:induction false} MembersRead(pairs: seq<(Value, Value)>, rest: string, acc: seq<(Value, Value)>)
    ensures ReadMembers(MembersText(pairs) + ("}" + rest), acc) == Got(Map(acc + SeenPairs(pairs)), rest)
    decreases pairs
  {
    var last := "}" + rest;
    if pairs == [] {
      assert MembersText(pairs) + last == last && last[1..] == rest;
      assert acc + SeenPairs(pairs) == acc;
    } else {
      var p, more := pairs[0], pairs[1..];
      var tail := MembersTail(more, last);
      MembersSplit(pairs, last);
      MemberReads(p, tail);
      MembersRead(more, rest, acc + [SeenPair(p)]);
      MembersStep(p, tail, MembersText(more) + last, acc);
      MoveFirst(acc, SeenPairs(pairs));
      assert SeenPairs(pairs)[1..] == SeenPairs(more);
    }
  }

  /** The text from the end of an element on. */
  function ElementsTail(more: seq<Value>, last: string): string {
    if more == [] then last else "," + (ElementsText(more) + last)
  }

  lemma ElementsSplit(items: seq<Value>, last: string)
    requires items != []
    ensures ElementsText(items) + last == JsonText(items[0]) + ElementsTail(items[1..], last)
    ensures items[1..] == [] ==> ElementsText(items[1..]) + last == last
  {
    if |items| > 1 {
      Regroup(JsonText(items[0]), ",", ElementsText(items[1..]), last);
    }
  }

  lemma {:induction false} ElementsRead(items: seq<Value>, rest: string, acc: seq<Value>)
    ensures ReadElements(ElementsText(items) + ("]" + rest), acc) == Got(List(acc + SeenItems(items)), rest)
    decreases items
  {
    var last := "]" + rest;
    if items == [] {
      assert ElementsText(items) + last == last && last[1..] == rest;
      assert acc + SeenItems(items) == acc;
    } else {
      var more := items[1..];
      ElementsSplit(items, last);
      JsonReads(items[0], ElementsTail(more, last));
      ElementsRead(more, rest, acc + [Seen(items[0])]);
      ElementsStep(items[0], ElementsTail(more, last), ElementsText(more) + last, acc);
      MoveFirst(acc, SeenItems(items));
      assert SeenItems(items)[1..] == SeenItems(more);
    }
  }

  /** Whatever was written is read back as a JSON reader sees it, up to what follows. */
  lemma {:induction false} JsonReads(v: Value, rest: string)
    requires Closes(rest)
    ensures ReadJson(JsonText(v) + rest) == Got(Seen(v), rest)
    decreases v
  {
    var s := JsonText(v) + rest;
    TextBegins(v);
    assert s[0] == JsonText(v)[0];
    JsonByHead(s);
    match v
    case Str(t) => QuotedReads(t, rest);
    case Keyword(k) =>
      KeyTextIs(v);
      QuotedReads(":" + k, rest);
      assert (":" + k)[1..] == k;
    case List(items) =>
      Unwrap('[', ElementsText(items), "]", rest);
      ElementsRead(items, rest, []);
      assert [] + SeenItems(items) == SeenItems(items);
    case Map(pairs) =>
      Unwrap('{', MembersText(pairs), "}", rest);
      MembersRead(pairs, rest, []);
      assert [] + SeenPairs(pairs) == SeenPairs(pairs);
    case Int(i) => NumberReads(i, rest);
    case _ => LiteralReads(v, rest);
  }

  lemma MemberReads(p: (Value, Value), tail: string)
    requires Closes(tail)
    ensures var s := KeyText(p.0) + (":" + (JsonText(p.1) + tail));
            s != "" && ReadMember(s) == Got(SeenPair(p), tail)
    decreases p
  {
    KeyTextIs(p.0);
    var after := ":" + (JsonText(p.1) + tail);
    QuotedReads(KeyString(p.0), after);
    JsonReads(p.1, tail);
    assert after[1..] == JsonText(p.1) + tail;
    assert SkipSpace(after) == after;
  }

  // ----- Whatever is read can be written -----

  lemma {:induction false} MembersAreOk(s: string, acc: seq<(Value, Value)>)
    requires forall i :: 0 <= i < |acc| ==> KeyOk(acc[i].0) && JsonOk(acc[i].1)
    ensures ReadMembers(s, acc).Got? ==> JsonOk(ReadMembers(s, acc).value)
    decreases |s|, 1
  {
    var s1 := SkipSpace(s);
    if s1 != "" && s1[0] == ',' {
      MembersAreOk(s1[1..], acc);
    } else if s1 != "" && s1[0] == '\"' {
      MemberIsOk(s1);
      var r := ReadMember(s1);
      if r.Got? {
        MembersAreOk(r.rest, acc + [r.value]);
      }
    }
  }

  lemma {:induction false} ElementsAreOk(s: string, acc: seq<Value>)
    requires forall i :: 0 <= i < |acc| ==> JsonOk(acc[i])
    ensures ReadElements(s, acc).Got? ==> JsonOk(ReadElements(s, acc).value)
    decreases |s|, 1
  {
    var s1 := SkipSpace(s);
    if s1 != "" && s1[0] == ',' {
      ElementsAreOk(s1[1..], acc);
    } else if s1 != "" && s1[0] != ']' {
      ReadIsJsonOk(s1);
      var r := ReadJson(s1);
      if r.Got? {
        ElementsAreOk(r.rest, acc + [r.value]);
      }
    }
  }

  lemma {:induction false} ReadIsJsonOk(s: string)
    ensures ReadJson(s).Got? ==> JsonOk(ReadJson(s).value)
    decreases |s|, 0
  {
    var s1 := SkipSpace(s);
    if s1 == "" {
    } else {
      if s1[0] == '{' {
        MembersAreOk(s1[1..], []);
      } else if s1[0] == '[' {
        ElementsAreOk(s1[1..], []);
      }
    }
  }

  lemma MemberIsOk(s: string)
    requires s != ""
    ensures ReadMember(s).Got? ==> KeyOk(ReadMember(s).value.0) && JsonOk(ReadMember(s).value.1)
    decreases |s|, 0
  {
    var k := ReadKey(s);
    if k.Got? {
      ReadIsJsonOk(k.rest);
    }
  }

  /** What comes back for every value, and when it is the value itself. */
  lemma JsonRoundTrip(v: Value)
    ensures ParseJson(JsonText(v)) == Some(Seen(v))
    ensures ParseJson(JsonText(v)) == Some(v) <==> JsonOk(v)
  {
    TextBegins(v);
    assert SkipSpace(JsonText(v)) == JsonText(v);
    JsonReads(v, "");
    assert JsonText(v) + "" == JsonText(v);
    SeenUnchanged(v);
  }

  /** Reading, printing and reading again is reading once. */
  lemma JsonReadPrintRead(s: string)
    requires ParseJson(s).Some?
    ensures ParseJson(JsonText(ParseJson(s).value)) == ParseJson(s)
  {
    ReadIsJsonOk(SkipSpace(s));
    JsonRoundTrip(ParseJson(s).value);
  }
}
