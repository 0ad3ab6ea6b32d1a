/** Which texts are JSON, as far as this reader is concerned, and what they say: a grammar, and that the reader
    accepts exactly its texts and returns what they say. Commas may be missing or repeated, a string led by a colon
    is a keyword, and escapes the printer never writes are understood (crates/propsim-history/src/edn.rs). */
module JsonGrammar {
  import opened Ops
  import opened Text
  import opened Json
  import opened Numerals

  // ----- The grammar -----

  predicate IsBlank(c: char) {
    c == ' ' || c == '\t' || c == '\n' || c == '\r' || c == '\U{0C}'
  }

  predicate Blanks(s: string) {
    forall i :: 0 <= i < |s| ==> IsBlank(s[i])
  }

  /** What may stand between elements, or nothing. */
  predicate Gap(s: string) {
    forall i :: 0 <= i < |s| ==> IsBlank(s[i]) || s[i] == ','
  }

  /** `used` spells one character: itself, or an escape. */
  ghost predicate SpellsOne(used: string, c: char) {
    if used != "" && used[0] == '\\' then
      if |used| >= 2 && used[1] == 'u' then |used| == 6 && IsCodeOf(used[2..], c)
      else
        && |used| == 2 && used[1] < '\U{80}'
        && c == (if used[1] == 'n' then '\n' else if used[1] == 'r' then '\r' else if used[1] == 't' then '\t'
                 else used[1])
    else |used| == 1 && used[0] != '\"' && c == used[0]
  }

  /** How far the first character of a string body goes. */
  function Spelling(body: string): nat {
    if body != "" && body[0] == '\\' then (if |body| >= 2 && body[1] == 'u' then 6 else 2) else 1
  }

  ghost predicate Spells(body: string, t: string)
    decreases |body|
  {
    if body == "" then t == ""
    else
      && |body| >= Spelling(body) && t != ""
      && SpellsOne(body[..Spelling(body)], t[0]) && Spells(body[Spelling(body)..], t[1..])
  }

  /** A quoted string that says `v`. */
  ghost predicate SaysString(s: string, v: Value) {
    && |s| >= 2 && s[0] == '\"' && s[|s| - 1] == '\"'
    && ((v.Str? && (v.s == "" || v.s[0] != ':') && Spells(s[1..|s| - 1], v.s))
        || (v.Keyword? && Spells(s[1..|s| - 1], ":" + v.k)))
  }

  predicate InNumber(c: char) {
    '0' <= c <= '9' || c == '-' || c == '+' || c == '.' || c == 'e' || c == 'E'
  }

  /** A number must be kept apart from what follows. */
  ghost predicate Apart(v: Value, after: string) {
    !v.Int? || after == "" || !InNumber(after[0])
  }

  ghost predicate SayElements(s: string, items: seq<Value>)
    decreases |s|, 2
  {
    if items == [] then Gap(s)
    else exists a, b, c {:trigger Gap(a), Says(b, items[0]), SayElements(c, items[1..])} ::
      s == a + b + c && b != "" && Gap(a) && Says(b, items[0]) && Apart(items[0], c) && SayElements(c, items[1..])
  }

  /** A quoted key, a colon and a form, with blanks around the colon. */
  ghost predicate SaysMember(s: string, p: (Value, Value))
    decreases |s|, 1
  {
    exists k, x, y, b {:trigger SaysString(k, p.0), Blanks(x), Blanks(y), Says(b, p.1)} ::
      s == k + (x + ":" + y + b) && SaysString(k, p.0) && Blanks(x) && Blanks(y) && Says(b, p.1)
  }

  ghost predicate SayMembers(s: string, pairs: seq<(Value, Value)>)
    decreases |s|, 2
  {
    if pairs == [] then Gap(s)
    else exists a, b, c {:trigger Gap(a), SaysMember(b, pairs[0]), SayMembers(c, pairs[1..])} ::
      && s == a + b + c && b != "" && Gap(a) && SaysMember(b, pairs[0]) && Apart(pairs[0].1, c)
      && SayMembers(c, pairs[1..])
  }

  /** `s` is a form, from its first character to its last, and says `v`. */
  ghost predicate Says(s: string, v: Value)
    decreases |s|, 0
  {
    if s == "" then false
    else if s[0] == '[' then |s| >= 2 && s[|s| - 1] == ']' && v.List? && SayElements(s[1..|s| - 1], v.items)
    else if s[0] == '{' then |s| >= 2 && s[|s| - 1] == '}' && v.Map? && SayMembers(s[1..|s| - 1], v.pairs)
    else if s[0] == '\"' then SaysString(s, v)
    else
      || (s == "null" && v.Nil?)
      || (s == "true" && v == Bool(true))
      || (s == "false" && v == Bool(false))
      || (v.Int? && IsNumeral(s, v.i))
  }

  // ----- Blanks and gaps -----

  lemma BlanksAre(c: char)
    ensures IsAsciiSpace(c) <==> IsBlank(c)
  {
  }

  lemma {:induction false} SkippedIsBlank(s: string) returns (a: string)
    ensures s == a + SkipSpace(s) && Blanks(a)
    ensures SkipSpace(s) != "" ==> !IsBlank(SkipSpace(s)[0])
    decreases |s|
  {
    if s != "" && IsAsciiSpace(s[0]) {
      var b := SkippedIsBlank(s[1..]);
      a := [s[0]] + b;
    } else {
      a := "";
    }
  }

  lemma {:induction false} BlanksAreSkipped(a: string, s: string)
    requires Blanks(a)
    ensures SkipSpace(a + s) == SkipSpace(s)
    decreases |a|
  {
    if a == "" {
      assert a + s == s;
    } else {
      assert (a + s)[0] == a[0] && (a + s)[1..] == a[1..] + s;
      BlanksAreSkipped(a[1..], s);
    }
  }

  lemma NothingSkipped(s: string)
    requires s == "" || !IsBlank(s[0])
    ensures SkipSpace(s) == s
  {
  }

  lemma GapJoin(a: string, b: string)
    requires Gap(a) && Gap(b)
    ensures Gap(a + b)
  {
  }

  /** A comma or a blank before elements makes no difference. */
  lemma SkipOne(c: char, s: string)
    requires IsBlank(c) || c == ','
    ensures forall acc :: ReadElements([c] + s, acc) == ReadElements(s, acc)
    ensures forall acc :: ReadMembers([c] + s, acc) == ReadMembers(s, acc)
  {
    assert ([c] + s)[1..] == s;
  }

  lemma {:induction false} GapsAreSkipped(a: string, s: string)
    requires Gap(a)
    ensures forall acc :: ReadElements(a + s, acc) == ReadElements(s, acc)
    ensures forall acc :: ReadMembers(a + s, acc) == ReadMembers(s, acc)
    decreases |a|
  {
    if a == "" {
      assert a + s == s;
    } else {
      GapsAreSkipped(a[1..], s);
      SkipOne(a[0], a[1..] + s);
      assert a + s == [a[0]] + (a[1..] + s);
    }
  }

  // ----- Strings -----

  lemma SpellMore(used: string, c: char, more: string, t: string)
    requires SpellsOne(used, c) && Spells(more, t)
    ensures Spells(used + more, [c] + t)
  {
    var body := used + more;
    assert body[0] == used[0] && (|used| >= 2 ==> body[1] == used[1]);
    assert Spelling(body) == |used|;
    assert body[..|used|] == used && body[|used|..] == more && ([c] + t)[1..] == t;
  }

  lemma NextPiece(s: string, acc: string, r: Parsed<string>) returns (used: string, c: char, rest: string)
    requires r == ReadJsonString(s, acc) && r.Got? && s != "" && s[0] != '\"'
    ensures s == used + rest && |rest| < |s| && SpellsOne(used, c)
    ensures r == ReadJsonString(rest, acc + [c])
  {
    var piece := ReadJsonPiece(s);
    c, rest := piece.c, piece.rest;
    if s[0] != '\\' {
      used := s[..1];
    } else if s[1] == 'u' {
      used := s[..6];
      assert s[1..][1..5] == s[2..6] && used[2..] == s[2..6];
      EscapesAreCodes(s[2..6], c);
    } else {
      used := s[..2];
    }
  }

  lemma {:induction false} ReadIsSpelled(s: string, acc: string, r: Parsed<string>) returns (body: string, t: string)
    requires r == ReadJsonString(s, acc) && r.Got?
    ensures r.value == acc + t
    ensures s == body + ("\"" + r.rest) && Spells(body, t)
    decreases |s|
  {
    if s[0] == '\"' {
      body, t := "", "";
      assert s == "" + ("\"" + s[1..]) && acc == acc + "";
    } else {
      var used, c, rest := NextPiece(s, acc, r);
      var more, u := ReadIsSpelled(rest, acc + [c], r);
      body, t := used + more, [c] + u;
      SpellMore(used, c, more, u);
      AddOne(acc, c, u);
      Regrouped(used, more, "\"" + r.rest);
    }
  }

  lemma PieceIsRead(used: string, c: char, rest: string, acc: string)
    requires SpellsOne(used, c)
    ensures ReadJsonString(used + rest, acc) == ReadJsonString(rest, acc + [c])
  {
    var s := used + rest;
    assert s[0] == used[0];
    if used[0] != '\\' {
      assert s[1..] == rest;
    } else if used[1] == 'u' {
      assert s[1..][0] == 'u' && s[1..][1..5] == used[2..] && s[1..][5..] == rest;
      EscapesAreCodes(used[2..], c);
    } else {
      assert s[1..][0] == used[1] && s[1..][1..] == rest;
    }
  }

  lemma {:induction false} SpelledIsRead(body: string, t: string, rest: string, acc: string)
    requires Spells(body, t)
    ensures ReadJsonString(body + ("\"" + rest), acc) == Got(acc + t, rest)
    decreases |body|
  {
    var tail := "\"" + rest;
    if body == "" {
      assert body + tail == tail && tail[0] == '\"' && tail[1..] == rest && acc + t == acc;
    } else {
      var used, more := body[..Spelling(body)], body[Spelling(body)..];
      assert body == used + more;
      Regrouped(used, more, tail);
      PieceIsRead(used, t[0], more + tail, acc);
      SpelledIsRead(more, t[1..], rest, acc + [t[0]]);
      MoveFirst(acc, t);
    }
  }

  lemma Bracketed(open: char, body: string, close: char, rest: string)
    ensures [open] + (body + ([close] + rest)) == ([open] + body + [close]) + rest
    ensures ([open] + body + [close])[1..|[open] + body + [close]| - 1] == body
  {
  }

  lemma StringIsSaid(body: string, t: string)
    requires Spells(body, t)
    ensures SaysString(['\"'] + body + ['\"'], StrToValue(t))
  {
    Bracketed('\"', body, '\"', "");
    if t != "" && t[0] == ':' {
      assert t == ":" + t[1..];
    }
  }

  lemma SaidString(s: string, v: Value) returns (body: string, t: string)
    requires SaysString(s, v)
    ensures s == ['\"'] + body + ['\"'] && Spells(body, t) && v == StrToValue(t)
  {
    body := s[1..|s| - 1];
    t := if v.Str? then v.s else ":" + v.k;
    assert v.Keyword? ==> t[1..] == v.k;
  }

  // ----- Numbers -----

  lemma InNumbersAre(c: char)
    ensures IsNumberChar(c) <==> InNumber(c)
  {
  }

  lemma {:induction false} TokenIsNumber(s: string) returns (rest: string)
    ensures s == NumberToken(s) + rest && s[|NumberToken(s)|..] == rest && (rest == "" || !InNumber(rest[0]))
    decreases |s|
  {
    if s == "" || !IsNumberChar(s[0]) {
      rest := s;
      if s != "" {
        InNumbersAre(s[0]);
      }
    } else {
      rest := TokenIsNumber(s[1..]);
    }
  }

  lemma NumeralInNumber(s: string, i: int)
    requires IsNumeral(s, i)
    ensures forall k :: 0 <= k < |s| ==> InNumber(s[k])
    ensures s[0] !in "{[\"tfn" && !IsBlank(s[0]) && s[0] !in ",]}"
  {
    NumeralChars(s, i);
  }

  lemma NumberIsSaid(s: string, r: Parsed<Value>) returns (b: string)
    requires r == ReadNumber(s) && r.Got? && s != "" && s[0] !in "{[\""
    ensures s == b + r.rest && b != "" && Says(b, r.value) && Apart(r.value, r.rest)
  {
    b := NumberToken(s);
    var rest := TokenIsNumber(s);
    IntegersAreNumerals(b, r.value.i);
    assert b[0] == s[0];
  }

  lemma NumberIsRead(b: string, rest: string, i: i64)
    requires IsNumeral(b, i) && (rest == "" || !InNumber(rest[0]))
    ensures ReadNumber(b + rest) == Got(Int(i), rest)
  {
    NumeralInNumber(b, i);
    forall k | 0 <= k < |b| ensures IsNumberChar(b[k]) {
      InNumbersAre(b[k]);
    }
    if rest != "" {
      InNumbersAre(rest[0]);
    }
    NumberTokenIs(b, rest);
    IntegersAreNumerals(b, i);
  }

  lemma LiteralIsSaid(s: string, r: Parsed<Value>) returns (b: string)
    requires r == ReadLiteral(s) && r.Got?
    ensures s == b + r.rest && b != "" && Says(b, r.value) && Apart(r.value, r.rest)
  {
    b := if "true" <= s then "true" else if "false" <= s then "false" else "null";
  }

  lemma LiteralIsRead(b: string, rest: string, v: Value)
    requires (b == "null" && v.Nil?) || (b == "true" && v == Bool(true)) || (b == "false" && v == Bool(false))
    ensures ReadLiteral(b + rest) == Got(v, rest)
  {
    var s := b + rest;
    assert b <= s && s[|b|..] == rest && s[0] == b[0];
  }

  // ----- What is read was said -----

  lemma MoreGap(a: string, body: string, items: seq<Value>)
    requires Gap(a) && SayElements(body, items)
    ensures SayElements(a + body, items)
  {
    if items == [] {
      GapJoin(a, body);
    } else {
      var a', b, c :| body == a' + b + c && b != "" && Gap(a') && Says(b, items[0]) && Apart(items[0], c)
                      && SayElements(c, items[1..]);
      GapJoin(a, a');
      assert a + body == (a + a') + b + c;
    }
  }

  lemma MoreGapBefore(a: string, body: string, pairs: seq<(Value, Value)>)
    requires Gap(a) && SayMembers(body, pairs)
    ensures SayMembers(a + body, pairs)
  {
    if pairs == [] {
      GapJoin(a, body);
    } else {
      var a', b, c :| body == a' + b + c && b != "" && Gap(a') && SaysMember(b, pairs[0]) && Apart(pairs[0].1, c)
                      && SayMembers(c, pairs[1..]);
      GapJoin(a, a');
      assert a + body == (a + a') + b + c;
    }
  }

  lemma ApartWithin(v: Value, c: string, after: string)
    requires Apart(v, c + after)
    ensures Apart(v, c)
  {
  }

  lemma SayMore(a: string, b: string, c: string, v: Value, more: seq<Value>)
    requires Gap(a) && b != "" && Says(b, v) && Apart(v, c) && SayElements(c, more)
    ensures SayElements(a + b + c, [v] + more)
  {
    assert ([v] + more)[0] == v && ([v] + more)[1..] == more;
  }

  lemma SayMoreMembers(a: string, b: string, c: string, p: (Value, Value), more: seq<(Value, Value)>)
    requires Gap(a) && b != "" && SaysMember(b, p) && Apart(p.1, c) && SayMembers(c, more)
    ensures SayMembers(a + b + c, [p] + more)
  {
    assert ([p] + more)[0] == p && ([p] + more)[1..] == more;
  }

  lemma ElementsUnfold(s: string, acc: seq<Value>, r: Parsed<Value>) returns (s1: string, first: Parsed<Value>)
    requires r == ReadElements(s, acc) && r.Got?
    ensures s1 == SkipSpace(s) && s1 != ""
    ensures s1[0] == ']' ==> r == Got(List(acc), s1[1..])
    ensures s1[0] == ',' ==> r == ReadElements(s1[1..], acc)
    ensures s1[0] != ']' && s1[0] != ',' ==>
              first == ReadJson(s1) && first.Got? && r == ReadElements(first.rest, acc + [first.value])
  {
    s1 := SkipSpace(s);
    first := ReadJson(s1);
  }

  lemma MembersUnfold(s: string, acc: seq<(Value, Value)>, r: Parsed<Value>)
    returns (s1: string, first: Parsed<(Value, Value)>)
    requires r == ReadMembers(s, acc) && r.Got?
    ensures s1 == SkipSpace(s) && s1 != "" && s1[0] in "},\""
    ensures s1[0] == '}' ==> r == Got(Map(acc), s1[1..])
    ensures s1[0] == ',' ==> r == ReadMembers(s1[1..], acc)
    ensures s1[0] == '\"' ==>
              first == ReadMember(s1) && first.Got? && r == ReadMembers(first.rest, acc + [first.value])
  {
    s1 := SkipSpace(s);
    first := ReadMember(s1);
  }

  /** A quoted key, blanks and a colon. */
  lemma KeyIsSaid(s: string, r: Parsed<string>) returns (k: string, x: string)
    requires s != "" && s[0] == '\"' && r == ReadKey(s) && r.Got?
    ensures s == k + (x + ":" + r.rest) && SaysString(k, StrToValue(r.value)) && Blanks(x)
  {
    var inner := ReadJsonString(s[1..], "");
    var body, t := ReadIsSpelled(s[1..], "", inner);
    assert "" + t == t;
    k := ['\"'] + body + ['\"'];
    Bracketed('\"', body, '\"', inner.rest);
    StringIsSaid(body, t);
    x := SkippedIsBlank(inner.rest);
    var colon := SkipSpace(inner.rest);
    assert colon == ":" + r.rest;
    assert s == k + inner.rest;
    assert inner.rest == x + ":" + r.rest;
  }

  lemma MemberUnfold(s: string, r: Parsed<(Value, Value)>) returns (key: Parsed<string>, value: Parsed<Value>)
    requires s != "" && r == ReadMember(s) && r.Got?
    ensures key == ReadKey(s) && key.Got? && value == ReadJson(key.rest) && value.Got?
    ensures r == Got((StrToValue(key.value), value.value), value.rest)
  {
    key := ReadKey(s);
    value := ReadJson(key.rest);
  }

  /** A member put together from its parts. */
  lemma MemberOf(k: string, x: string, y: string, f: string, p: (Value, Value), rest: string) returns (b: string)
    requires SaysString(k, p.0) && Blanks(x) && Blanks(y) && Says(f, p.1)
    ensures b != "" && SaysMember(b, p) && k + (x + ":" + (y + f + rest)) == b + rest
  {
    b := k + (x + ":" + y + f);
    assert x + ":" + (y + f + rest) == (x + ":" + y + f) + rest;
    Regrouped(k, x + ":" + y + f, rest);
  }

  lemma SkipTwice(s: string)
    ensures SkipSpace(SkipSpace(s)) == SkipSpace(s) && ReadJson(SkipSpace(s)) == ReadJson(s)
  {
    var a := SkippedIsBlank(s);
    NothingSkipped(SkipSpace(s));
  }

  lemma {:induction false} ReadIsSaid(s: string, r: Parsed<Value>) returns (a: string, b: string)
    requires r == ReadJson(s) && r.Got?
    ensures s == a + b + r.rest && Blanks(a) && b != "" && Says(b, r.value) && Apart(r.value, r.rest)
    decreases |s|, 1
  {
    a := SkippedIsBlank(s);
    SkipTwice(s);
    b := FormIsSaid(SkipSpace(s), r);
    Rejoined(s, a, SkipSpace(s), b, r.rest);
  }

  lemma {:induction false} MemberIsSaid(s: string, r: Parsed<(Value, Value)>) returns (b: string)
    requires s != "" && s[0] == '\"' && r == ReadMember(s) && r.Got?
    ensures s == b + r.rest && b != "" && SaysMember(b, r.value) && Apart(r.value.1, r.rest)
    decreases |s|, 0
  {
    var key, value := MemberUnfold(s, r);
    var k, x := KeyIsSaid(s, key);
    var y, f := ReadIsSaid(key.rest, value);
    b := MemberOf(k, x, y, f, r.value, r.rest);
  }

  lemma {:induction false} MembersAreSaid(s: string, acc: seq<(Value, Value)>, r: Parsed<Value>)
    returns (body: string, pairs: seq<(Value, Value)>)
    requires r == ReadMembers(s, acc) && r.Got?
    ensures r.value == Map(acc + pairs)
    ensures s == body + (['}'] + r.rest) && SayMembers(body, pairs)
    decreases |s|, 1
  {
    var a := SkippedIsBlank(s);
    var s1, first := MembersUnfold(s, acc, r);
    assert s1 == [s1[0]] + s1[1..];
    if s1[0] == '}' {
      body, pairs := a, [];
      assert acc + pairs == acc;
    } else if s1[0] == ',' {
      var more;
      more, pairs := MembersAreSaid(s1[1..], acc, r);
      body := (a + [',']) + more;
      MoreGapBefore(a + [','], more, pairs);
      Regroup4(a, [','], more, ['}'] + r.rest);
    } else {
      var b := MemberIsSaid(s1, first);
      var c, more := MembersAreSaid(first.rest, acc + [first.value], r);
      body, pairs := a + b + c, [first.value] + more;
      ApartWithin(first.value.1, c, ['}'] + r.rest);
      SayMoreMembers(a, b, c, first.value, more);
      Regroup4(a, b, c, ['}'] + r.rest);
      AddOne(acc, first.value, more);
    }
  }

  /** What is read, by the first character. */
  lemma FormUnfold(s: string, r: Parsed<Value>)
    requires r == ReadJson(s) && r.Got? && SkipSpace(s) == s && s != ""
    ensures s[0] == '{' ==> r == ReadMembers(s[1..], [])
    ensures s[0] == '[' ==> r == ReadElements(s[1..], [])
    ensures s[0] == '\"' ==>
              ReadJsonString(s[1..], "").Got?
              && r == Got(StrToValue(ReadJsonString(s[1..], "").value), ReadJsonString(s[1..], "").rest)
    ensures s[0] in "tfn" ==> r == ReadLiteral(s)
    ensures s[0] !in "{[\"tfn" ==> r == ReadNumber(s)
  {
  }

  lemma ListIsSaid(body: string, items: seq<Value>)
    requires SayElements(body, items)
    ensures Says(['['] + body + [']'], List(items))
  {
    Bracketed('[', body, ']', "");
  }

  lemma MapIsSaid(body: string, pairs: seq<(Value, Value)>)
    requires SayMembers(body, pairs)
    ensures Says(['{'] + body + ['}'], Map(pairs))
  {
    Bracketed('{', body, '}', "");
  }

  lemma {:induction false} FormIsSaid(s: string, r: Parsed<Value>) returns (b: string)
    requires r == ReadJson(s) && r.Got? && SkipSpace(s) == s && s != ""
    ensures s == b + r.rest && b != "" && Says(b, r.value) && Apart(r.value, r.rest)
    decreases |s|, 0
  {
    assert s == [s[0]] + s[1..];
    FormUnfold(s, r);
    if s[0] == '{' {
      var body, pairs := MembersAreSaid(s[1..], [], r);
      assert [] + pairs == pairs;
      b := ['{'] + body + ['}'];
      Bracketed('{', body, '}', r.rest);
      MapIsSaid(body, pairs);
    } else if s[0] == '[' {
      var body, items := ElementsAreSaid(s[1..], [], r);
      assert [] + items == items;
      b := ['['] + body + [']'];
      Bracketed('[', body, ']', r.rest);
      ListIsSaid(body, items);
    } else if s[0] == '\"' {
      var body, t := ReadIsSpelled(s[1..], "", ReadJsonString(s[1..], ""));
      assert "" + t == t;
      b := ['\"'] + body + ['\"'];
      Bracketed('\"', body, '\"', r.rest);
      StringIsSaid(body, t);
    } else if s[0] in "tfn" {
      b := LiteralIsSaid(s, r);
    } else {
      b := NumberIsSaid(s, r);
    }
  }

  lemma {:induction false} ElementsAreSaid(s: string, acc: seq<Value>, r: Parsed<Value>)
    returns (body: string, items: seq<Value>)
    requires r == ReadElements(s, acc) && r.Got?
    ensures r.value == List(acc + items)
    ensures s == body + ([']'] + r.rest) && SayElements(body, items)
    decreases |s|, 1
  {
    var a := SkippedIsBlank(s);
    var s1, first := ElementsUnfold(s, acc, r);
    assert s1 == [s1[0]] + s1[1..];
    if s1[0] == ']' {
      body, items := a, [];
      assert acc + items == acc;
    } else if s1[0] == ',' {
      var more;
      more, items := ElementsAreSaid(s1[1..], acc, r);
      body := (a + [',']) + more;
      MoreGap(a + [','], more, items);
      Regroup4(a, [','], more, [']'] + r.rest);
    } else {
      var b := FormIsSaid(s1, first);
      var c, more := ElementsAreSaid(first.rest, acc + [first.value], r);
      body, items := a + b + c, [first.value] + more;
      ApartWithin(first.value, c, [']'] + r.rest);
      SayMore(a, b, c, first.value, more);
      Regroup4(a, b, c, [']'] + r.rest);
      AddOne(acc, first.value, more);
    }
  }

  // ----- What is said is read -----

  lemma FormStarts(s: string, v: Value)
    requires Says(s, v)
    ensures s != "" && !IsBlank(s[0]) && s[0] !in ",]}"
    ensures s[0] !in "{[\"" ==>
              (s == "null" && v.Nil?) || (s == "true" && v == Bool(true)) || (s == "false" && v == Bool(false))
              || (v.Int? && IsNumeral(s, v.i) && s[0] !in "{[\"tfn")
  {
    if s[0] !in "{[\"" && v.Int? {
      NumeralInNumber(s, v.i);
    }
  }

  lemma ReadByHead(s: string)
    requires s != "" && SkipSpace(s) == s
    ensures s[0] == '{' ==> ReadJson(s) == ReadMembers(s[1..], [])
    ensures s[0] == '[' ==> ReadJson(s) == ReadElements(s[1..], [])
    ensures s[0] == '\"' && ReadJsonString(s[1..], "").Got? ==>
              ReadJson(s) == Got(StrToValue(ReadJsonString(s[1..], "").value), ReadJsonString(s[1..], "").rest)
    ensures s[0] in "tfn" ==> ReadJson(s) == ReadLiteral(s)
    ensures s[0] !in "{[\"tfn" ==> ReadJson(s) == ReadNumber(s)
  {
  }

  lemma ElementsAtEnd(acc: seq<Value>, rest: string)
    ensures ReadElements([']'] + rest, acc) == Got(List(acc), rest)
  {
    assert ([']'] + rest)[1..] == rest;
  }

  lemma MembersAtEnd(acc: seq<(Value, Value)>, rest: string)
    ensures ReadMembers(['}'] + rest, acc) == Got(Map(acc), rest)
  {
    assert (['}'] + rest)[1..] == rest;
  }

  lemma OneMoreElement(form: string, acc: seq<Value>, v: Value, rest: string)
    requires form != "" && !IsBlank(form[0]) && form[0] !in ",]" && ReadJson(form) == Got(v, rest)
    ensures ReadElements(form, acc) == ReadElements(rest, acc + [v])
  {
    NothingSkipped(form);
  }

  lemma OneMoreMember(form: string, acc: seq<(Value, Value)>, p: (Value, Value), rest: string)
    requires form != "" && form[0] == '\"' && ReadMember(form) == Got(p, rest)
    ensures ReadMembers(form, acc) == ReadMembers(rest, acc + [p])
  {
    NothingSkipped(form);
  }

  lemma StillApart(v: Value, c: string, close: char, rest: string)
    requires Apart(v, c) && (close == ']' || close == '}')
    ensures Apart(v, c + ([close] + rest))
  {
    var s := c + ([close] + rest);
    assert s[0] == if c == "" then close else c[0];
  }

  lemma StringIsRead(b: string, rest: string, v: Value)
    requires SaysString(b, v)
    ensures ReadJsonString((b + rest)[1..], "").Got?
    ensures StrToValue(ReadJsonString((b + rest)[1..], "").value) == v
    ensures ReadJsonString((b + rest)[1..], "").rest == rest
  {
    var body, t := SaidString(b, v);
    Bracketed('\"', body, '\"', rest);
    SpelledIsRead(body, t, rest, "");
    assert "" + t == t;
    assert (b + rest)[1..] == body + ("\"" + rest);
  }

  lemma ColonAhead(x: string, rest: string)
    requires Blanks(x)
    ensures SkipSpace(x + ":" + rest) == ":" + rest
  {
    BlanksAreSkipped(x, ":" + rest);
    assert x + ":" + rest == x + (":" + rest);
    NothingSkipped(":" + rest);
  }

  lemma KeyUnfold(s: string, t: string, tail: string, rest: string)
    requires s != "" && ReadJsonString(s[1..], "") == Got(t, tail) && SkipSpace(tail) == ":" + rest
    ensures ReadKey(s) == Got(t, rest)
  {
    assert (":" + rest)[1..] == rest;
  }

  lemma KeyIsRead(k: string, x: string, rest: string, v: Value) returns (t: string)
    requires SaysString(k, v) && Blanks(x)
    ensures ReadKey(k + (x + ":" + rest)) == Got(t, rest) && StrToValue(t) == v
  {
    var tail := x + ":" + rest;
    StringIsRead(k, tail, v);
    t := ReadJsonString((k + tail)[1..], "").value;
    ColonAhead(x, rest);
    KeyUnfold(k + tail, t, tail, rest);
  }

  lemma BlanksBefore(y: string, s: string)
    requires Blanks(y) && s != "" && !IsBlank(s[0])
    ensures ReadJson(y + s) == ReadJson(s)
  {
    BlanksAreSkipped(y, s);
    NothingSkipped(s);
  }

  lemma MemberFold(s: string, t: string, value: string, v: Value, rest: string)
    requires s != "" && ReadKey(s) == Got(t, value) && ReadJson(value) == Got(v, rest)
    ensures ReadMember(s) == Got((StrToValue(t), v), rest)
  {
  }

  lemma MemberText(k: string, x: string, y: string, f: string, rest: string)
    ensures (k + (x + ":" + y + f)) + rest == k + (x + ":" + (y + (f + rest)))
  {
    assert x + ":" + (y + (f + rest)) == (x + ":" + y + f) + rest;
    Regrouped(k, x + ":" + y + f, rest);
  }

  lemma StringStarts(k: string, v: Value)
    requires SaysString(k, v)
    ensures k != "" && k[0] == '\"'
  {
  }

  /** The parts of a member, and of the text it starts. */
  lemma MemberParts(b: string, rest: string, p: (Value, Value))
    returns (k: string, x: string, y: string, f: string)
    requires SaysMember(b, p)
    ensures SaysString(k, p.0) && Blanks(x) && Blanks(y) && Says(f, p.1) && |f| <= |b|
    ensures b + rest == k + (x + ":" + (y + (f + rest))) && k != "" && k[0] == '\"'
  {
    k, x, y, f :| b == k + (x + ":" + y + f) && SaysString(k, p.0) && Blanks(x) && Blanks(y) && Says(f, p.1);
    MemberText(k, x, y, f, rest);
    StringStarts(k, p.0);
  }

  lemma {:induction false} MemberIsRead(b: string, rest: string, p: (Value, Value))
    requires SaysMember(b, p) && Apart(p.1, rest)
    ensures b + rest != "" && (b + rest)[0] == '\"' && ReadMember(b + rest) == Got(p, rest)
    decreases |b|, 1
  {
    var k, x, y, f := MemberParts(b, rest, p);
    var t := KeyIsRead(k, x, y + (f + rest), p.0);
    FormStarts(f, p.1);
    BlanksBefore(y, f + rest);
    FormIsRead(f, rest, p.1);
    MemberFold(b + rest, t, y + (f + rest), p.1, rest);
  }

  lemma {:induction false} MembersAreRead(body: string, pairs: seq<(Value, Value)>, rest: string,
      acc: seq<(Value, Value)>)
    requires SayMembers(body, pairs)
    ensures ReadMembers(body + (['}'] + rest), acc) == Got(Map(acc + pairs), rest)
    decreases |body|, 2
  {
    var after := ['}'] + rest;
    if pairs == [] {
      GapsAreSkipped(body, after);
      MembersAtEnd(acc, rest);
      assert acc + pairs == acc;
    } else {
      var a, b, c :| body == a + b + c && b != "" && Gap(a) && SaysMember(b, pairs[0]) && Apart(pairs[0].1, c)
                     && SayMembers(c, pairs[1..]);
      var form := b + (c + after);
      Regroup4(a, b, c, after);
      GapsAreSkipped(a, form);
      StillApart(pairs[0].1, c, '}', rest);
      MemberIsRead(b, c + after, pairs[0]);
      OneMoreMember(form, acc, pairs[0], c + after);
      MembersAreRead(c, pairs[1..], rest, acc + [pairs[0]]);
      MoveFirst(acc, pairs);
    }
  }

  lemma Inside(open: char, s: string, close: char, rest: string) returns (body: string)
    requires |s| >= 2 && s[0] == open && s[|s| - 1] == close
    ensures body == s[1..|s| - 1] && (s + rest)[1..] == body + ([close] + rest)
  {
    body := s[1..|s| - 1];
  }

  /** What a form says is read from it, whatever follows it apart. */
  lemma {:induction false} FormIsRead(b: string, rest: string, v: Value)
    requires Says(b, v) && Apart(v, rest)
    ensures ReadJson(b + rest) == Got(v, rest)
    decreases |b|, 0
  {
    var s := b + rest;
    FormStarts(b, v);
    assert s[0] == b[0];
    NothingSkipped(s);
    ReadByHead(s);
    if b[0] == '{' {
      var body := Inside('{', b, '}', rest);
      MembersAreRead(body, v.pairs, rest, []);
      assert [] + v.pairs == v.pairs;
    } else if b[0] == '[' {
      var body := Inside('[', b, ']', rest);
      ElementsAreRead(body, v.items, rest, []);
      assert [] + v.items == v.items;
    } else if b[0] == '\"' {
      StringIsRead(b, rest, v);
    } else if v.Int? {
      NumberIsRead(b, rest, v.i);
    } else {
      LiteralIsRead(b, rest, v);
    }
  }

  lemma {:induction false} ElementsAreRead(body: string, items: seq<Value>, rest: string, acc: seq<Value>)
    requires SayElements(body, items)
    ensures ReadElements(body + ([']'] + rest), acc) == Got(List(acc + items), rest)
    decreases |body|, 2
  {
    var after := [']'] + rest;
    if items == [] {
      GapsAreSkipped(body, after);
      ElementsAtEnd(acc, rest);
      assert acc + items == acc;
    } else {
      var a, b, c :| body == a + b + c && b != "" && Gap(a) && Says(b, items[0]) && Apart(items[0], c)
                     && SayElements(c, items[1..]);
      var form := b + (c + after);
      FormStarts(b, items[0]);
      assert form[0] == b[0];
      Regroup4(a, b, c, after);
      GapsAreSkipped(a, form);
      StillApart(items[0], c, ']', rest);
      FormIsRead(b, c + after, items[0]);
      OneMoreElement(form, acc, items[0], c + after);
      ElementsAreRead(c, items[1..], rest, acc + [items[0]]);
      MoveFirst(acc, items);
    }
  }

  // ----- The reader is the grammar -----

  /** A text that says `v`: one form, with blanks around it. */
  ghost predicate IsText(s: string, v: Value) {
    exists a, b, c {:trigger Blanks(a), Says(b, v), Blanks(c)} ::
      s == a + b + c && Blanks(a) && Says(b, v) && Blanks(c)
  }

  lemma TextIsSaid(s: string, v: Value)
    requires ParseJson(s) == Some(v)
    ensures IsText(s, v)
  {
    var a := SkippedIsBlank(s);
    var s1 := SkipSpace(s);
    SkipTwice(s);
    var r := ReadJson(s1);
    var b := FormIsSaid(s1, r);
    var c := SkippedIsBlank(r.rest);
    assert c == r.rest;
    Rejoined(s, a, s1, b, r.rest);
  }

  /** A form after blanks. */
  lemma FormAhead(s: string, a: string, form: string)
    requires s == a + form && Blanks(a) && form != "" && !IsBlank(form[0])
    ensures SkipSpace(s) == form
  {
    BlanksAreSkipped(a, form);
    NothingSkipped(form);
  }

  lemma BlanksAtEnd(c: string)
    requires Blanks(c)
    ensures SkipSpace(c) == "" && (c == "" || !InNumber(c[0]))
  {
    BlanksAreSkipped(c, "");
    assert c + "" == c;
  }

  lemma TextIsRead(s: string, v: Value)
    requires IsText(s, v)
    ensures ParseJson(s) == Some(v)
  {
    var a, b, c :| s == a + b + c && Blanks(a) && Says(b, v) && Blanks(c);
    FormStarts(b, v);
    BlanksAtEnd(c);
    Regrouped(a, b, c);
    FormAhead(s, a, b + c);
    FormIsRead(b, c, v);
  }

  /** For every text and every value: the reader returns the value if and only if the text says it. */
  lemma ReaderIsGrammar(s: string, v: Value)
    ensures ParseJson(s) == Some(v) <==> IsText(s, v)
  {
    if ParseJson(s) == Some(v) {
      TextIsSaid(s, v);
    }
    if IsText(s, v) {
      TextIsRead(s, v);
    }
  }
}
