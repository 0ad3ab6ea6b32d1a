/** Which texts are EDN, and what they say: a grammar of forms, and that the reader accepts exactly its texts and
    returns what they say, in all the spellings the printer never uses: parentheses, comments, commas, signs and
    leading zeros, escapes of any character (crates/propsim-history/src/edn.rs). */
module EdnGrammar {
  import opened Ops
  import opened Text
  import opened Edn
  import opened Numerals

  // ----- The grammar -----

  predicate IsBlank(c: char) {
    c == ' ' || c == ',' || c == '\t' || c == '\n' || c == '\r' || c == '\U{0C}'
  }

  predicate IsBracket(c: char) {
    c == '(' || c == ')' || c == '[' || c == ']' || c == '{' || c == '}'
  }

  /** What ends a word. */
  predicate IsBreak(c: char) {
    IsBlank(c) || IsBracket(c) || c == '\"' || c == ';'
  }

  ghost predicate InComment(s: string, last: bool)
    decreases |s|
  {
    if s == "" then last
    else if s[0] == '\n' then Layout(s[1..], last)
    else InComment(s[1..], last)
  }

  /** Blanks, commas and comments. A comment goes on to the end of its line; where the text may end, it may also
      end the text. */
  ghost predicate Layout(s: string, last: bool)
    decreases |s|
  {
    || s == ""
    || (IsBlank(s[0]) && Layout(s[1..], last))
    || (s[0] == ';' && InComment(s[1..], last))
  }

  /** What stands between quotes and the string it stands for: any character but a quote or a backslash stands
      for itself; after a backslash `n`, `r` and `t` have a meaning and any other ASCII character stands for
      itself. */
  ghost predicate Spells(body: string, t: string)
    decreases |body|
  {
    if body == "" then t == ""
    else if body[0] == '\\' then
      |body| >= 2 && body[1] < '\U{80}' && t != "" && Spells(body[2..], t[1..])
      && t[0] == (if body[1] == 'n' then '\n' else if body[1] == 'r' then '\r' else if body[1] == 't' then '\t'
                  else body[1])
    else body[0] != '\"' && t != "" && t[0] == body[0] && Spells(body[1..], t[1..])
  }

  /** No blank, comma, bracket, quote or semicolon. */
  predicate IsWord(s: string) {
    s != "" && forall i :: 0 <= i < |s| ==> !IsBreak(s[i])
  }

  /** Keys and values in turn. */
  function Flat(pairs: seq<(Value, Value)>): seq<Value> {
    if pairs == [] then [] else [pairs[0].0, pairs[0].1] + Flat(pairs[1..])
  }

  /** A word must be kept apart from what follows. */
  ghost predicate Apart(v: Value, after: string) {
    v.List? || v.Map? || v.Str? || after == "" || IsBreak(after[0])
  }

  /** Forms for the values in order, with layout before, between and after. */
  ghost predicate SayInTurn(s: string, values: seq<Value>)
    decreases |s|, 1
  {
    if values == [] then Layout(s, false)
    else exists a, b, c {:trigger Layout(a, false), Says(b, values[0]), SayInTurn(c, values[1..])} ::
      && s == a + b + c && b != "" && Layout(a, false) && Says(b, values[0]) && Apart(values[0], c)
      && SayInTurn(c, values[1..])
  }

  /** `s` is a form, from its first character to its last, and says `v`. */
  ghost predicate Says(s: string, v: Value)
    decreases |s|, 0
  {
    if s == "" then false
    else if s[0] == '[' || s[0] == '(' then
      && |s| >= 2 && s[|s| - 1] == (if s[0] == '[' then ']' else ')')
      && v.List? && SayInTurn(s[1..|s| - 1], v.items)
    else if s[0] == '{' then
      |s| >= 2 && s[|s| - 1] == '}' && v.Map? && SayInTurn(s[1..|s| - 1], Flat(v.pairs))
    else if s[0] == '\"' then |s| >= 2 && s[|s| - 1] == '\"' && v.Str? && Spells(s[1..|s| - 1], v.s)
    else if s[0] == ':' then v.Keyword? && s == ":" + v.k && IsWord(v.k)
    else
      || (s == "nil" && v.Nil?)
      || (s == "true" && v == Bool(true))
      || (s == "false" && v == Bool(false))
      || (v.Int? && IsNumeral(s, v.i))
  }

  // ----- Layout -----

  lemma {:induction false} LayoutJoin(a: string, b: string)
    ensures Layout(a, false) && Layout(b, false) ==> Layout(a + b, false)
    ensures InComment(a, false) && Layout(b, false) ==> InComment(a + b, false)
    decreases |a|
  {
    if a == "" {
      assert a + b == b;
    } else {
      assert (a + b)[1..] == a[1..] + b;
      LayoutJoin(a[1..], b);
    }
  }

  lemma {:induction false} SkippedIsComment(s: string) returns (a: string)
    ensures s == a + SkipWs(SkipLine(s))
    ensures SkipWs(SkipLine(s)) != "" ==>
              InComment(a, false) && !IsBlank(SkipWs(SkipLine(s))[0]) && SkipWs(SkipLine(s))[0] != ';'
    ensures SkipWs(SkipLine(s)) == "" <==> InComment(s, true)
    decreases |s|, 0
  {
    if s == "" {
      a := "";
    } else {
      var b;
      if s[0] == '\n' {
        b := SkippedIsLayout(s[1..]);
      } else {
        b := SkippedIsComment(s[1..]);
      }
      a := [s[0]] + b;
      assert a[1..] == b;
    }
  }

  /** What is skipped is layout. */
  lemma {:induction false} SkippedIsLayout(s: string) returns (a: string)
    ensures s == a + SkipWs(s)
    ensures SkipWs(s) != "" ==> Layout(a, false) && !IsBlank(SkipWs(s)[0]) && SkipWs(s)[0] != ';'
    ensures SkipWs(s) == "" <==> Layout(s, true)
    decreases |s|, 1
  {
    if s == "" {
      a := "";
    } else if IsBlank(s[0]) {
      var b := SkippedIsLayout(s[1..]);
      a := [s[0]] + b;
      assert a[1..] == b;
    } else if s[0] == ';' {
      var b := SkippedIsComment(s[1..]);
      a := [s[0]] + b;
      assert a[1..] == b;
    } else {
      a := "";
    }
  }

  /** Layout is skipped. */
  lemma {:induction false} LayoutIsSkipped(a: string, s: string)
    ensures Layout(a, false) ==> SkipWs(a + s) == SkipWs(s)
    ensures InComment(a, false) ==> SkipWs(SkipLine(a + s)) == SkipWs(s)
    decreases |a|
  {
    if a == "" {
      assert a + s == s;
    } else {
      assert (a + s)[1..] == a[1..] + s;
      LayoutIsSkipped(a[1..], s);
    }
  }

  // ----- Strings and words -----

  /** `used` spells one character. */
  ghost predicate SpellsOne(used: string, c: char) {
    if used != "" && used[0] == '\\' then
      |used| == 2 && used[1] < '\U{80}'
      && c == (if used[1] == 'n' then '\n' else if used[1] == 'r' then '\r' else if used[1] == 't' then '\t'
               else used[1])
    else |used| == 1 && used[0] != '\"' && c == used[0]
  }

  lemma SpellMore(used: string, c: char, more: string, t: string)
    requires SpellsOne(used, c) && Spells(more, t)
    ensures Spells(used + more, [c] + t)
  {
    var body := used + more;
    assert body[0] == used[0] && body[|used|..] == more && ([c] + t)[1..] == t;
    assert |used| == 2 ==> body[1] == used[1];
  }

  lemma NextPiece(s: string, acc: string, r: Parsed<string>) returns (used: string, c: char, rest: string)
    requires r == ReadString(s, acc) && r.Got? && s != "" && s[0] != '\"'
    ensures s == used + rest && |rest| < |s| && SpellsOne(used, c)
    ensures r == ReadString(rest, acc + [c])
  {
    var piece := ReadPiece(s);
    used, c, rest := if s[0] == '\\' then s[..2] else s[..1], piece.c, piece.rest;
  }

  lemma {:induction false} ReadIsSpelled(s: string, acc: string, r: Parsed<string>) returns (body: string, t: string)
    requires r == ReadString(s, acc) && r.Got?
    ensures r.value == acc + t
    ensures s == body + ("\"" + r.rest) && Spells(body, t)
    decreases |s|
  {
    if s[0] == '\"' {
      body, t := "", "";
      assert s == "" + ("\"" + s[1..]) && acc == acc + "";
    } else {
      var used, c, rest := NextPiece(s, acc, r);
      var more, u := ReadIsSpelled(rest, acc + [c], r);
      body, t := used + more, [c] + u;
      SpellMore(used, c, more, u);
      AddOne(acc, c, u);
      Regrouped(used, more, "\"" + r.rest);
    }
  }

  lemma {:induction false} SpelledIsRead(body: string, t: string, rest: string, acc: string)
    requires Spells(body, t)
    ensures ReadString(body + ("\"" + rest), acc) == Got(acc + t, rest)
    decreases |body|
  {
    var s := body + ("\"" + rest);
    if body == "" {
      assert s[0] == '\"' && s[1..] == rest && acc + t == acc;
    } else if body[0] == '\\' {
      assert s[0] == body[0] && s[1..][0] == body[1];
      assert s[1..][1..] == body[2..] + ("\"" + rest);
      SpelledIsRead(body[2..], t[1..], rest, acc + [t[0]]);
      MoveFirst(acc, t);
    } else {
      assert s[0] == body[0] && s[1..] == body[1..] + ("\"" + rest);
      SpelledIsRead(body[1..], t[1..], rest, acc + [t[0]]);
      MoveFirst(acc, t);
    }
  }

  lemma BreaksAre(c: char)
    ensures IsDelim(c) <==> IsBreak(c)
  {
  }

  lemma {:induction false} TokenIsWord(s: string) returns (rest: string)
    ensures s == Token(s) + rest && s[|Token(s)|..] == rest && (rest == "" || IsBreak(rest[0]))
    ensures Token(s) != "" ==> IsWord(Token(s))
    decreases |s|
  {
    if s == "" || IsDelim(s[0]) {
      rest := s;
      if s != "" {
        BreaksAre(s[0]);
      }
    } else {
      rest := TokenIsWord(s[1..]);
      var t := Token(s);
      assert t == [s[0]] + Token(s[1..]);
      BreaksAre(s[0]);
    }
  }

  lemma WordIsToken(t: string, rest: string)
    requires IsWord(t) && (rest == "" || IsBreak(rest[0]))
    ensures Token(t + rest) == t && (t + rest)[|t|..] == rest
  {
    forall i | 0 <= i < |t| ensures !IsDelim(t[i]) {
      BreaksAre(t[i]);
    }
    if rest != "" {
      BreaksAre(rest[0]);
    }
    TokenIs(t, rest);
  }

  lemma NumeralIsWord(s: string, i: int)
    requires IsNumeral(s, i)
    ensures IsWord(s) && s[0] != ':' && s != "nil" && s != "true" && s != "false"
  {
    NumeralChars(s, i);
  }

  /** A form starts with a character that is neither layout nor a closing bracket, and says one thing. */
  lemma FormStarts(s: string, v: Value)
    requires Says(s, v)
    ensures s != "" && !IsBlank(s[0]) && s[0] !in ";)]}"
    ensures s[0] !in "{[(\":" ==> IsWord(s) && (v.Nil? || v.Bool? || v.Int?)
  {
    if s[0] !in "{[(\":" && v.Int? {
      NumeralIsWord(s, v.i);
    }
  }

  // ----- What is read was said -----

  lemma AtomIsSaid(s: string) returns (b: string)
    requires s != "" && !IsBreak(s[0]) && s[0] != ':' && ReadAtom(s).Got?
    ensures s == b + ReadAtom(s).rest && b != "" && Says(b, ReadAtom(s).value)
    ensures Apart(ReadAtom(s).value, ReadAtom(s).rest)
  {
    b := Token(s);
    var rest := TokenIsWord(s);
    BreaksAre(s[0]);
    assert b[0] == s[0];
    var v := ReadAtom(s).value;
    if v.Int? {
      IntegersAreNumerals(b, v.i);
    }
  }

  lemma KeywordIsSaid(s: string) returns (b: string)
    requires s != "" && s[0] == ':' && ReadKeyword(s[1..]).Got?
    ensures s == b + ReadKeyword(s[1..]).rest && Says(b, ReadKeyword(s[1..]).value)
    ensures Apart(ReadKeyword(s[1..]).value, ReadKeyword(s[1..]).rest)
  {
    var t := Token(s[1..]);
    var rest := TokenIsWord(s[1..]);
    b := ":" + t;
    assert s == b + rest;
  }

  lemma SayMore(a: string, b: string, c: string, v: Value, more: seq<Value>)
    requires Layout(a, false) && b != "" && Says(b, v) && Apart(v, c) && SayInTurn(c, more)
    ensures SayInTurn(a + b + c, [v] + more)
  {
    assert ([v] + more)[0] == v && ([v] + more)[1..] == more;
  }

  lemma ApartWithin(v: Value, c: string, after: string)
    requires Apart(v, c + after)
    ensures Apart(v, c)
  {
  }

  /** One more form in front. */
  lemma NextForm(s: string, a: string, a1: string, b: string, c: string, v: Value, more: seq<Value>, after: string)
    returns (body: string)
    requires s == a + (a1 + b + (c + after))
    requires Layout(a, false) && Layout(a1, false) && b != "" && Says(b, v) && Apart(v, c + after)
    requires SayInTurn(c, more)
    ensures s == body + after && SayInTurn(body, [v] + more)
  {
    body := (a + a1) + b + c;
    Regroup5(a, a1, b, c, after);
    LayoutJoin(a, a1);
    ApartWithin(v, c, after);
    SayMore(a + a1, b, c, v, more);
  }

  lemma ItemsUnfold(s: string, close: char, acc: seq<Value>, r: Parsed<Value>)
    returns (s1: string, first: Parsed<Value>)
    requires r == ReadItems(s, close, acc) && r.Got?
    ensures s1 == SkipWs(s) && s1 != ""
    ensures s1[0] == close ==> r == Got(List(acc), s1[1..])
    ensures s1[0] != close ==>
              first == ReadValue(s1) && first.Got? && r == ReadItems(first.rest, close, acc + [first.value])
  {
    s1 := SkipWs(s);
    first := ReadValue(s1);
  }

  lemma NoMoreItems(s: string, a: string, s1: string, close: char)
    requires s == a + s1 && s1 != "" && s1[0] == close && Layout(a, false)
    ensures s == a + ([close] + s1[1..]) && SayInTurn(a, [])
  {
    assert s1 == [close] + s1[1..];
  }

  lemma PairsUnfold(s: string, acc: seq<(Value, Value)>, r: Parsed<Value>)
    returns (s1: string, key: Parsed<Value>, value: Parsed<Value>)
    requires r == ReadPairs(s, acc) && r.Got?
    ensures s1 == SkipWs(s) && s1 != ""
    ensures s1[0] == '}' ==> r == Got(Map(acc), s1[1..])
    ensures s1[0] != '}' ==>
              && key == ReadValue(s1) && key.Got?
              && value == ReadValue(key.rest) && value.Got?
              && r == ReadPairs(value.rest, acc + [(key.value, value.value)])
  {
    s1 := SkipWs(s);
    key := ReadValue(s1);
    value := if key.Got? then ReadValue(key.rest) else Bad;
  }

  /** One more key and value in front. */
  lemma NextPair(s: string, a: string, a1: string, b1: string, k: Value, a2: string, b2: string, v: Value, c: string,
      more: seq<(Value, Value)>, after: string) returns (body: string)
    requires s == a + (a1 + b1 + (a2 + b2 + (c + after)))
    requires Layout(a, false) && Layout(a1, false) && Layout(a2, false) && SayInTurn(c, Flat(more))
    requires b1 != "" && Says(b1, k) && Apart(k, a2 + b2 + (c + after))
    requires b2 != "" && Says(b2, v) && Apart(v, c + after)
    ensures s == body + after && SayInTurn(body, Flat([(k, v)] + more))
  {
    var rest := a2 + b2 + (c + after);
    assert Layout("", false) && rest == "" + rest;
    var inner := NextForm(rest, "", a2, b2, c, v, Flat(more), after);
    body := NextForm(s, a, a1, b1, inner, k, [v] + Flat(more), after);
    assert Flat([(k, v)] + more) == [k] + ([v] + Flat(more)) by {
      assert ([(k, v)] + more)[1..] == more;
    }
  }

  lemma {:induction false} PairsAreSaid(s: string, acc: seq<(Value, Value)>, r: Parsed<Value>)
    returns (body: string, pairs: seq<(Value, Value)>)
    requires r == ReadPairs(s, acc) && r.Got?
    ensures r.value == Map(acc + pairs)
    ensures s == body + (['}'] + r.rest) && SayInTurn(body, Flat(pairs))
    decreases |s|, 2
  {
    var a := SkippedIsLayout(s);
    var s1, key, value := PairsUnfold(s, acc, r);
    if s1[0] == '}' {
      body, pairs := a, [];
      NoMoreItems(s, a, s1, '}');
      assert acc + pairs == acc;
    } else {
      var a1, b1 := ReadIsSaid(s1, key);
      var a2, b2 := ReadIsSaid(key.rest, value);
      var c, more := PairsAreSaid(value.rest, acc + [(key.value, value.value)], r);
      body := NextPair(s, a, a1, b1, key.value, a2, b2, value.value, c, more, ['}'] + r.rest);
      pairs := [(key.value, value.value)] + more;
      AddOne(acc, (key.value, value.value), more);
    }
  }

  lemma Bracketed(open: char, body: string, close: char, rest: string)
    ensures [open] + (body + ([close] + rest)) == ([open] + body + [close]) + rest
    ensures ([open] + body + [close])[1..|[open] + body + [close]| - 1] == body
  {
  }

  lemma ListIsSaid(open: char, body: string, close: char, items: seq<Value>)
    requires SayInTurn(body, items) && ((open == '[' && close == ']') || (open == '(' && close == ')'))
    ensures Says([open] + body + [close], List(items))
  {
    Bracketed(open, body, close, "");
  }

  lemma MapIsSaid(body: string, pairs: seq<(Value, Value)>)
    requires SayInTurn(body, Flat(pairs))
    ensures Says(['{'] + body + ['}'], Map(pairs))
  {
    Bracketed('{', body, '}', "");
  }

  lemma StringIsSaid(body: string, t: string)
    requires Spells(body, t)
    ensures Says(['\"'] + body + ['\"'], Str(t))
  {
    Bracketed('\"', body, '\"', "");
  }

  /** What is read, by the first character. */
  lemma FormUnfold(s: string, r: Parsed<Value>)
    requires r == ReadValue(s) && r.Got? && SkipWs(s) == s && s != ""
    ensures s[0] == '{' ==> r == ReadPairs(s[1..], [])
    ensures s[0] == '[' ==> r == ReadItems(s[1..], ']', [])
    ensures s[0] == '(' ==> r == ReadItems(s[1..], ')', [])
    ensures s[0] == '\"' ==>
              ReadString(s[1..], "").Got?
              && r == Got(Str(ReadString(s[1..], "").value), ReadString(s[1..], "").rest)
    ensures s[0] == ':' ==> r == ReadKeyword(s[1..])
    ensures s[0] !in "{[(\":" ==> r == ReadAtom(s) && s[0] !in ")]}"
  {
    BreaksAre(s[0]);
  }

  /** A form at the start of a text that starts with one. */
  lemma {:induction false} FormIsSaid(s: string, r: Parsed<Value>) returns (b: string)
    requires r == ReadValue(s) && r.Got? && SkipWs(s) == s && s != "" && !IsBlank(s[0]) && s[0] != ';'
    ensures s == b + r.rest && b != "" && Says(b, r.value) && Apart(r.value, r.rest)
    decreases |s|, 0
  {
    assert s == [s[0]] + s[1..];
    FormUnfold(s, r);
    if s[0] == '{' {
      var body, pairs := PairsAreSaid(s[1..], [], r);
      assert [] + pairs == pairs;
      b := ['{'] + body + ['}'];
      Bracketed('{', body, '}', r.rest);
      MapIsSaid(body, pairs);
    } else if s[0] == '[' || s[0] == '(' {
      var close := if s[0] == '[' then ']' else ')';
      var body, items := ItemsAreSaid(s[1..], close, [], r);
      assert [] + items == items;
      b := [s[0]] + body + [close];
      Bracketed(s[0], body, close, r.rest);
      ListIsSaid(s[0], body, close, items);
    } else if s[0] == '\"' {
      var body, t := ReadIsSpelled(s[1..], "", ReadString(s[1..], ""));
      assert "" + t == t;
      b := ['\"'] + body + ['\"'];
      Bracketed('\"', body, '\"', r.rest);
      StringIsSaid(body, t);
    } else if s[0] == ':' {
      b := KeywordIsSaid(s);
    } else {
      b := AtomIsSaid(s);
    }
  }

  lemma SkipTwice(s: string)
    requires SkipWs(s) != ""
    ensures SkipWs(SkipWs(s)) == SkipWs(s) && ReadValue(SkipWs(s)) == ReadValue(s)
    ensures !IsBlank(SkipWs(s)[0]) && SkipWs(s)[0] != ';'
  {
    var a := SkippedIsLayout(s);
  }

  /** What is read was said: layout, and then a form that says it, apart from what follows. */
  lemma {:induction false} ReadIsSaid(s: string, r: Parsed<Value>) returns (a: string, b: string)
    requires r == ReadValue(s) && r.Got?
    ensures s == a + b + r.rest && Layout(a, false) && b != "" && Says(b, r.value) && Apart(r.value, r.rest)
    decreases |s|, 1
  {
    a := SkippedIsLayout(s);
    SkipTwice(s);
    b := FormIsSaid(SkipWs(s), r);
    Rejoined(s, a, SkipWs(s), b, r.rest);
  }

  lemma {:induction false} ItemsAreSaid(s: string, close: char, acc: seq<Value>, r: Parsed<Value>)
    returns (body: string, items: seq<Value>)
    requires r == ReadItems(s, close, acc) && r.Got?
    ensures r.value == List(acc + items)
    ensures s == body + ([close] + r.rest) && SayInTurn(body, items)
    decreases |s|, 2
  {
    var a := SkippedIsLayout(s);
    var s1, first := ItemsUnfold(s, close, acc, r);
    if s1[0] == close {
      body, items := a, [];
      NoMoreItems(s, a, s1, close);
      assert acc + items == acc;
    } else {
      var a1, b := ReadIsSaid(s1, first);
      var c, more := ItemsAreSaid(first.rest, close, acc + [first.value], r);
      body := NextForm(s, a, a1, b, c, first.value, more, [close] + r.rest);
      items := [first.value] + more;
      AddOne(acc, first.value, more);
    }
  }

  // ----- What is said is read -----

  /** `v` is in the grammar what the atom `b` says. */
  lemma AtomIsRead(b: string, rest: string, v: Value)
    requires Says(b, v) && b[0] !in "{[(\":" && Apart(v, rest)
    ensures ReadAtom(b + rest) == Got(v, rest)
  {
    FormStarts(b, v);
    WordIsToken(b, rest);
    if v.Int? {
      NumeralIsWord(b, v.i);
      IntegersAreNumerals(b, v.i);
    }
  }

  lemma KeywordIsRead(b: string, rest: string, v: Value)
    requires Says(b, v) && b[0] == ':' && Apart(v, rest)
    ensures ReadKeyword((b + rest)[1..]) == Got(v, rest)
  {
    assert (b + rest)[1..] == v.k + rest;
    WordIsToken(v.k, rest);
  }

  lemma NothingSkipped(s: string)
    requires s != "" && !IsBlank(s[0]) && s[0] != ';'
    ensures SkipWs(s) == s
  {
  }

  /** What follows the first character decides what is read. */
  lemma ReadByHead(s: string)
    requires s != "" && SkipWs(s) == s
    ensures s[0] == '{' ==> ReadValue(s) == ReadPairs(s[1..], [])
    ensures s[0] == '[' ==> ReadValue(s) == ReadItems(s[1..], ']', [])
    ensures s[0] == '(' ==> ReadValue(s) == ReadItems(s[1..], ')', [])
    ensures s[0] == '\"' && ReadString(s[1..], "").Got? ==>
              ReadValue(s) == Got(Str(ReadString(s[1..], "").value), ReadString(s[1..], "").rest)
    ensures s[0] == ':' ==> ReadValue(s) == ReadKeyword(s[1..])
    ensures s[0] !in "{[(\":" ==> ReadValue(s) == ReadAtom(s)
  {
  }

  lemma ItemsAtEnd(s: string, close: char, acc: seq<Value>, rest: string)
    requires SkipWs(s) == [close] + rest
    ensures ReadItems(s, close, acc) == Got(List(acc), rest)
  {
    assert ([close] + rest)[1..] == rest;
  }

  lemma PairsAtEnd(s: string, acc: seq<(Value, Value)>, rest: string)
    requires SkipWs(s) == ['}'] + rest
    ensures ReadPairs(s, acc) == Got(Map(acc), rest)
  {
    assert (['}'] + rest)[1..] == rest;
  }

  lemma OneMoreItem(s: string, close: char, acc: seq<Value>, form: string, v: Value, rest: string)
    requires SkipWs(s) == form && form != "" && form[0] != close && ReadValue(form) == Got(v, rest)
    ensures ReadItems(s, close, acc) == ReadItems(rest, close, acc + [v])
  {
  }

  lemma OneMorePair(s: string, acc: seq<(Value, Value)>, form: string, k: Value, rest: string, v: Value, rest': string)
    requires SkipWs(s) == form && form != "" && form[0] != '}' && ReadValue(form) == Got(k, rest)
    requires ReadValue(rest) == Got(v, rest')
    ensures ReadPairs(s, acc) == ReadPairs(rest', acc + [(k, v)])
  {
  }

  /** The form that follows layout, with all that follows it. */
  lemma FormAhead(s: string, a: string, form: string)
    requires s == a + form && Layout(a, false) && form != "" && !IsBlank(form[0]) && form[0] != ';'
    ensures SkipWs(s) == form && SkipWs(form) == form
  {
    LayoutIsSkipped(a, form);
    NothingSkipped(form);
  }

  lemma StillApart(v: Value, c: string, close: char, rest: string)
    requires Apart(v, c) && IsBracket(close)
    ensures Apart(v, c + ([close] + rest))
  {
    var s := c + ([close] + rest);
    assert s[0] == if c == "" then close else c[0];
  }

  /** The first form of a body, with all that follows. */
  lemma FirstForm(body: string, a: string, b: string, c: string, v: Value, close: char, rest: string)
    returns (form: string)
    requires body == a + b + c && Layout(a, false) && Says(b, v) && Apart(v, c)
    requires close == ']' || close == ')' || close == '}'
    ensures form == b + (c + ([close] + rest)) && SkipWs(body + ([close] + rest)) == form == SkipWs(form)
    ensures form != "" && form[0] != close && Apart(v, c + ([close] + rest))
  {
    form := b + (c + ([close] + rest));
    FormStarts(b, v);
    assert form[0] == b[0];
    Regroup4(a, b, c, [close] + rest);
    FormAhead(body + ([close] + rest), a, form);
    StillApart(v, c, close, rest);
  }

  lemma FlatParts(pairs: seq<(Value, Value)>)
    requires pairs != []
    ensures Flat(pairs) != [] && Flat(pairs)[0] == pairs[0].0
    ensures Flat(pairs)[1..] != [] && Flat(pairs)[1..][0] == pairs[0].1
    ensures Flat(pairs)[1..][1..] == Flat(pairs[1..])
  {
  }

  lemma SameRead(s: string, t: string)
    requires SkipWs(s) == SkipWs(t)
    ensures ReadValue(s) == ReadValue(t)
  {
  }

  lemma {:induction false} PairsAreRead(body: string, pairs: seq<(Value, Value)>, rest: string,
      acc: seq<(Value, Value)>)
    requires SayInTurn(body, Flat(pairs))
    ensures ReadPairs(body + (['}'] + rest), acc) == Got(Map(acc + pairs), rest)
    decreases |body|, 2
  {
    var after := ['}'] + rest;
    if pairs == [] {
      LayoutIsSkipped(body, after);
      NothingSkipped(after);
      PairsAtEnd(body + after, acc, rest);
      assert acc + pairs == acc;
    } else {
      FlatParts(pairs);
      var k, v, more := pairs[0].0, pairs[0].1, Flat(pairs)[1..];
      var a, b, c :| body == a + b + c && b != "" && Layout(a, false) && Says(b, k) && Apart(k, c)
                     && SayInTurn(c, more);
      var a', b', d :| c == a' + b' + d && b' != "" && Layout(a', false) && Says(b', v) && Apart(v, d)
                       && SayInTurn(d, more[1..]);
      var form := FirstForm(body, a, b, c, k, '}', rest);
      FormIsRead(b, c + after, k);
      var form' := FirstForm(c, a', b', d, v, '}', rest);
      FormIsRead(b', d + after, v);
      SameRead(c + after, form');
      OneMorePair(body + after, acc, form, k, c + after, v, d + after);
      PairsAreRead(d, pairs[1..], rest, acc + [(k, v)]);
      MoveFirst(acc, pairs);
    }
  }

  lemma Inside(open: char, s: string, close: char, rest: string) returns (body: string)
    requires |s| >= 2 && s[0] == open && s[|s| - 1] == close
    ensures body == s[1..|s| - 1] && (s + rest)[1..] == body + ([close] + rest)
  {
    body := s[1..|s| - 1];
  }

  /** What a form says is read from it, whatever follows it apart. */
  lemma {:induction false} FormIsRead(b: string, rest: string, v: Value)
    requires Says(b, v) && Apart(v, rest)
    ensures ReadValue(b + rest) == Got(v, rest)
    decreases |b|, 0
  {
    var s := b + rest;
    FormStarts(b, v);
    assert s[0] == b[0];
    NothingSkipped(s);
    ReadByHead(s);
    if b[0] == '{' {
      var body := Inside('{', b, '}', rest);
      PairsAreRead(body, v.pairs, rest, []);
      assert [] + v.pairs == v.pairs;
    } else if b[0] == '[' || b[0] == '(' {
      var close := if b[0] == '[' then ']' else ')';
      var body := Inside(b[0], b, close, rest);
      ItemsAreRead(body, close, v.items, rest, []);
      assert [] + v.items == v.items;
    } else if b[0] == '\"' {
      var body := Inside('\"', b, '\"', rest);
      SpelledIsRead(body, v.s, rest, "");
      assert "" + v.s == v.s;
    } else if b[0] == ':' {
      KeywordIsRead(b, rest, v);
    } else {
      AtomIsRead(b, rest, v);
    }
  }

  lemma {:induction false} ItemsAreRead(body: string, close: char, values: seq<Value>, rest: string, acc: seq<Value>)
    requires SayInTurn(body, values) && (close == ']' || close == ')')
    ensures ReadItems(body + ([close] + rest), close, acc) == Got(List(acc + values), rest)
    decreases |body|, 2
  {
    var after := [close] + rest;
    if values == [] {
      LayoutIsSkipped(body, after);
      NothingSkipped(after);
      ItemsAtEnd(body + after, close, acc, rest);
      assert acc + values == acc;
    } else {
      var a, b, c :| body == a + b + c && b != "" && Layout(a, false) && Says(b, values[0]) && Apart(values[0], c)
                     && SayInTurn(c, values[1..]);
      var form := FirstForm(body, a, b, c, values[0], close, rest);
      FormIsRead(b, c + after, values[0]);
      OneMoreItem(body + after, close, acc, form, values[0], c + after);
      ItemsAreRead(c, close, values[1..], rest, acc + [values[0]]);
      MoveFirst(acc, values);
    }
  }

  // ----- The reader is the grammar -----

  /** A text that says `v`: one form, with layout around it. */
  ghost predicate IsText(s: string, v: Value) {
    exists a, b, c {:trigger Layout(a, false), Says(b, v), Layout(c, true)} ::
      s == a + b + c && Layout(a, false) && Says(b, v) && Apart(v, c) && Layout(c, true)
  }

  lemma TextIsSaid(s: string, v: Value)
    requires ParseEdn(s) == Some(v)
    ensures IsText(s, v)
  {
    var a := SkippedIsLayout(s);
    var s1 := SkipWs(s);
    SkipTwice(s);
    var r := ReadValue(s1);
    var b := FormIsSaid(s1, r);
    var _ := SkippedIsLayout(r.rest);
    Rejoined(s, a, s1, b, r.rest);
  }

  lemma TextIsRead(s: string, v: Value)
    requires IsText(s, v)
    ensures ParseEdn(s) == Some(v)
  {
    var a, b, c :| s == a + b + c && Layout(a, false) && Says(b, v) && Apart(v, c) && Layout(c, true);
    FormStarts(b, v);
    assert s == a + (b + c);
    LayoutIsSkipped(a, b + c);
    NothingSkipped(b + c);
    FormIsRead(b, c, v);
    var _ := SkippedIsLayout(c);
  }

  /** For every text and every value: the reader returns the value if and only if the text says it. */
  lemma ReaderIsGrammar(s: string, v: Value)
    ensures ParseEdn(s) == Some(v) <==> IsText(s, v)
  {
    if ParseEdn(s) == Some(v) {
      TextIsSaid(s, v);
    }
    if IsText(s, v) {
      TextIsRead(s, v);
    }
  }
}
