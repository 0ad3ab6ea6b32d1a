/** What becomes of a history that is written and read again, in either format: exactly which
    histories come back (crates/propsim-history/src/history.rs). */
module HistoryRoundTrip {
  import opened Ops
  import opened Text
  import opened Edn
  import opened Json
  import opened EdnCodec
  import opened History

  // ----- JSON comes back as it is seen -----

  function SeenEntries(h: seq<OpEntry>): (r: seq<OpEntry>)
    ensures |r| == |h| && forall i :: 0 <= i < |h| ==> r[i] == h[i].(value := Seen(h[i].value))
  {
    if h == [] then [] else [h[0].(value := Seen(h[0].value))] + SeenEntries(h[1..])
  }

  lemma SeenField(name: string, v: Value)
    ensures SeenPair((Keyword(name), v)) == (Keyword(name), Seen(v))
  {
    assert (":" + name)[1..] == name;
  }

  lemma SeenLabelled(values: seq<Value>)
    ensures SeenPairs(Labelled(values)) == Labelled(SeenItems(values))
  {
    forall i: nat | i < |values| ensures SeenPairs(Labelled(values))[i] == Labelled(SeenItems(values))[i] {
      SeenField(Field(i), values[i]);
    }
  }

  lemma SeenValues(e: OpEntry)
    requires Fits(e)
    ensures SeenItems(HeadValues(e) + [Keyword(e.f), e.value]) == HeadValues(e) + [Keyword(e.f), Seen(e.value)]
  {
    var values := HeadValues(e) + [Keyword(e.f), e.value];
    assert forall i :: 0 <= i < 6 ==> Seen(values[i]) == values[i];
  }

  lemma SeenEntry(e: OpEntry)
    requires Fits(e)
    ensures ValueToEntry(Seen(EntryToValue(e))) == Some(e.(value := Seen(e.value)))
  {
    var values := HeadValues(e) + [Keyword(e.f), e.value];
    SeenLabelled(values);
    SeenValues(e);
    assert Seen(EntryToValue(e)) == Map(Labelled(HeadValues(e) + [Keyword(e.f), Seen(e.value)]));
    EntryReads(e, Seen(e.value));
  }

  lemma EntriesStep(v: Value, items: seq<Value>)
    ensures EntriesOf([v] + items) == Prepend(ValueToEntry(v), EntriesOf(items))
  {
    assert ([v] + items)[1..] == items;
  }

  lemma {:induction false} SeenEntriesRead(h: seq<OpEntry>)
    requires AllFit(h)
    ensures EntriesOf(SeenItems(Values(h))) == Some(SeenEntries(h))
  {
    if h == [] {
    } else {
      var e, more := h[0], h[1..];
      SeenEntriesRead(more);
      assert EntriesOf([Seen(EntryToValue(e))] + SeenItems(Values(more))) ==
          Some([e.(value := Seen(e.value))] + SeenEntries(more)) by {
        EntriesStep(Seen(EntryToValue(e)), SeenItems(Values(more)));
        SeenEntry(e);
      }
      assert SeenItems(Values(h)) == [Seen(EntryToValue(e))] + SeenItems(Values(more));
    }
  }

  lemma Enclosed(left: string, body: string, right: string)
    ensures left + body + right == left + (body + right)
  {
  }

  lemma MembersBegin(pairs: seq<(Value, Value)>)
    requires pairs != []
    ensures MembersText(pairs) != "" && MembersText(pairs)[0] == '\"'
  {
    var p := pairs[0];
    KeyTextIs(p.0);
    assert KeyText(p.0)[0] == '\"';
    assert MemberText(p)[0] == KeyText(p.0)[0];
  }

  lemma SniffHead(members: string, rest: string)
    requires members != "" && members[0] == '\"'
    ensures var s := "[" + ("{" + (members + rest));
            TrimStart(s) == s && IsSequence(s) && LooksLikeJson(s)
  {
    var s := "[" + ("{" + (members + rest));
    var body := members + rest;
    assert s[1..] == "{" + body;
    assert s[1..][1..] == body;
    assert AfterBrace(s) == AfterBrace(s[1..]) == Some(body);
    assert TrimStart(body) == body;
  }

  lemma ArrayIsSniffed(pairs: seq<(Value, Value)>, items: seq<Value>)
    requires pairs != [] && items != [] && items[0] == Map(pairs)
    ensures var s := JsonText(List(items)); TrimStart(s) == s && IsSequence(s) && LooksLikeJson(s)
  {
    var members, tail := MembersText(pairs), ElementsTail(items[1..], "]");
    MembersBegin(pairs);
    ElementsSplit(items, "]");
    Enclosed("[", ElementsText(items), "]");
    Regroup("{", members, "}", tail);
    SniffHead(members, "}" + tail);
  }

  /** A JSON history is told from an EDN one. */
  lemma {:induction false} JsonIsSniffed(h: seq<OpEntry>)
    requires AllFit(h) && h != []
    ensures var s := ToJson(h); TrimStart(s) == s && IsSequence(s) && LooksLikeJson(s)
  {
    ArrayIsSniffed(EntryToValue(h[0]).pairs, Values(h));
  }

  /** An empty array has no key to tell its format by, and is read as EDN. */
  lemma EmptyArray()
    ensures FromJepsen(ToJson([])) == Some([])
  {
    EdnRoundTrip(List([]));
    assert EdnText(List([])) == "[]" == ToJson([]);
    var s := "[]";
    assert s[1..] == "]" && s[1..][1..] == "";
    assert AfterBrace(s[1..]) == AfterBrace(s[1..][1..]);
    assert TrimStart(s) == s;
  }

  lemma {:induction false} JsonHistoryReads(h: seq<OpEntry>)
    requires AllFit(h)
    ensures FromJepsen(ToJson(h)) == Some(SeenEntries(h))
  {
    if h == [] {
      EmptyArray();
    } else {
      JsonIsSniffed(h);
      JsonRoundTrip(List(Values(h)));
      SeenEntriesRead(h);
      assert FromSequence(ToJson(h)) == Some(SeenEntries(h));
    }
  }

  lemma {:induction false} SeenEntriesSame(h: seq<OpEntry>)
    ensures SeenEntries(h) == h <==> forall i :: 0 <= i < |h| ==> JsonOk(h[i].value)
  {
    forall i | 0 <= i < |h| ensures SeenEntries(h)[i] == h[i] <==> JsonOk(h[i].value) {
      SeenUnchanged(h[i].value);
    }
    if forall i :: 0 <= i < |h| ==> JsonOk(h[i].value) {
      assert SeenEntries(h) == h;
    }
  }

  /** A JSON round trip keeps every entry and every timestamp, index and process over the whole
      range of their types; payloads come back as JSON shows them. So a history survives exactly
      when all its payloads do. */
  lemma {:induction false} JsonHistoryRoundTrip(h: seq<OpEntry>)
    requires AllFit(h)
    ensures FromJepsen(ToJson(h)) == Some(SeenEntries(h))
    ensures FromJepsen(ToJson(h)) == Some(h) <==> forall i :: 0 <= i < |h| ==> JsonOk(h[i].value)
  {
    JsonHistoryReads(h);
    SeenEntriesSame(h);
  }

  // ----- EDN comes back whole -----

  lemma {:induction false} NoBreakInPairs(pairs: seq<(Value, Value)>)
    requires forall i :: 0 <= i < |pairs| ==> Printable(pairs[i].0) && Printable(pairs[i].1)
    ensures '\n' !in PairsText(pairs) && '\r' !in PairsText(pairs)
    decreases pairs
  {
    if pairs == [] {
    } else {
      NoBreakInPair(pairs[0]);
      NoBreakInPairs(pairs[1..]);
    }
  }

  lemma {:induction false} NoBreakInItems(items: seq<Value>)
    requires forall i :: 0 <= i < |items| ==> Printable(items[i])
    ensures '\n' !in ItemsText(items) && '\r' !in ItemsText(items)
    decreases items
  {
    if items == [] {
    } else {
      NoLineBreak(items[0]);
      NoBreakInItems(items[1..]);
    }
  }

  lemma {:induction false} NoLineBreak(v: Value)
    requires Printable(v)
    ensures '\n' !in EdnText(v) && '\r' !in EdnText(v)
    decreases v
  {
    match v
    case Str(s) => EscapeHasNoBreak(s);
    case Int(i) => IntChars(i);
    case List(items) => NoBreakInItems(items);
    case Map(pairs) => NoBreakInPairs(pairs);
    case _ =>
  }

  lemma NoBreakInPair(p: (Value, Value))
    requires Printable(p.0) && Printable(p.1)
    ensures '\n' !in PairText(p) && '\r' !in PairText(p)
    decreases p
  {
    NoLineBreak(p.0);
    NoLineBreak(p.1);
  }

  lemma {:induction false} LineEndIs(line: string, rest: string)
    requires '\n' !in line
    ensures LineEnd(line + ("\n" + rest)) == |line|
  {
    if line == "" {
      assert line + ("\n" + rest) == "\n" + rest;
    } else {
      assert (line + ("\n" + rest))[1..] == line[1..] + ("\n" + rest);
      LineEndIs(line[1..], rest);
    }
  }

  lemma FirstLine(line: string, rest: string)
    requires '\n' !in line
    ensures Lines(line + ("\n" + rest)) == [StripReturn(line)] + Lines(rest)
  {
    var s := line + ("\n" + rest);
    LineEndIs(line, rest);
    assert s[..|line|] == line && s[|line| + 1..] == rest;
  }

  /** An entry whose function is a keyword name and whose payload can be printed. */
  predicate Legible(e: OpEntry) {
    IsKeywordName(e.f) && Printable(e.value)
  }

  predicate IsWord(s: string) {
    s != "" && forall i :: 0 <= i < |s| ==> 'a' <= s[i] <= 'z'
  }

  lemma WordsAreNames(s: string)
    requires IsWord(s)
    ensures IsKeywordName(s)
  {
    forall i | 0 <= i < |s| ensures !IsDelim(s[i]) {
    }
  }

  lemma FieldIsName(i: nat)
    ensures IsKeywordName(Field(i))
  {
    WordsAreNames(Field(i));
  }

  lemma LabelledIsPrintable(values: seq<Value>)
    requires forall i :: 0 <= i < |values| ==> Printable(values[i])
    ensures forall i :: 0 <= i < |values| ==> Printable(Labelled(values)[i].0) && Printable(Labelled(values)[i].1)
  {
    forall i: nat | 0 <= i < |values| ensures Printable(Labelled(values)[i].0) {
      FieldIsName(i);
    }
  }

  lemma HeadIsPrintable(e: OpEntry)
    requires Fits(e)
    ensures forall i :: 0 <= i < 5 ==> Printable(HeadValues(e)[i])
  {
    WordsAreNames(ClockName(e.time.clock));
    WordsAreNames(KindName(e.kind));
  }

  lemma EntryIsPrintable(e: OpEntry)
    requires Fits(e) && Legible(e)
    ensures Printable(EntryToValue(e))
  {
    HeadIsPrintable(e);
    LabelledIsPrintable(HeadValues(e) + [Keyword(e.f), e.value]);
  }

  lemma LegibleLine(e: OpEntry)
    requires Fits(e) && Legible(e)
    ensures '\n' !in EntryLine(e) && '\r' !in EntryLine(e) && EntryLine(e) != "" && EntryLine(e)[0] == '{'
    ensures FromLine(EntryLine(e)) == Some(e)
  {
    var v := EntryToValue(e);
    EntryIsPrintable(e);
    NoLineBreak(v);
    EdnRoundTrip(v);
    assert ValueToEntry(v) == Some(e) by {
      EntryReads(e, e.value);
    }
  }

  lemma LineFirst(line: string, rest: string)
    requires '\n' !in line && '\r' !in line && line != "" && line[0] == '{'
    ensures FromLines(Lines(line + ("\n" + rest))) == Prepend(FromLine(line), FromLines(Lines(rest)))
  {
    FirstLine(line, rest);
    assert StripReturn(line) == line;
    assert ([line] + Lines(rest))[1..] == Lines(rest);
  }

  lemma {:induction false} LegibleFirst(h: seq<OpEntry>)
    requires AllFit(h) && h != [] && Legible(h[0])
    ensures FromLines(Lines(ToEdn(h))) == Prepend(Some(h[0]), FromLines(Lines(ToEdn(h[1..]))))
  {
    LegibleLine(h[0]);
    LineFirst(EntryLine(h[0]), ToEdn(h[1..]));
  }

  /** Every payload that a line-by-line reader returns could have been printed. */
  lemma {:induction false} LinesArePrintable(lines: seq<string>)
    requires FromLines(lines).Some?
    ensures forall i :: 0 <= i < |FromLines(lines).value| ==> Printable(FromLines(lines).value[i].value)
  {
    if lines == [] {
    } else {
      LinesArePrintable(lines[1..]);
      if !IsBlank(lines[0]) {
        ReadIsPrintable(SkipWs(lines[0]));
      }
    }
  }

  function HeadText(e: OpEntry): string
    requires Fits(e)
  {
    PairsText(Labelled(HeadValues(e)))
  }

  lemma LabelledOne(values: seq<Value>, v: Value)
    ensures Labelled(values + [v]) == Labelled(values) + [(Keyword(Field(|values|)), v)]
  {
    assert (values + [v])[..|values|] == values;
  }

  lemma FIsRead(after: string)
    ensures ReadValue(":f :" + after) == Got(Keyword("f"), " :" + after)
  {
    var named := ":f :" + after;
    ByHead(named);
    assert named[1..] == "f" + (" :" + after);
    TokenIs("f", " :" + after);
  }

  lemma KeywordIsRead(after: string)
    ensures ReadValue(" :" + after) == ReadKeyword(after)
  {
    var value := ":" + after;
    assert " :" + after == " " + value;
    SpacedReads(value);
    ByHead(value);
    assert value[1..] == after;
  }

  lemma NameIsRead(after: string, acc: seq<(Value, Value)>)
    ensures Token(after) == "" ==> ReadPairs(", :f :" + after, acc) == Bad
    ensures Token(after) != "" ==>
              (ReadPairs(", :f :" + after, acc)
               == ReadPairs(after[|Token(after)|..], acc + [(Keyword("f"), Keyword(Token(after)))]))
  {
    var named := ":f :" + after;
    assert ", :f :" + after == ", " + named;
    LeadingSpace(named);
    SkipNothing(named);
    FIsRead(after);
    KeywordIsRead(after);
  }

  /** Everything up to the function name is read, and then whatever the name seems to be. */
  lemma CutNameReads(e: OpEntry, after: string)
    requires Fits(e)
    ensures var read := ReadPairs(HeadText(e) + (", :f :" + after), []);
            var t := Token(after);
            if t == "" then read == Bad else read == ReadPairs(after[|t|..], Labelled(HeadValues(e) + [Keyword(t)]))
  {
    var head, t := Labelled(HeadValues(e)), Token(after);
    HeadIsPrintable(e);
    LabelledIsPrintable(HeadValues(e));
    PairsRead(head, ", :f :" + after, []);
    assert [] + head == head;
    assert ReadPairs(HeadText(e) + (", :f :" + after), []) == ReadPairs(", :f :" + after, head);
    NameIsRead(after, head);
    assert Labelled(HeadValues(e) + [Keyword(t)]) == head + [(Keyword("f"), Keyword(t))] by {
      LabelledOne(HeadValues(e), Keyword(t));
    }
  }

  lemma NameInPairs(line: string, values: seq<Value>)
    requires |values| == 6 && values[FUNCTION].Keyword?
    requires ParseEdn(line).Some? ==> ParseEdn(line).value.Map? && Labelled(values) <= ParseEdn(line).value.pairs
    ensures FromLine(line).Some? ==> FromLine(line).value.f == values[FUNCTION].k
  {
    if ParseEdn(line).Some? {
      FieldFound(values, ParseEdn(line).value.pairs, FUNCTION);
    }
  }

  /** Pairs already read stay. */
  lemma {:induction false} PairsGrow(s: string, acc: seq<(Value, Value)>)
    ensures ReadPairs(s, acc).Got? ==> ReadPairs(s, acc).value.Map? && acc <= ReadPairs(s, acc).value.pairs
    decreases |s|
  {
    var s1 := SkipWs(s);
    if s1 == "" || s1[0] == '}' {
    } else {
      var k := ReadValue(s1);
      if k.Got? {
        var v := ReadValue(k.rest);
        if v.Got? {
          PairsGrow(v.rest, acc + [(k.value, v.value)]);
        }
      }
    }
  }

  lemma ParsedPairs(body: string, rest: string, read: seq<(Value, Value)>)
    requires ReadPairs(body, []) == Bad || ReadPairs(body, []) == ReadPairs(rest, read)
    ensures var v := ParseEdn("{" + body);
            if ReadPairs(body, []) == Bad then v == None else v.Some? ==> v.value.Map? && read <= v.value.pairs
  {
    var line := "{" + body;
    assert line[1..] == body;
    SkipNothing(line);
    ByHead(line);
    PairsGrow(rest, read);
  }

  /** What is no keyword name is not read back as the function, whatever follows. */
  lemma CutName(e: OpEntry, after: string)
    requires Fits(e) && !IsKeywordName(e.f)
    ensures var line := "{" + (HeadText(e) + (", :f :" + after));
            FromLine(line).Some? ==> FromLine(line).value.f != e.f
  {
    var body := HeadText(e) + (", :f :" + after);
    var t, values := Token(after), HeadValues(e) + [Keyword(Token(after))];
    CutNameReads(e, after);
    ParsedPairs(body, after[|t|..], Labelled(values));
    if t == "" {
    } else {
      NameInPairs("{" + body, values);
      assert IsKeywordName(t);
    }
  }

  /** The text of a line from the function name on. */
  function AfterF(e: OpEntry): string {
    e.f + (", " + PairText((Keyword("value"), e.value)) + "}")
  }

  lemma OneByOne<T>(s: seq<T>, a: T, b: T)
    ensures s + [a] + [b] == s + [a, b]
  {
  }

  lemma LabelledTwo(values: seq<Value>, f: Value, payload: Value)
    ensures Labelled(values + [f, payload])
         == Labelled(values) + [(Keyword(Field(|values|)), f), (Keyword(Field(|values| + 1)), payload)]
  {
    LabelledOne(values, f);
    LabelledOne(values + [f], payload);
    OneByOne(values, f, payload);
    OneByOne(Labelled(values), (Keyword(Field(|values|)), f), (Keyword(Field(|values| + 1)), payload));
  }

  lemma TwoMore(pairs: seq<(Value, Value)>, p: (Value, Value), q: (Value, Value))
    requires pairs != []
    ensures PairsText(pairs + [p, q]) == PairsText(pairs) + ", " + PairText(p) + ", " + PairText(q)
  {
    PairsSnoc(pairs, p);
    PairsSnoc(pairs + [p], q);
    assert pairs + [p] + [q] == pairs + [p, q];
  }

  lemma LineSplit(head: string, tag: string, f: string, payload: string)
    ensures "{" + (head + ", " + (tag + f) + ", " + payload) + "}"
         == "{" + (head + (", " + tag + (f + (", " + payload + "}"))))
  {
  }

  lemma LineIs(e: OpEntry)
    requires Fits(e)
    ensures EntryLine(e) == "{" + (HeadText(e) + (", :f :" + AfterF(e)))
  {
    var values := HeadValues(e);
    var head, f, v := Labelled(values), (Keyword("f"), Keyword(e.f)), (Keyword("value"), e.value);
    LabelledTwo(values, Keyword(e.f), e.value);
    TwoMore(head, f, v);
    assert PairText(f) == ":f :" + e.f;
    LineSplit(HeadText(e), ":f :", e.f, PairText(v));
  }

  lemma {:induction false} LineEndPast(x: string, s: string)
    requires '\n' !in x
    ensures LineEnd(x + s) == |x| + LineEnd(s)
  {
    if x == "" {
      assert x + s == s;
    } else {
      assert (x + s)[1..] == x[1..] + s;
      LineEndPast(x[1..], s);
    }
  }

  lemma {:induction false} LineEndExists(s: string)
    requires '\n' in s
    ensures LineEnd(s) < |s|
  {
    if s[0] == '\n' {
    } else {
      LineEndExists(s[1..]);
    }
  }

  /** However the rest of a line is cut, its head stays. */
  lemma HeadOfLine(x: string, c: char, rest: string) returns (after: string)
    requires '\n' !in x && c != '\n' && c != '\r' && '\n' in rest
    ensures Lines(x + [c] + rest) != [] && Lines(x + [c] + rest)[0] == x + [c] + after
  {
    var s, n := x + [c] + rest, LineEnd(rest);
    LineEndPast(x + [c], rest);
    LineEndExists(rest);
    assert s[..|x| + 1 + n] == x + [c] + rest[..n];
    var line := x + [c] + rest[..n];
    after := StripReturn(rest[..n]);
    if n == 0 {
      assert line == x + [c];
    } else {
      assert line[|line| - 1] == rest[n - 1];
      assert line[..|line| - 1] == x + [c] + rest[..n - 1];
      assert rest[..n][..n - 1] == rest[..n - 1];
    }
  }

  lemma HeadHasNoBreak(e: OpEntry)
    requires Fits(e)
    ensures '\n' !in HeadText(e)
  {
    HeadIsPrintable(e);
    LabelledIsPrintable(HeadValues(e));
    NoBreakInPairs(Labelled(HeadValues(e)));
  }

  lemma LineShape(head: string, after: string, rest: string)
    ensures "{" + (head + (", :f :" + after)) + rest == "{" + head + ", :f " + [':'] + (after + rest)
  {
    assert ", :f :" == ", :f " + [':'];
  }

  lemma FirstLineIs(e: OpEntry, rest: string) returns (after: string)
    requires Fits(e)
    ensures var s := EntryLine(e) + ("\n" + rest);
            Lines(s) != [] && Lines(s)[0] == "{" + (HeadText(e) + (", :f :" + after))
  {
    LineIs(e);
    HeadHasNoBreak(e);
    var x := "{" + HeadText(e) + ", :f ";
    var more := AfterF(e) + ("\n" + rest);
    LineShape(HeadText(e), AfterF(e), "\n" + rest);
    assert more[|AfterF(e)|] == '\n';
    after := HeadOfLine(x, ':', more);
    LineShape(HeadText(e), after, "");
    assert after + "" == after;
  }

  lemma LineBegins(e: OpEntry)
    requires Fits(e)
    ensures EntryLine(e) != "" && EntryLine(e)[0] == '{'
  {
  }

  /** An entry whose function is no keyword name does not come back. */
  lemma {:induction false} IllegibleFirst(h: seq<OpEntry>)
    requires AllFit(h) && h != [] && !IsKeywordName(h[0].f)
    ensures FromLines(Lines(ToEdn(h))) != Some(h)
  {
    var after := FirstLineIs(h[0], ToEdn(h[1..]));
    CutName(h[0], after);
    var line := Lines(ToEdn(h))[0];
    assert line[0] == '{';
    assert !IsBlank(line);
  }

  lemma {:induction false} LegibleReads(h: seq<OpEntry>)
    requires AllFit(h) && forall i :: 0 <= i < |h| ==> Legible(h[i])
    ensures FromLines(Lines(ToEdn(h))) == Some(h)
  {
    if h == [] {
    } else {
      LegibleReads(h[1..]);
      assert FromLines(Lines(ToEdn(h))) == Prepend(Some(h[0]), Some(h[1..])) by {
        LegibleFirst(h);
      }
      assert [h[0]] + h[1..] == h;
    }
  }

  lemma {:induction false} ReadIsLegible(h: seq<OpEntry>)
    requires AllFit(h) && (forall i :: 0 <= i < |h| ==> Printable(h[i].value))
    requires FromLines(Lines(ToEdn(h))) == Some(h)
    ensures forall i :: 0 <= i < |h| ==> Legible(h[i])
  {
    if h == [] {
    } else {
      if !IsKeywordName(h[0].f) {
        IllegibleFirst(h);
      }
      LegibleFirst(h);
      var more := FromLines(Lines(ToEdn(h[1..])));
      assert [h[0]] + more.value == h;
      assert more.value == h[1..];
      ReadIsLegible(h[1..]);
      forall i | 0 <= i < |h| ensures Legible(h[i]) {
        assert i == 0 || h[i] == h[1..][i - 1];
      }
    }
  }

  lemma BraceIsNoSequence(line: string, rest: string)
    requires line != "" && line[0] == '{'
    ensures TrimStart(line + rest) == line + rest && !IsSequence(line + rest)
  {
    assert (line + rest)[0] == '{';
  }

  lemma {:induction false} EdnIsLines(h: seq<OpEntry>)
    requires AllFit(h)
    ensures FromJepsen(ToEdn(h)) == FromLines(Lines(ToEdn(h)))
  {
    if h == [] {
    } else {
      LineBegins(h[0]);
      BraceIsNoSequence(EntryLine(h[0]), "\n" + ToEdn(h[1..]));
    }
  }

  /** An EDN history comes back, the empty one too, exactly when every function is a keyword name and
      every payload can be printed: timestamps, indices and processes never matter. */
  lemma {:induction false} EdnHistoryRoundTrip(h: seq<OpEntry>)
    requires AllFit(h)
    ensures FromJepsen(ToEdn(h)) == Some(h) <==> forall i :: 0 <= i < |h| ==> Legible(h[i])
  {
    EdnIsLines(h);
    if forall i :: 0 <= i < |h| ==> Legible(h[i]) {
      LegibleReads(h);
    }
    if FromLines(Lines(ToEdn(h))) == Some(h) {
      LinesArePrintable(Lines(ToEdn(h)));
      ReadIsLegible(h);
    }
  }
}
