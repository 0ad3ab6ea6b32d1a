/** Which texts are histories, and what they say: one entry to a line, or one sequence of entries in EDN or JSON,
    told apart by how the first object's first key is written. The reader accepts exactly these texts and returns
    what they say (`from_jepsen`, crates/propsim-history/src/history.rs). */
module HistoryGrammar {
  import opened Ops
  import opened History
  import opened Columns
  import Edn
  import Json
  import EdnGrammar
  import JsonGrammar

  // ----- What histories look like -----

  /** The characters of the Unicode property White_Space, by their codes. */
  predicate IsWhite(c: char) {
    var n := c as int;
    || 9 <= n <= 13 || n == 32 || n == 0x85 || n == 0xA0 || n == 0x1680 || 0x2000 <= n <= 0x200A
    || n == 0x2028 || n == 0x2029 || n == 0x202F || n == 0x205F || n == 0x3000
  }

  predicate AllSpace(s: string) {
    forall i :: 0 <= i < |s| ==> IsWhite(s[i])
  }

  /** `t` is `s` from its first character on that is no space. */
  ghost predicate StartsAt(s: string, t: string) {
    (t == "" || !IsWhite(t[0])) && exists a :: AllSpace(a) && s == a + t
  }

  ghost predicate FirstBrace(s: string, i: int) {
    0 <= i < |s| && s[i] == '{' && forall k :: 0 <= k < i ==> s[k] != '{'
  }

  /** The first opening brace is followed, but for spaces, by a quote. */
  ghost predicate QuotesKeys(s: string) {
    exists i, j :: FirstBrace(s, i) && i < j < |s| && AllSpace(s[i + 1..j]) && s[j] == '\"'
  }

  /** The map `v` describes the entry. */
  ghost predicate IsEntry(v: Value, e: OpEntry) {
    v.Map? && Describes(v.pairs, e)
  }

  ghost predicate AreEntries(items: seq<Value>, h: seq<OpEntry>) {
    |items| == |h| && forall i :: 0 <= i < |items| ==> IsEntry(items[i], h[i])
  }

  /** A text in the one format or the other. */
  ghost predicate IsTextOf(s: string, v: Value) {
    if QuotesKeys(s) then JsonGrammar.IsText(s, v) else EdnGrammar.IsText(s, v)
  }

  ghost predicate SaysSequence(s: string, h: seq<OpEntry>) {
    exists items :: IsTextOf(s, List(items)) && AreEntries(items, h)
  }

  ghost predicate SaysEntry(line: string, e: OpEntry) {
    exists v :: EdnGrammar.IsText(line, v) && IsEntry(v, e)
  }

  /** The first line of a text ends before position `n`. */
  ghost predicate FirstLine(s: string, n: nat) {
    n <= |s| && (n < |s| ==> s[n] == '\n') && forall k :: 0 <= k < n ==> s[k] != '\n'
  }

  /** The first line without what ends it: a line feed, or a carriage return and a line feed. */
  function LineBody(s: string, n: nat): string
    requires n <= |s|
  {
    if 0 < n < |s| && s[n - 1] == '\r' then s[..n - 1] else s[..n]
  }

  /** What follows the first line. */
  function Below(s: string, n: nat): (rest: string)
    requires n <= |s|
    ensures s != "" ==> |rest| < |s|
  {
    if n < |s| then s[n + 1..] else ""
  }

  ghost predicate SaysLine(line: string, rest: string, h: seq<OpEntry>)
    decreases |rest|, 1
  {
    if AllSpace(line) then SaysByLines(rest, h)
    else h != [] && SaysEntry(line, h[0]) && SaysByLines(rest, h[1..])
  }

  /** Every line is blank or says the next entry. */
  ghost predicate SaysByLines(s: string, h: seq<OpEntry>)
    decreases |s|, 0
  {
    if s == "" then h == []
    else exists n: nat :: FirstLine(s, n) && SaysLine(LineBody(s, n), Below(s, n), h)
  }

  ghost predicate SaysHistory(s: string, h: seq<OpEntry>) {
    exists t :: StartsAt(s, t) &&
      if t != "" && (t[0] == '[' || t[0] == '(') then SaysSequence(t, h) else SaysByLines(s, h)
  }

  // ----- Spaces and sniffing -----

  lemma {:induction false} TrimmedStarts(s: string) returns (a: string)
    ensures s == a + TrimStart(s) && AllSpace(a) && (TrimStart(s) == "" || !IsWhite(TrimStart(s)[0]))
    decreases |s|
  {
    if s != "" && IsWhite(s[0]) {
      var b := TrimmedStarts(s[1..]);
      a := [s[0]] + b;
    } else {
      a := "";
    }
  }

  lemma {:induction false} SpaceIsTrimmed(a: string, t: string)
    requires AllSpace(a) && (t == "" || !IsWhite(t[0]))
    ensures TrimStart(a + t) == t
    decreases |a|
  {
    if a == "" {
      assert a + t == t;
    } else {
      assert (a + t)[0] == a[0] && (a + t)[1..] == a[1..] + t;
      SpaceIsTrimmed(a[1..], t);
    }
  }

  lemma StartIsTrimmed(s: string, t: string)
    ensures StartsAt(s, t) <==> t == TrimStart(s)
  {
    var a := TrimmedStarts(s);
    if StartsAt(s, t) {
      var b :| AllSpace(b) && s == b + t;
      SpaceIsTrimmed(b, t);
    }
  }

  lemma BlankIsSpace(s: string)
    ensures IsBlank(s) <==> AllSpace(s)
  {
    var a := TrimmedStarts(s);
    if AllSpace(s) {
      SpaceIsTrimmed(s, "");
      assert s + "" == s;
    }
  }

  lemma {:induction false} BraceFound(s: string) returns (i: int)
    ensures AfterBrace(s).Some? ==> FirstBrace(s, i) && AfterBrace(s).value == s[i + 1..]
    ensures AfterBrace(s).None? ==> forall k :: 0 <= k < |s| ==> s[k] != '{'
    decreases |s|
  {
    if s == "" || s[0] == '{' {
      i := 0;
    } else {
      var k := BraceFound(s[1..]);
      i := k + 1;
      assert forall k :: 0 < k < |s| ==> s[k] == s[1..][k - 1];
    }
  }

  lemma SniffedIsQuote(s: string, i: int, rest: string)
    requires FirstBrace(s, i) && rest == s[i + 1..] && "\"" <= TrimStart(rest)
    ensures QuotesKeys(s)
  {
    var a := TrimmedStarts(rest);
    var j := i + 1 + |a|;
    assert s[j] == TrimStart(rest)[0] && s[i + 1..j] == a;
  }

  lemma QuoteIsSniffed(s: string, i: int, rest: string)
    requires FirstBrace(s, i) && rest == s[i + 1..] && QuotesKeys(s)
    ensures "\"" <= TrimStart(rest)
  {
    var k, j :| FirstBrace(s, k) && k < j < |s| && AllSpace(s[k + 1..j]) && s[j] == '\"';
    assert k == i;
    SpaceIsTrimmed(s[i + 1..j], s[j..]);
    assert rest == s[i + 1..j] + s[j..];
  }

  /** Guessing the format by the first object's first key. */
  lemma SniffIsQuote(s: string)
    ensures LooksLikeJson(s) <==> QuotesKeys(s)
  {
    var i := BraceFound(s);
    if AfterBrace(s).Some? {
      if LooksLikeJson(s) {
        SniffedIsQuote(s, i, s[i + 1..]);
      }
      if QuotesKeys(s) {
        QuoteIsSniffed(s, i, s[i + 1..]);
      }
    }
  }

  // ----- Entries -----

  lemma EntryIsRead(v: Value, e: OpEntry)
    ensures ValueToEntry(v) == Some(e) <==> IsEntry(v, e)
  {
    if v.Map? {
      ReadAs(v.pairs, e);
    }
  }

  lemma PrependIs(e: Option<OpEntry>, more: Option<seq<OpEntry>>, h: seq<OpEntry>)
    requires h != []
    ensures Prepend(e, more) == Some(h) <==> e == Some(h[0]) && more == Some(h[1..])
  {
    assert h == [h[0]] + h[1..];
  }

  lemma NoneFromSome(items: seq<Value>)
    requires items != []
    ensures EntriesOf(items) != Some([])
  {
  }

  lemma SplitEntries(items: seq<Value>, h: seq<OpEntry>)
    requires items != [] && h != []
    ensures AreEntries(items, h) <==> IsEntry(items[0], h[0]) && AreEntries(items[1..], h[1..])
  {
    var items', h' := items[1..], h[1..];
    assert forall i :: 0 < i < |items| ==> items[i] == items'[i - 1];
    assert forall i :: 0 < i < |h| ==> h[i] == h'[i - 1];
    if IsEntry(items[0], h[0]) && AreEntries(items', h') {
      forall i | 0 <= i < |items| ensures IsEntry(items[i], h[i]) {
        assert i > 0 ==> IsEntry(items'[i - 1], h'[i - 1]);
      }
    }
    if AreEntries(items, h) {
      forall i | 0 <= i < |items'| ensures IsEntry(items'[i], h'[i]) {
        assert IsEntry(items[i + 1], h[i + 1]);
      }
    }
  }

  lemma {:induction false} EntriesAreRead(items: seq<Value>, h: seq<OpEntry>)
    ensures EntriesOf(items) == Some(h) <==> AreEntries(items, h)
    decreases |items|
  {
    if items == [] {
    } else if h == [] {
      NoneFromSome(items);
    } else {
      EntryIsRead(items[0], h[0]);
      EntriesAreRead(items[1..], h[1..]);
      SplitEntries(items, h);
      PrependIs(ValueToEntry(items[0]), EntriesOf(items[1..]), h);
    }
  }

  lemma LineIsRead(line: string, e: OpEntry)
    ensures FromLine(line) == Some(e) <==> SaysEntry(line, e)
  {
    if FromLine(line) == Some(e) {
      var v := Edn.ParseEdn(line).value;
      EdnGrammar.ReaderIsGrammar(line, v);
      EntryIsRead(v, e);
    }
    if SaysEntry(line, e) {
      var v :| EdnGrammar.IsText(line, v) && IsEntry(v, e);
      EdnGrammar.ReaderIsGrammar(line, v);
      EntryIsRead(v, e);
    }
  }

  // ----- Sequences -----

  lemma TextIsRead(s: string, v: Value)
    ensures (if LooksLikeJson(s) then Json.ParseJson(s) else Edn.ParseEdn(s)) == Some(v) <==> IsTextOf(s, v)
  {
    SniffIsQuote(s);
    JsonGrammar.ReaderIsGrammar(s, v);
    EdnGrammar.ReaderIsGrammar(s, v);
  }

  lemma SequenceIsRead(s: string, h: seq<OpEntry>)
    ensures FromSequence(s) == Some(h) <==> SaysSequence(s, h)
  {
    if FromSequence(s) == Some(h) {
      var v := (if LooksLikeJson(s) then Json.ParseJson(s) else Edn.ParseEdn(s)).value;
      TextIsRead(s, v);
      EntriesAreRead(v.items, h);
    }
    if SaysSequence(s, h) {
      var items :| IsTextOf(s, List(items)) && AreEntries(items, h);
      TextIsRead(s, List(items));
      EntriesAreRead(items, h);
    }
  }

  // ----- Lines -----

  lemma {:induction false} LineEndsFirst(s: string)
    ensures forall n: nat :: FirstLine(s, n) <==> n == LineEnd(s)
    decreases |s|
  {
    if s == "" || s[0] == '\n' {
    } else {
      LineEndsFirst(s[1..]);
      forall n: nat ensures FirstLine(s, n) <==> n == LineEnd(s) {
        if n > 0 {
          assert FirstLine(s, n) <==> FirstLine(s[1..], n - 1) by {
            assert forall k :: 0 < k < |s| ==> s[k] == s[1..][k - 1];
          }
        }
      }
    }
  }

  /** The first line and what is left. */
  lemma LinesUnfold(s: string, n: nat)
    requires s != "" && n == LineEnd(s)
    ensures Lines(s) == [LineBody(s, n)] + Lines(Below(s, n))
  {
    if n < |s| {
      assert n > 0 ==> s[..n][..n - 1] == s[..n - 1];
      assert StripReturn(s[..n]) == LineBody(s, n);
    } else {
      assert s[..n] == s;
    }
  }

  lemma FromLinesUnfold(line: string, more: seq<string>, h: seq<OpEntry>)
    ensures FromLines([line] + more) == Some(h) <==>
            if IsBlank(line) then FromLines(more) == Some(h)
            else h != [] && FromLine(line) == Some(h[0]) && FromLines(more) == Some(h[1..])
  {
    assert ([line] + more)[1..] == more;
    if h != [] {
      PrependIs(FromLine(line), FromLines(more), h);
    }
  }

  lemma {:induction false} LinesAreRead(s: string, h: seq<OpEntry>)
    ensures FromLines(Lines(s)) == Some(h) <==> SaysByLines(s, h)
    decreases |s|
  {
    if s == "" {
    } else {
      var n := LineEnd(s);
      var line, rest := LineBody(s, n), Below(s, n);
      LinesUnfold(s, n);
      LineEndsFirst(s);
      FromLinesUnfold(line, Lines(rest), h);
      BlankIsSpace(line);
      LinesAreRead(rest, h);
      if h != [] {
        LineIsRead(line, h[0]);
        LinesAreRead(rest, h[1..]);
      }
      assert FirstLine(s, n) && (SaysByLines(s, h) <==> SaysLine(line, rest, h));
    }
  }

  // ----- The reader is the grammar -----

  /** For every text and every history: the reader returns the history if and only if the text says it. */
  lemma ReaderIsGrammar(s: string, h: seq<OpEntry>)
    ensures FromJepsen(s) == Some(h) <==> SaysHistory(s, h)
  {
    var t := TrimStart(s);
    StartIsTrimmed(s, t);
    SequenceIsRead(t, h);
    LinesAreRead(s, h);
    if SaysHistory(s, h) {
      var u :| StartsAt(s, u)
               && if u != "" && (u[0] == '[' || u[0] == '(') then SaysSequence(u, h) else SaysByLines(s, h);
      StartIsTrimmed(s, u);
    }
  }
}
