/** What an entry is on the wire, column by column: under which name each field is written, and what a map says
    under each name, whoever wrote it (`entry_to_value` and `value_to_entry`,
    crates/propsim-history/src/history.rs). */
module Columns {
  import opened Ops
  import opened Text
  import opened Edn
  import opened History

  // ----- Writing -----

  /** The signed word with the bits of an unsigned one. */
  function Signed(n: u64): i64 {
    var m: int := n;
    if m < 0x8000_0000_0000_0000 then m else m - 0x1_0000_0000_0000_0000
  }

  function ClockWord(c: Clock): string {
    match c case Virtual => "virtual" case Wall => "wall"
  }

  function KindWord(k: OpKind): string {
    match k case Invoke => "invoke" case Ok => "ok" case Fail => "fail" case Info => "info"
  }

  /** Seven columns, in this order. */
  lemma WrittenAs(e: OpEntry)
    requires Fits(e)
    ensures EntryToValue(e) == Map([
      (Keyword("index"), Int(Signed(e.index))),
      (Keyword("time"), Int(e.time.nanos)),
      (Keyword("clock"), Keyword(ClockWord(e.time.clock))),
      (Keyword("type"), Keyword(KindWord(e.kind))),
      (Keyword("process"), Int(Signed(e.process))),
      (Keyword("f"), Keyword(e.f)),
      (Keyword("value"), e.value)])
  {
  }

  function Column(name: string, text: string): string {
    ":" + name + " " + text
  }

  lemma ColumnFirst(name: string, v: Value, more: seq<(Value, Value)>)
    ensures PairsText([(Keyword(name), v)] + more)
         == if more == [] then Column(name, EdnText(v)) else Column(name, EdnText(v)) + ", " + PairsText(more)
  {
    var pairs := [(Keyword(name), v)] + more;
    assert pairs[1..] == more && pairs[0] == (Keyword(name), v);
    assert EdnText(Keyword(name)) == ":" + name;
    assert PairText(pairs[0]) == Column(name, EdnText(v));
    assert more == [] ==> |pairs| == 1;
  }

  lemma LastColumns(e: OpEntry) returns (pairs: seq<(Value, Value)>)
    requires Fits(e)
    ensures pairs == [(Keyword("process"), Int(Signed(e.process))), (Keyword("f"), Keyword(e.f)),
                      (Keyword("value"), e.value)]
    ensures PairsText(pairs)
         == Column("process", IntText(Signed(e.process))) + ", " + (Column("f", ":" + e.f) + ", "
            + Column("value", EdnText(e.value)))
  {
    var value := [(Keyword("value"), e.value)];
    assert value == value + [];
    ColumnFirst("value", e.value, []);
    var f := [(Keyword("f"), Keyword(e.f))] + value;
    ColumnFirst("f", Keyword(e.f), value);
    pairs := [(Keyword("process"), Int(Signed(e.process)))] + f;
    ColumnFirst("process", Int(Signed(e.process)), f);
  }

  lemma MiddleColumns(e: OpEntry, more: seq<(Value, Value)>) returns (pairs: seq<(Value, Value)>)
    requires more != []
    ensures pairs == [(Keyword("clock"), Keyword(ClockWord(e.time.clock))),
                      (Keyword("type"), Keyword(KindWord(e.kind)))] + more
    ensures PairsText(pairs)
         == Column("clock", ":" + ClockWord(e.time.clock)) + ", " + (Column("type", ":" + KindWord(e.kind)) + ", "
            + PairsText(more))
  {
    var kind := [(Keyword("type"), Keyword(KindWord(e.kind)))] + more;
    ColumnFirst("type", Keyword(KindWord(e.kind)), more);
    pairs := [(Keyword("clock"), Keyword(ClockWord(e.time.clock)))] + kind;
    ColumnFirst("clock", Keyword(ClockWord(e.time.clock)), kind);
  }

  lemma FirstColumns(e: OpEntry, more: seq<(Value, Value)>) returns (pairs: seq<(Value, Value)>)
    requires Fits(e) && more != []
    ensures pairs == [(Keyword("index"), Int(Signed(e.index))), (Keyword("time"), Int(e.time.nanos))] + more
    ensures PairsText(pairs)
         == Column("index", IntText(Signed(e.index))) + ", " + (Column("time", IntText(e.time.nanos)) + ", "
            + PairsText(more))
  {
    var time := [(Keyword("time"), Int(e.time.nanos))] + more;
    ColumnFirst("time", Int(e.time.nanos), more);
    pairs := [(Keyword("index"), Int(Signed(e.index)))] + time;
    ColumnFirst("index", Int(Signed(e.index)), time);
  }

  lemma InAll(e: OpEntry, last: seq<(Value, Value)>, middle: seq<(Value, Value)>, all: seq<(Value, Value)>)
    requires Fits(e)
    requires last == [(Keyword("process"), Int(Signed(e.process))), (Keyword("f"), Keyword(e.f)),
                      (Keyword("value"), e.value)]
    requires middle == [(Keyword("clock"), Keyword(ClockWord(e.time.clock))),
                        (Keyword("type"), Keyword(KindWord(e.kind)))] + last
    requires all == [(Keyword("index"), Int(Signed(e.index))), (Keyword("time"), Int(e.time.nanos))] + middle
    ensures EntryLine(e) == "{" + PairsText(all) + "}"
  {
    WrittenAs(e);
    assert EntryToValue(e) == Map(all);
  }

  /** The text of an entry's line, for any Jepsen reader. */
  lemma LineIs(e: OpEntry)
    requires Fits(e)
    ensures EntryLine(e)
         == "{" + (Column("index", IntText(Signed(e.index))) + ", " + (Column("time", IntText(e.time.nanos)) + ", "
            + (Column("clock", ":" + ClockWord(e.time.clock)) + ", " + (Column("type", ":" + KindWord(e.kind)) + ", "
            + (Column("process", IntText(Signed(e.process))) + ", " + (Column("f", ":" + e.f) + ", "
            + Column("value", EdnText(e.value)))))))) + "}"
  {
    var last := LastColumns(e);
    var middle := MiddleColumns(e, last);
    var all := FirstColumns(e, middle);
    InAll(e, last, middle, all);
  }

  // ----- Reading -----

  predicate Named(key: Value, name: string) {
    key == Keyword(name) || key == Str(name)
  }

  ghost predicate FirstNamed(pairs: seq<(Value, Value)>, name: string, i: int) {
    0 <= i < |pairs| && Named(pairs[i].0, name) && forall j :: 0 <= j < i ==> !Named(pairs[j].0, name)
  }

  /** `v` is in the first pair of that name. */
  ghost predicate Under(pairs: seq<(Value, Value)>, name: string, v: Value) {
    exists i :: FirstNamed(pairs, name, i) && pairs[i].1 == v
  }

  ghost predicate Missing(pairs: seq<(Value, Value)>, name: string) {
    forall i :: 0 <= i < |pairs| ==> !Named(pairs[i].0, name)
  }

  /** A name is given as a keyword or as a string. */
  ghost predicate NameUnder(pairs: seq<(Value, Value)>, name: string, text: string) {
    Under(pairs, name, Keyword(text)) || Under(pairs, name, Str(text))
  }

  /** A number is given as an integer or in decimal. */
  ghost predicate IntUnder(pairs: seq<(Value, Value)>, name: string, i: i64) {
    Under(pairs, name, Int(i)) || exists s :: Under(pairs, name, Str(s)) && ParseI64(s) == Some(i)
  }

  /** The same number as an unsigned word. */
  ghost predicate WordUnder(pairs: seq<(Value, Value)>, name: string, n: nat) {
    exists i: i64 :: IntUnder(pairs, name, i) && n == i % 0x1_0000_0000_0000_0000
  }

  ghost predicate ClockUnder(pairs: seq<(Value, Value)>, clock: Clock) {
    if Missing(pairs, "clock") then clock.Wall?
    else NameUnder(pairs, "clock", ClockWord(clock))
  }

  ghost predicate KindUnder(pairs: seq<(Value, Value)>, kind: OpKind) {
    NameUnder(pairs, "type", KindWord(kind))
  }

  ghost predicate ValueUnder(pairs: seq<(Value, Value)>, v: Value) {
    if Missing(pairs, "value") then v == Nil else Under(pairs, "value", v)
  }

  /** What a map says an entry is. A missing clock is wall time, a missing value nil; nothing else may be
      missing. */
  ghost predicate Describes(pairs: seq<(Value, Value)>, e: OpEntry) {
    && WordUnder(pairs, "index", e.index)
    && IntUnder(pairs, "time", e.time.nanos)
    && ClockUnder(pairs, e.time.clock)
    && KindUnder(pairs, e.kind)
    && WordUnder(pairs, "process", e.process)
    && NameUnder(pairs, "f", e.f)
    && ValueUnder(pairs, e.value)
  }

  lemma {:induction false} LookupFinds(pairs: seq<(Value, Value)>, name: string)
    ensures match Lookup(pairs, name)
            case Some(v) => Under(pairs, name, v) && !Missing(pairs, name)
            case None => Missing(pairs, name)
    decreases |pairs|
  {
    if pairs == [] {
    } else if Named(pairs[0].0, name) {
      assert FirstNamed(pairs, name, 0);
    } else {
      var rest := pairs[1..];
      LookupFinds(rest, name);
      if Lookup(rest, name).Some? {
        var i :| FirstNamed(rest, name, i) && rest[i].1 == Lookup(rest, name).value;
        assert pairs[i + 1] == rest[i];
        assert FirstNamed(pairs, name, i + 1);
      }
    }
  }

  /** There is one value under a name at most. */
  lemma UnderIsLookup(pairs: seq<(Value, Value)>, name: string)
    ensures forall v :: Under(pairs, name, v) <==> Lookup(pairs, name) == Some(v)
    ensures Missing(pairs, name) <==> Lookup(pairs, name) == None
  {
    LookupFinds(pairs, name);
    forall v | Under(pairs, name, v) ensures Lookup(pairs, name) == Some(v) {
      var i :| FirstNamed(pairs, name, i) && pairs[i].1 == v;
      var u := Lookup(pairs, name).value;
      var j :| FirstNamed(pairs, name, j) && pairs[j].1 == u;
      assert i == j;
    }
  }

  lemma IntRead(pairs: seq<(Value, Value)>, name: string, i: i64)
    ensures IntUnder(pairs, name, i) <==> RequireInt(Lookup(pairs, name)) == Some(i)
  {
    UnderIsLookup(pairs, name);
  }

  lemma WordIs(i: i64, n: nat)
    ensures ToU64(i) == n <==> n == i % 0x1_0000_0000_0000_0000
  {
  }

  lemma WordRead(pairs: seq<(Value, Value)>, name: string, n: nat)
    ensures WordUnder(pairs, name, n) <==>
            RequireInt(Lookup(pairs, name)).Some? && ToU64(RequireInt(Lookup(pairs, name)).value) == n
  {
    var read := RequireInt(Lookup(pairs, name));
    if read.Some? {
      IntRead(pairs, name, read.value);
      WordIs(read.value, n);
    }
    if WordUnder(pairs, name, n) {
      var i: i64 :| IntUnder(pairs, name, i) && n == i % 0x1_0000_0000_0000_0000;
      IntRead(pairs, name, i);
      WordIs(i, n);
    }
  }

  lemma NameRead(pairs: seq<(Value, Value)>, name: string, s: string)
    ensures NameUnder(pairs, name, s) <==> NameOf(Lookup(pairs, name)) == Some(s)
  {
    UnderIsLookup(pairs, name);
  }

  lemma WordsAre(s: string, c: Clock, k: OpKind)
    ensures ClockFromName(s) == Some(c) <==> s == ClockWord(c)
    ensures KindFromName(s) == Some(k) <==> s == KindWord(k)
  {
  }

  lemma ClockRead(pairs: seq<(Value, Value)>, clock: Clock)
    ensures ClockUnder(pairs, clock) <==> ClockOf(Lookup(pairs, "clock")) == Some(clock)
  {
    UnderIsLookup(pairs, "clock");
    NameRead(pairs, "clock", ClockWord(clock));
    var name := NameOf(Lookup(pairs, "clock"));
    if name.Some? {
      WordsAre(name.value, clock, Ok);
    }
  }

  lemma KindRead(pairs: seq<(Value, Value)>, kind: OpKind)
    ensures KindUnder(pairs, kind) <==> KindOf(Lookup(pairs, "type")) == Some(kind)
  {
    NameRead(pairs, "type", KindWord(kind));
    var name := NameOf(Lookup(pairs, "type"));
    if name.Some? {
      WordsAre(name.value, Wall, kind);
    }
  }

  lemma ValueRead(pairs: seq<(Value, Value)>, v: Value)
    ensures ValueUnder(pairs, v) <==> v == match Lookup(pairs, "value") case Some(x) => x case None => Nil
  {
    UnderIsLookup(pairs, "value");
  }

  lemma RawIs(pairs: seq<(Value, Value)>)
    ensures RawOf(pairs)
         == Raw(Lookup(pairs, "index"), Lookup(pairs, "time"), Lookup(pairs, "clock"), Lookup(pairs, "type"),
                Lookup(pairs, "process"), Lookup(pairs, "f"), Lookup(pairs, "value"))
  {
  }

  lemma EntryParts(raw: Raw, e: OpEntry)
    ensures EntryOf(raw) == Some(e) <==>
            && RequireInt(raw.index).Some? && ToU64(RequireInt(raw.index).value) == e.index
            && RequireInt(raw.time) == Some(e.time.nanos)
            && ClockOf(raw.clock) == Some(e.time.clock)
            && KindOf(raw.kind) == Some(e.kind)
            && RequireInt(raw.process).Some? && ToU64(RequireInt(raw.process).value) == e.process
            && NameOf(raw.f) == Some(e.f)
            && e.value == match raw.payload case Some(x) => x case None => Nil
  {
  }

  /** For every list of pairs, whatever the order, the keys and the repetitions: an entry is read from it if and
      only if it is the one described. */
  lemma ReadAs(pairs: seq<(Value, Value)>, e: OpEntry)
    ensures ValueToEntry(Map(pairs)) == Some(e) <==> Describes(pairs, e)
  {
    WordRead(pairs, "index", e.index);
    IntRead(pairs, "time", e.time.nanos);
    ClockRead(pairs, e.time.clock);
    KindRead(pairs, e.kind);
    WordRead(pairs, "process", e.process);
    NameRead(pairs, "f", e.f);
    ValueRead(pairs, e.value);
    RawIs(pairs);
    EntryParts(RawOf(pairs), e);
  }
}
