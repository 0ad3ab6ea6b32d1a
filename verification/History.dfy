/** Whole histories on the wire: one EDN map per line or one JSON array, and a reader that tells
    which it was given (crates/propsim-history/src/history.rs). */
module History {
  import opened Ops
  import opened Text
  import opened Edn
  import opened Json

  // ----- One entry -----

  /** The bounds the source's field types put on an entry. */
  predicate Fits(e: OpEntry) {
    e.index < TWO_64 && e.process < TWO_64
  }

  /** `u64 as i64` */
  function ToI64(n: u64): i64 {
    var m: int := n;
    if m < TWO_63 then m else m - TWO_64
  }

  /** `i64 as u64` */
  function ToU64(i: i64): u64 {
    var m: int := i;
    if m < 0 then m + TWO_64 else m
  }

  lemma CastsUndo(n: u64, i: i64)
    ensures ToU64(ToI64(n)) == n && ToI64(ToU64(i)) == i
  {
  }

  function ClockName(c: Clock): string {
    match c
    case Virtual => "virtual"
    case Wall => "wall"
  }

  function ClockFromName(s: string): Option<Clock> {
    if s == "virtual" then Some(Virtual) else if s == "wall" then Some(Wall) else None
  }

  function KindName(k: OpKind): string {
    match k
    case Invoke => "invoke"
    case Ok => "ok"
    case Fail => "fail"
    case Info => "info"
  }

  function KindFromName(s: string): Option<OpKind> {
    if s == "invoke" then Some(Invoke)
    else if s == "ok" then Some(Ok)
    else if s == "fail" then Some(Fail)
    else if s == "info" then Some(Info)
    else None
  }

  const INDEX := 0
  const TIME := 1
  const CLOCK := 2
  const KIND := 3
  const PROCESS := 4
  const FUNCTION := 5
  const PAYLOAD := 6

  /** The keys of an entry, in the order they are written. */
  function Field(i: nat): string {
    if i == INDEX then "index"
    else if i == TIME then "time"
    else if i == CLOCK then "clock"
    else if i == KIND then "type"
    else if i == PROCESS then "process"
    else if i == FUNCTION then "f"
    else "value"
  }

  function Labelled(values: seq<Value>): (pairs: seq<(Value, Value)>)
    ensures |pairs| == |values|
    ensures forall i :: 0 <= i < |pairs| ==> pairs[i] == (Keyword(Field(i)), values[i])
  {
    if values == [] then []
    else
      var last := |values| - 1;
      Labelled(values[..last]) + [(Keyword(Field(last)), values[last])]
  }

  /** What is written before the function. */
  function HeadValues(e: OpEntry): seq<Value>
    requires Fits(e)
  {
    [Int(ToI64(e.index)), Int(e.time.nanos), Keyword(ClockName(e.time.clock)), Keyword(KindName(e.kind)),
     Int(ToI64(e.process))]
  }

  function EntryToValue(e: OpEntry): Value
    requires Fits(e)
  {
    Map(Labelled(HeadValues(e) + [Keyword(e.f), e.value]))
  }

  /** The value of the first pair with this key, be it a keyword or a string. */
  function Lookup(pairs: seq<(Value, Value)>, key: string): (r: Option<Value>)
    ensures r.Some? ==> exists i :: 0 <= i < |pairs| && pairs[i].1 == r.value
  {
    if pairs == [] then None
    else if pairs[0].0 == Keyword(key) || pairs[0].0 == Str(key) then Some(pairs[0].1)
    else Lookup(pairs[1..], key)
  }

  /** A string of digits passes for an integer. */
  function RequireInt(v: Option<Value>): Option<i64> {
    match v
    case Some(Int(i)) => Some(i)
    case Some(Str(s)) => ParseI64(s)
    case _ => None
  }

  function NameOf(v: Option<Value>): Option<string> {
    match v
    case Some(Keyword(k)) => Some(k)
    case Some(Str(s)) => Some(s)
    case _ => None
  }

  function ClockOf(v: Option<Value>): Option<Clock> {
    if v == None then Some(Wall)
    else
      match NameOf(v)
      case Some(k) => ClockFromName(k)
      case None => None
  }

  function KindOf(v: Option<Value>): Option<OpKind> {
    match NameOf(v)
    case Some(k) => KindFromName(k)
    case None => None
  }

  /** What the keys of a map lead to. */
  datatype Raw = Raw(index: Option<Value>, time: Option<Value>, clock: Option<Value>, kind: Option<Value>,
                     process: Option<Value>, f: Option<Value>, payload: Option<Value>)

  function RawOf(pairs: seq<(Value, Value)>): Raw {
    Raw(Lookup(pairs, Field(INDEX)), Lookup(pairs, Field(TIME)), Lookup(pairs, Field(CLOCK)),
        Lookup(pairs, Field(KIND)),
        Lookup(pairs, Field(PROCESS)), Lookup(pairs, Field(FUNCTION)), Lookup(pairs, Field(PAYLOAD)))
  }

  /** A missing clock means wall time, a missing payload means nil. */
  function EntryOf(raw: Raw): (r: Option<OpEntry>)
    ensures r.Some? ==> Fits(r.value)
    ensures r.Some? ==> NameOf(raw.f) == Some(r.value.f)
    ensures r.Some? ==> r.value.value == if raw.payload.Some? then raw.payload.value else Nil
  {
    match (RequireInt(raw.index), RequireInt(raw.time), ClockOf(raw.clock), KindOf(raw.kind), RequireInt(raw.process),
           NameOf(raw.f))
    case (Some(index), Some(nanos), Some(clock), Some(kind), Some(process), Some(f)) =>
      var value := match raw.payload case Some(x) => x case None => Nil;
      Some(OpEntry(ToU64(index), Time(nanos, clock), kind, ToU64(process), f, value))
    case _ => None
  }

  /** `value_to_entry` */
  function ValueToEntry(v: Value): (r: Option<OpEntry>)
    ensures r.Some? ==> Fits(r.value)
  {
    match v
    case Map(pairs) => EntryOf(RawOf(pairs))
    case _ => None
  }

  lemma FieldsDiffer(i: nat, j: nat)
    requires i < j <= PAYLOAD
    ensures Field(i) != Field(j)
  {
    if |Field(i)| == |Field(j)| {
      assert Field(i)[1] != Field(j)[1] || Field(i)[0] != Field(j)[0] || Field(i)[2] != Field(j)[2];
    }
  }

  /** Looking up a key that comes at position `i` for the first time. */
  lemma {:induction false} LookupAt(pairs: seq<(Value, Value)>, key: string, i: nat)
    requires i < |pairs| && pairs[i].0 == Keyword(key)
    requires forall j :: 0 <= j < i ==> pairs[j].0 != Keyword(key) && pairs[j].0 != Str(key)
    ensures Lookup(pairs, key) == Some(pairs[i].1)
  {
    if i == 0 {
    } else {
      LookupAt(pairs[1..], key, i - 1);
    }
  }

  lemma FieldFound(values: seq<Value>, pairs: seq<(Value, Value)>, i: nat)
    requires i < |values| && i <= PAYLOAD && Labelled(values) <= pairs
    ensures Lookup(pairs, Field(i)) == Some(values[i])
  {
    var own := Labelled(values);
    forall j | 0 <= j < i ensures pairs[j].0 != Keyword(Field(i)) && pairs[j].0 != Str(Field(i)) {
      FieldsDiffer(j, i);
      assert pairs[j] == own[j];
    }
    assert pairs[i] == own[i];
    LookupAt(pairs, Field(i), i);
  }

  /** The entry written with another payload, as its keys find it. */
  function RawEntry(e: OpEntry, payload: Value): Raw
    requires Fits(e)
  {
    Raw(Some(Int(ToI64(e.index))), Some(Int(e.time.nanos)), Some(Keyword(ClockName(e.time.clock))),
        Some(Keyword(KindName(e.kind))), Some(Int(ToI64(e.process))), Some(Keyword(e.f)), Some(payload))
  }

  lemma NamesUndo(c: Clock, k: OpKind)
    ensures ClockFromName(ClockName(c)) == Some(c) && KindFromName(KindName(k)) == Some(k)
  {
  }

  lemma RawReads(e: OpEntry, payload: Value)
    requires Fits(e)
    ensures EntryOf(RawEntry(e, payload)) == Some(e.(value := payload))
  {
    CastsUndo(e.index, 0);
    CastsUndo(e.process, 0);
    NamesUndo(e.time.clock, e.kind);
  }

  /** Whatever the payload is replaced by, the entry read is the entry written with that payload. */
  lemma EntryReads(e: OpEntry, payload: Value)
    requires Fits(e)
    ensures ValueToEntry(Map(Labelled(HeadValues(e) + [Keyword(e.f), payload]))) == Some(e.(value := payload))
  {
    var values := HeadValues(e) + [Keyword(e.f), payload];
    var pairs := Labelled(values);
    forall i: nat | i <= PAYLOAD ensures Lookup(pairs, Field(i)) == Some(values[i]) {
      FieldFound(values, pairs, i);
    }
    assert RawOf(pairs) == RawEntry(e, payload);
    RawReads(e, payload);
  }

  // ----- Writing a history -----

  predicate AllFit(h: seq<OpEntry>) {
    forall i :: 0 <= i < |h| ==> Fits(h[i])
  }

  function EntryLine(e: OpEntry): string
    requires Fits(e)
  {
    EdnText(EntryToValue(e))
  }

  /** `to_jepsen_edn`: a line for each entry. */
  function ToEdn(h: seq<OpEntry>): string
    requires AllFit(h)
  {
    if h == [] then "" else EntryLine(h[0]) + ("\n" + ToEdn(h[1..]))
  }

  function Values(h: seq<OpEntry>): (vs: seq<Value>)
    requires AllFit(h)
    ensures |vs| == |h| && forall i :: 0 <= i < |h| ==> vs[i] == EntryToValue(h[i])
  {
    if h == [] then [] else [EntryToValue(h[0])] + Values(h[1..])
  }

  /** `to_jepsen_json`: one array. */
  function ToJson(h: seq<OpEntry>): string
    requires AllFit(h)
  {
    JsonText(List(Values(h)))
  }

  // ----- Reading a history -----

  /** `char::is_whitespace`. */
  predicate IsSpace(c: char) {
    || '\t' <= c <= '\r' || c == ' ' || c == '\U{85}' || c == '\U{A0}' || c == '\U{1680}'
    || '\U{2000}' <= c <= '\U{200A}' || c == '\U{2028}' || c == '\U{2029}' || c == '\U{202F}'
    || c == '\U{205F}' || c == '\U{3000}'
  }

  function TrimStart(s: string): string {
    if s != "" && IsSpace(s[0]) then TrimStart(s[1..]) else s
  }

  predicate IsBlank(s: string) {
    TrimStart(s) == ""
  }

  /** What follows the first opening brace. */
  function AfterBrace(s: string): Option<string> {
    if s == "" then None else if s[0] == '{' then Some(s[1..]) else AfterBrace(s[1..])
  }

  /** `looks_like_json`: the first object's first key is quoted. */
  predicate LooksLikeJson(s: string) {
    match AfterBrace(s)
    case Some(rest) => "\"" <= TrimStart(rest)
    case None => false
  }

  function LineEnd(s: string): (n: nat)
    ensures n <= |s| && (n < |s| ==> s[n] == '\n')
  {
    if s == "" || s[0] == '\n' then 0 else 1 + LineEnd(s[1..])
  }

  function StripReturn(s: string): string {
    if s != "" && s[|s| - 1] == '\r' then s[..|s| - 1] else s
  }

  /** `str::lines`: a line ends at a line feed, or a carriage return and a line feed. */
  function Lines(s: string): seq<string>
    decreases |s|
  {
    if s == "" then []
    else
      var n := LineEnd(s);
      if n == |s| then [s] else [StripReturn(s[..n])] + Lines(s[n + 1..])
  }

  /** What a reader makes of a first entry and what follows it. */
  function Prepend(e: Option<OpEntry>, more: Option<seq<OpEntry>>): Option<seq<OpEntry>> {
    if e.Some? && more.Some? then Some([e.value] + more.value) else None
  }

  function FromLine(line: string): Option<OpEntry> {
    match ParseEdn(line)
    case Some(v) => ValueToEntry(v)
    case None => None
  }

  function FromLines(lines: seq<string>): Option<seq<OpEntry>> {
    if lines == [] then Some([])
    else if IsBlank(lines[0]) then FromLines(lines[1..])
    else Prepend(FromLine(lines[0]), FromLines(lines[1..]))
  }

  function EntriesOf(items: seq<Value>): Option<seq<OpEntry>> {
    if items == [] then Some([])
    else Prepend(ValueToEntry(items[0]), EntriesOf(items[1..]))
  }

  predicate IsSequence(s: string) {
    "[" <= s || "(" <= s
  }

  function FromSequence(s: string): Option<seq<OpEntry>> {
    match (if LooksLikeJson(s) then ParseJson(s) else ParseEdn(s))
    case Some(List(items)) => EntriesOf(items)
    case _ => None
  }

  /** `from_jepsen` */
  function FromJepsen(s: string): Option<seq<OpEntry>> {
    var trimmed := TrimStart(s);
    if IsSequence(trimmed) then FromSequence(trimmed) else FromLines(Lines(s))
  }
}
