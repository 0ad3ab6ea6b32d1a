/** The writers and the reader of whole histories as they loop
    (crates/propsim-history/src/history.rs). */
module HistoryCodec {
  import opened Ops
  import opened Text
  import opened Edn
  import opened Json
  import opened EdnCodec
  import opened JsonCodec
  import opened History

  lemma Regroup(a: string, b: string, c: string, d: string, e: string)
    ensures a + (b + (c + d + e)) == a + (b + c) + d + e
  {
  }

  lemma {:induction false} ToEdnSnoc(h: seq<OpEntry>, e: OpEntry)
    requires AllFit(h) && Fits(e)
    ensures AllFit(h + [e]) && ToEdn(h + [e]) == ToEdn(h) + EntryLine(e) + "\n"
  {
    if h == [] {
      assert (h + [e])[1..] == [];
    } else {
      assert (h + [e])[1..] == h[1..] + [e];
      ToEdnSnoc(h[1..], e);
      Regroup(EntryLine(h[0]), "\n", ToEdn(h[1..]), EntryLine(e), "\n");
    }
  }

  lemma NextLine(h: seq<OpEntry>, i: nat, written: string)
    requires AllFit(h) && i < |h| && written == ToEdn(h[..i])
    ensures written + EntryLine(h[i]) + "\n" == ToEdn(h[..i + 1])
  {
    ToEdnSnoc(h[..i], h[i]);
    assert h[..i + 1] == h[..i] + [h[i]];
  }

  method ToJepsenEdn(h: seq<OpEntry>) returns (s: string)
    requires AllFit(h)
    ensures s == ToEdn(h)
  {
    var out := new Buffer();
    for i := 0 to |h|
      invariant out.text == ToEdn(h[..i])
    {
      NextLine(h, i, out.text);
      WriteEdn(out, EntryToValue(h[i]));
      out.Push("\n");
    }
    assert h[..|h|] == h;
    s := out.text;
  }

  /** The array of the first `i` values, still open. */
  ghost function Begun(values: seq<Value>, i: nat): string
    requires i <= |values|
  {
    "[" + ElementsText(values[..i])
  }

  lemma Begins(values: seq<Value>)
    ensures Begun(values, 0) == "["
  {
    assert values[..0] == [];
  }

  lemma NextElement(values: seq<Value>, i: nat, sep: string)
    requires i < |values| && sep == if i == 0 then "" else ","
    ensures Begun(values, i) + sep + JsonText(values[i]) == Begun(values, i + 1)
  {
    ElementsSnocAt(values, i);
    Join("[", ElementsText(values[..i]), sep, JsonText(values[i]));
  }

  lemma Ends(values: seq<Value>)
    ensures Begun(values, |values|) + "]" == JsonText(List(values))
  {
    assert values[..|values|] == values;
  }

  method ToJepsenJson(h: seq<OpEntry>) returns (s: string)
    requires AllFit(h)
    ensures s == ToJson(h)
  {
    var out := new Buffer();
    out.Push("[");
    ghost var values := Values(h);
    Begins(values);
    for i := 0 to |h|
      invariant out.text == Begun(values, i)
    {
      NextElement(values, i, if i == 0 then "" else ",");
      if i > 0 {
        out.Push(",");
      }
      WriteJson(out, EntryToValue(h[i]));
    }
    out.Push("]");
    Ends(values);
    s := out.text;
  }

  /** Entries read before others. */
  function Onto(entries: seq<OpEntry>, more: Option<seq<OpEntry>>): Option<seq<OpEntry>> {
    match more
    case Some(es) => Some(entries + es)
    case None => None
  }

  lemma OntoNothing(more: Option<seq<OpEntry>>)
    ensures Onto([], more) == more
  {
    if more.Some? {
      assert [] + more.value == more.value;
    }
  }

  lemma OntoStep(entries: seq<OpEntry>, e: OpEntry, more: Option<seq<OpEntry>>)
    ensures Onto(entries, Prepend(Some(e), more)) == Onto(entries + [e], more)
  {
    if more.Some? {
      assert entries + ([e] + more.value) == entries + [e] + more.value;
    }
  }

  method FromJepsenText(s: string) returns (r: Option<seq<OpEntry>>)
    ensures r == FromJepsen(s)
  {
    var trimmed := TrimStart(s);
    if IsSequence(trimmed) {
      var v: Option<Value>;
      if LooksLikeJson(trimmed) {
        v := ParseWholeJson(trimmed);
      } else {
        v := ParseWhole(trimmed);
      }
      return if v.Some? && v.value.List? then EntriesOf(v.value.items) else None;
    }
    var entries := [];
    var lines := Lines(s);
    assert lines[0..] == lines;
    OntoNothing(FromLines(lines));
    for i := 0 to |lines|
      invariant FromLines(lines) == Onto(entries, FromLines(lines[i..]))
    {
      assert lines[i..][1..] == lines[i + 1..];
      if IsBlank(lines[i]) {
        continue;
      }
      var v := ParseWhole(lines[i]);
      if v == None {
        return None;
      }
      var e := ValueToEntry(v.value);
      if e == None {
        return None;
      }
      OntoStep(entries, e.value, FromLines(lines[i + 1..]));
      entries := entries + [e.value];
    }
    assert lines[|lines|..] == [];
    assert entries + [] == entries;
    r := Some(entries);
  }
}
