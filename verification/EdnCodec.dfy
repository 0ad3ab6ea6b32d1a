/** The EDN writer and reader as they are written: a writer that appends to a buffer, and a reader
    that moves a position over its input (crates/propsim-history/src/edn.rs). */
module EdnCodec {
  import opened Ops
  import opened Text
  import opened Edn

  // ----- Writing -----

  /** A growing string. */
  class Buffer {
    var text: string

    constructor ()
      ensures text == ""
    {
      text := "";
    }

    method Push(s: string)
      modifies this
      ensures text == old(text) + s
    {
      text := text + s;
    }
  }

  lemma {:induction false} EscapeSnocAt(s: string, i: nat)
    requires i < |s|
    ensures Escape(s[..i + 1]) == Escape(s[..i]) + EscapeChar(s[i])
  {
    EscapeSnoc(s[..i], s[i]);
    assert s[..i + 1] == s[..i] + [s[i]];
  }

  lemma Join(base: string, written: string, sep: string, item: string)
    ensures base + written + sep + item == base + (written + sep + item)
    ensures sep == "" ==> base + written + item == base + (written + sep + item)
  {
  }

  method PushEscaped(out: Buffer, s: string)
    modifies out
    ensures out.text == old(out.text) + Escape(s)
  {
    var i := 0;
    while i < |s|
      invariant 0 <= i <= |s|
      invariant out.text == old(out.text) + Escape(s[..i])
    {
      EscapeSnocAt(s, i);
      if s[i] == '\"' {
        out.Push("\\\"");
      } else if s[i] == '\\' {
        out.Push("\\\\");
      } else if s[i] == '\n' {
        out.Push("\\n");
      } else if s[i] == '\r' {
        out.Push("\\r");
      } else if s[i] == '\t' {
        out.Push("\\t");
      } else {
        out.Push([s[i]]);
      }
      i := i + 1;
    }
    assert s[..i] == s;
  }

  method WriteQuoted(out: Buffer, s: string)
    modifies out
    ensures out.text == old(out.text) + Quoted(s)
  {
    out.Push("\"");
    PushEscaped(out, s);
    out.Push("\"");
  }

  /** Text appended after the last separator, or to a single piece. */
  lemma SnocText(first: string, sep: string, more: string, last: string)
    ensures first + sep + (more + sep + last) == first + sep + more + sep + last
    ensures first + sep + ("" + "" + last) == first + sep + last
  {
  }

  lemma {:induction false} ItemsSnoc(items: seq<Value>, v: Value)
    ensures ItemsText(items + [v]) == ItemsText(items) + (if items == [] then "" else " ") + EdnText(v)
  {
    if |items| == 0 {
    } else {
      assert (items + [v])[1..] == items[1..] + [v];
      ItemsSnoc(items[1..], v);
      SnocText(EdnText(items[0]), " ", ItemsText(items[1..]), EdnText(v));
    }
  }

  lemma {:induction false} PairsSnoc(pairs: seq<(Value, Value)>, p: (Value, Value))
    ensures PairsText(pairs + [p]) == PairsText(pairs) + (if pairs == [] then "" else ", ") + PairText(p)
  {
    if |pairs| == 0 {
    } else {
      assert (pairs + [p])[1..] == pairs[1..] + [p];
      PairsSnoc(pairs[1..], p);
      SnocText(PairText(pairs[0]), ", ", PairsText(pairs[1..]), PairText(p));
    }
  }

  lemma ItemsSnocAt(items: seq<Value>, i: nat)
    requires i < |items|
    ensures ItemsText(items[..i + 1]) == ItemsText(items[..i]) + (if i == 0 then "" else " ") + EdnText(items[i])
  {
    ItemsSnoc(items[..i], items[i]);
    assert items[..i + 1] == items[..i] + [items[i]];
  }

  lemma PairsSnocAt(pairs: seq<(Value, Value)>, i: nat)
    requires i < |pairs|
    ensures PairsText(pairs[..i + 1]) == PairsText(pairs[..i]) + (if i == 0 then "" else ", ") + PairText(pairs[i])
  {
    PairsSnoc(pairs[..i], pairs[i]);
    assert pairs[..i + 1] == pairs[..i] + [pairs[i]];
  }

  method WritePairs(out: Buffer, pairs: seq<(Value, Value)>)
    modifies out
    ensures out.text == old(out.text) + PairsText(pairs)
    decreases pairs
  {
    var i := 0;
    while i < |pairs|
      invariant 0 <= i <= |pairs|
      invariant out.text == old(out.text) + PairsText(pairs[..i])
    {
      PairsSnocAt(pairs, i);
      Join(old(out.text), PairsText(pairs[..i]), if i > 0 then ", " else "", PairText(pairs[i]));
      if i > 0 {
        out.Push(", ");
      }
      WritePair(out, pairs[i]);
      i := i + 1;
    }
    assert pairs[..i] == pairs;
  }

  method WriteItems(out: Buffer, items: seq<Value>)
    modifies out
    ensures out.text == old(out.text) + ItemsText(items)
    decreases items
  {
    var i := 0;
    while i < |items|
      invariant 0 <= i <= |items|
      invariant out.text == old(out.text) + ItemsText(items[..i])
    {
      ItemsSnocAt(items, i);
      Join(old(out.text), ItemsText(items[..i]), if i > 0 then " " else "", EdnText(items[i]));
      if i > 0 {
        out.Push(" ");
      }
      WriteEdn(out, items[i]);
      i := i + 1;
    }
    assert items[..i] == items;
  }

  method WriteEdn(out: Buffer, v: Value)
    modifies out
    ensures out.text == old(out.text) + EdnText(v)
    decreases v, 1
  {
    match v {
      case Nil => out.Push("nil");
      case Bool(b) => out.Push(if b then "true" else "false");
      case Int(i) => out.Push(IntText(i));
      case Str(s) => WriteQuoted(out, s);
      case Keyword(k) =>
        out.Push(":");
        out.Push(k);
      case List(items) =>
        out.Push("[");
        WriteItems(out, items);
        out.Push("]");
        Join(old(out.text), "[", ItemsText(items), "]");
      case Map(pairs) =>
        out.Push("{");
        WritePairs(out, pairs);
        out.Push("}");
        Join(old(out.text), "{", PairsText(pairs), "}");
    }
  }

  method WritePair(out: Buffer, p: (Value, Value))
    modifies out
    ensures out.text == old(out.text) + PairText(p)
    decreases p
  {
    WriteEdn(out, p.0);
    out.Push(" ");
    WriteEdn(out, p.1);
  }

  // ----- Reading -----

  lemma TokenFound(s: string, start: nat, end: nat)
    requires start <= end <= |s| && (end < |s| ==> IsDelim(s[end]))
    requires forall k :: start <= k < end ==> !IsDelim(s[k])
    ensures Token(s[start..]) == s[start..end] && s[start..][end - start..] == s[end..]
  {
    assert s[start..] == s[start..end] + s[end..];
    TokenIs(s[start..end], s[end..]);
  }

  /** The first character after the whitespace decides how a value is read. */
  lemma HeadDecides(s: string, t: string)
    requires t == SkipWs(s) && t != ""
    ensures t[0] == '{' ==> ReadValue(s) == ReadPairs(t[1..], [])
    ensures t[0] == '[' ==> ReadValue(s) == ReadItems(t[1..], ']', [])
    ensures t[0] == '(' ==> ReadValue(s) == ReadItems(t[1..], ')', [])
    ensures t[0] == '\"' && ReadString(t[1..], "").Got? ==>
              ReadValue(s) == Got(Str(ReadString(t[1..], "").value), ReadString(t[1..], "").rest)
    ensures t[0] == '\"' && ReadString(t[1..], "").Bad? ==> ReadValue(s) == Bad
    ensures t[0] == ':' ==> ReadValue(s) == ReadKeyword(t[1..])
    ensures t[0] !in "{[(\":" ==> ReadValue(s) == ReadAtom(t)
  {
  }

  /** A position in an input string. Each method reads what the function of the same name reads from
      the rest of the input, and leaves the position where that function's rest begins. */
  class Parser {
    const src: string
    var pos: nat

    ghost predicate Valid()
      reads this
    {
      pos <= |src|
    }

    ghost function Rest(): string
      reads this
      requires Valid()
    {
      src[pos..]
    }

    /** `r` and the position are what `read` says of the input that was left. */
    ghost predicate Agrees<T>(r: Option<T>, read: Parsed<T>)
      reads this
    {
      && Valid()
      && match read
         case Got(v, rest) => r == Some(v) && Rest() == rest
         case Bad => r == None
    }

    constructor (s: string)
      ensures Valid() && src == s && pos == 0
    {
      src := s;
      pos := 0;
    }

    function Peek(): (c: Option<char>)
      reads this
      requires Valid()
      ensures c == if Rest() == "" then None else Some(Rest()[0])
    {
      if pos < |src| then Some(src[pos]) else None
    }

    method SkipLine()
      requires Valid()
      modifies this`pos
      ensures Valid() && Rest() == Edn.SkipLine(old(Rest()))
    {
      var done := false;
      while !done && pos < |src|
        invariant Valid()
        invariant done ==> Rest() == Edn.SkipLine(old(Rest()))
        invariant !done ==> Edn.SkipLine(Rest()) == Edn.SkipLine(old(Rest()))
        decreases |src| - pos
      {
        var c := src[pos];
        Ahead(src, pos);
        pos := pos + 1;
        done := c == '\n';
      }
    }

    method SkipWs()
      requires Valid()
      modifies this`pos
      ensures Valid() && Rest() == Edn.SkipWs(old(Rest()))
    {
      var done := false;
      while !done
        invariant Valid()
        invariant Edn.SkipWs(Rest()) == Edn.SkipWs(old(Rest()))
        invariant done ==> Rest() == Edn.SkipWs(Rest())
        decreases |src| - pos, !done
      {
        var c := Peek();
        if c.Some? && (IsAsciiSpace(c.value) || c.value == ',') {
          Ahead(src, pos);
          pos := pos + 1;
        } else if c == Some(';') {
          Ahead(src, pos);
          pos := pos + 1;
          SkipLine();
        } else {
          done := true;
        }
      }
    }

    /** The position is after a backslash. */
    method ParseEscape() returns (r: Option<char>)
      requires Valid()
      modifies this`pos
      ensures Agrees(r, ReadEscape(old(Rest())))
    {
      if pos == |src| || src[pos] >= '\U{80}' {
        return None;
      }
      r := Some(match src[pos] case 'n' => '\n' case 'r' => '\r' case 't' => '\t' case other => other);
      pos := pos + 1;
    }

    /** The next character of a string, with its escape undone, or the end of the string. */
    method ParsePiece() returns (piece: Piece)
      requires Valid()
      modifies this`pos
      ensures Valid() && piece == ReadPiece(old(Rest())) && (!piece.Broken? ==> Rest() == piece.rest)
    {
      if pos == |src| {
        return Broken;
      }
      var c := src[pos];
      Ahead(src, pos);
      pos := pos + 1;
      if c == '\"' {
        piece := Close(src[pos..]);
      } else if c == '\\' {
        var plain := ParseEscape();
        piece := if plain.Some? then Char(plain.value, src[pos..]) else Broken;
      } else {
        piece := Char(c, src[pos..]);
      }
    }

    /** `parse_string`: the position is on the opening quote. */
    method ParseString() returns (r: Option<string>)
      requires Valid() && pos < |src|
      modifies this`pos
      ensures Agrees(r, ReadString(old(src[pos + 1..]), ""))
    {
      pos := pos + 1;
      ghost var goal := ReadString(Rest(), "");
      var out := "";
      while true
        invariant Valid() && ReadString(Rest(), out) == goal
        decreases |src| - pos
      {
        var piece := ParsePiece();
        match piece {
          case Close(_) => return Some(out);
          case Broken => return None;
          case Char(c, _) => out := out + [c];
        }
      }
    }

    /** The characters up to the next delimiter. */
    method TakeToken() returns (t: string)
      requires Valid()
      modifies this`pos
      ensures Valid() && t == Token(old(Rest())) && Rest() == old(Rest())[|t|..]
    {
      var start := pos;
      while pos < |src| && !IsDelim(src[pos])
        invariant start <= pos <= |src|
        invariant forall k :: start <= k < pos ==> !IsDelim(src[k])
        decreases |src| - pos
      {
        pos := pos + 1;
      }
      t := src[start..pos];
      TokenFound(src, start, pos);
    }

    method ParseKeyword() returns (r: Option<Value>)
      requires Valid() && pos < |src|
      modifies this`pos
      ensures Agrees(r, ReadKeyword(old(src[pos + 1..])))
    {
      pos := pos + 1;
      var t := TakeToken();
      r := if t == "" then None else Some(Keyword(t));
    }

    method ParseAtom() returns (r: Option<Value>)
      requires Valid()
      modifies this`pos
      ensures Agrees(r, ReadAtom(old(Rest())))
    {
      var t := TakeToken();
      if t == "nil" {
        r := Some(Nil);
      } else if t == "true" {
        r := Some(Bool(true));
      } else if t == "false" {
        r := Some(Bool(false));
      } else {
        var i := ParseI64(t);
        r := if i.Some? then Some(Int(i.value)) else None;
      }
    }

    method ParseValue() returns (r: Option<Value>)
      requires Valid()
      modifies this`pos
      ensures Agrees(r, ReadValue(old(Rest())))
      decreases |src| - pos, 1
    {
      SkipWs();
      if pos == |src| {
        return None;
      }
      var c := src[pos];
      HeadDecides(old(Rest()), Rest());
      Ahead(src, pos);
      if c == '{' {
        r := ParseMap();
      } else if c == '[' || c == '(' {
        r := ParseSeq();
      } else if c == '\"' {
        var s := ParseString();
        r := if s.Some? then Some(Str(s.value)) else None;
      } else if c == ':' {
        r := ParseKeyword();
      } else {
        r := ParseAtom();
      }
    }

    method ParseMap() returns (r: Option<Value>)
      requires Valid() && pos < |src|
      modifies this`pos
      ensures Agrees(r, ReadPairs(old(Rest())[1..], []))
      decreases |src| - pos, 0
    {
      pos := pos + 1;
      var pairs := [];
      while true
        invariant Valid() && old(pos) < pos
        invariant ReadPairs(Rest(), pairs) == ReadPairs(old(Rest())[1..], [])
        decreases |src| - pos
      {
        SkipWs();
        var c := Peek();
        if c == None {
          return None;
        } else if c.value == '}' {
          Ahead(src, pos);
          pos := pos + 1;
          return Some(Map(pairs));
        }
        var k := ParseValue();
        if k == None {
          return None;
        }
        var v := ParseValue();
        if v == None {
          return None;
        }
        pairs := pairs + [(k.value, v.value)];
      }
    }

    method ParseSeq() returns (r: Option<Value>)
      requires Valid() && pos < |src|
      modifies this`pos
      ensures Agrees(r, ReadItems(old(Rest())[1..], if old(Rest())[0] == '(' then ')' else ']', []))
      decreases |src| - pos, 0
    {
      var close := if Peek() == Some('(') then ')' else ']';
      pos := pos + 1;
      var items := [];
      while true
        invariant Valid() && old(pos) < pos
        invariant ReadItems(Rest(), close, items) == ReadItems(old(Rest())[1..], close, [])
        decreases |src| - pos
      {
        SkipWs();
        var c := Peek();
        if c == None {
          return None;
        } else if c.value == close {
          Ahead(src, pos);
          pos := pos + 1;
          return Some(List(items));
        }
        var v := ParseValue();
        if v == None {
          return None;
        }
        items := items + [v.value];
      }
    }
  }

  /** `parse_edn` */
  method ParseWhole(s: string) returns (r: Option<Value>)
    ensures r == ParseEdn(s)
  {
    var p := new Parser(s);
    assert s[0..] == s;
    p.SkipWs();
    var v := p.ParseValue();
    if v == None {
      return None;
    }
    p.SkipWs();
    r := if p.pos != |s| then None else v;
  }
}
