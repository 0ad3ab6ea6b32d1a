/** The JSON writer and reader as they are written (crates/propsim-history/src/edn.rs). */
module JsonCodec {
  import opened Ops
  import opened Text
  import opened Json
  import opened Edn
  import opened EdnCodec

  // ----- Writing -----

  lemma {:induction false} ElementsSnoc(items: seq<Value>, v: Value)
    ensures ElementsText(items + [v]) == ElementsText(items) + (if items == [] then "" else ",") + JsonText(v)
  {
    if |items| == 0 {
    } else {
      assert (items + [v])[1..] == items[1..] + [v];
      ElementsSnoc(items[1..], v);
      SnocText(JsonText(items[0]), ",", ElementsText(items[1..]), JsonText(v));
    }
  }

  lemma {:induction false} MembersSnoc(pairs: seq<(Value, Value)>, p: (Value, Value))
    ensures MembersText(pairs + [p]) == MembersText(pairs) + (if pairs == [] then "" else ",") + MemberText(p)
  {
    if |pairs| == 0 {
    } else {
      assert (pairs + [p])[1..] == pairs[1..] + [p];
      MembersSnoc(pairs[1..], p);
      SnocText(MemberText(pairs[0]), ",", MembersText(pairs[1..]), MemberText(p));
    }
  }

  lemma ElementsSnocAt(items: seq<Value>, i: nat)
    requires i < |items|
    ensures ElementsText(items[..i + 1])
         == ElementsText(items[..i]) + (if i == 0 then "" else ",") + JsonText(items[i])
  {
    ElementsSnoc(items[..i], items[i]);
    assert items[..i + 1] == items[..i] + [items[i]];
  }

  lemma MembersSnocAt(pairs: seq<(Value, Value)>, i: nat)
    requires i < |pairs|
    ensures MembersText(pairs[..i + 1])
         == MembersText(pairs[..i]) + (if i == 0 then "" else ",") + MemberText(pairs[i])
  {
    assert pairs[..i + 1] == pairs[..i] + [pairs[i]];
    assert (pairs[..i] == []) == (i == 0);
    MembersSnoc(pairs[..i], pairs[i]);
  }

  /** A keyword, as a string that says it is one. */
  method WriteKeyword(out: Buffer, k: string)
    modifies out
    ensures out.text == old(out.text) + ("\":" + Escape(k) + "\"")
  {
    out.Push("\"");
    out.Push(":");
    PushEscaped(out, k);
    out.Push("\"");
  }

  method WriteJsonKey(out: Buffer, k: Value)
    modifies out
    ensures out.text == old(out.text) + KeyText(k)
  {
    match k {
      case Str(s) => WriteQuoted(out, s);
      case Keyword(kw) => WriteKeyword(out, kw);
      case Int(i) =>
        out.Push("\"");
        out.Push(IntText(i));
        out.Push("\"");
        Join(old(out.text), "\"", IntText(i), "\"");
      case other =>
        var tmp := new Buffer();
        WriteEdn(tmp, k);
        assert tmp.text == EdnText(k) && k == other;
        WriteQuoted(out, tmp.text);
    }
  }

  method WriteMembers(out: Buffer, pairs: seq<(Value, Value)>)
    modifies out
    ensures out.text == old(out.text) + MembersText(pairs)
    decreases pairs
  {
    var i := 0;
    while i < |pairs|
      invariant 0 <= i <= |pairs|
      invariant out.text == old(out.text) + MembersText(pairs[..i])
    {
      MembersSnocAt(pairs, i);
      Join(old(out.text), MembersText(pairs[..i]), if i > 0 then "," else "", MemberText(pairs[i]));
      if i > 0 {
        out.Push(",");
      }
      WriteMember(out, pairs[i]);
      i := i + 1;
    }
    assert pairs[..i] == pairs;
  }

  method WriteElements(out: Buffer, items: seq<Value>)
    modifies out
    ensures out.text == old(out.text) + ElementsText(items)
    decreases items
  {
    var i := 0;
    while i < |items|
      invariant 0 <= i <= |items|
      invariant out.text == old(out.text) + ElementsText(items[..i])
    {
      ElementsSnocAt(items, i);
      Join(old(out.text), ElementsText(items[..i]), if i > 0 then "," else "", JsonText(items[i]));
      if i > 0 {
        out.Push(",");
      }
      WriteJson(out, items[i]);
      i := i + 1;
    }
    assert items[..i] == items;
  }

  method WriteJson(out: Buffer, v: Value)
    modifies out
    ensures out.text == old(out.text) + JsonText(v)
    decreases v, 1
  {
    match v {
      case Nil => out.Push("null");
      case Bool(b) => out.Push(if b then "true" else "false");
      case Int(i) => out.Push(IntText(i));
      case Str(s) => WriteQuoted(out, s);
      case Keyword(k) => WriteKeyword(out, k);
      case List(items) =>
        out.Push("[");
        WriteElements(out, items);
        out.Push("]");
        Join(old(out.text), "[", ElementsText(items), "]");
      case Map(pairs) =>
        out.Push("{");
        WriteMembers(out, pairs);
        out.Push("}");
        Join(old(out.text), "{", MembersText(pairs), "}");
    }
  }

  method WriteMember(out: Buffer, p: (Value, Value))
    modifies out
    ensures out.text == old(out.text) + MemberText(p)
    decreases p
  {
    WriteJsonKey(out, p.0);
    out.Push(":");
    WriteJson(out, p.1);
  }

  // ----- Reading -----

  lemma NumberFound(s: string, start: nat, end: nat)
    requires start <= end <= |s| && (end < |s| ==> !IsNumberChar(s[end]))
    requires forall k :: start <= k < end ==> IsNumberChar(s[k])
    ensures NumberToken(s[start..]) == s[start..end] && s[start..][end - start..] == s[end..]
  {
    assert s[start..] == s[start..end] + s[end..];
    NumberTokenIs(s[start..end], s[end..]);
  }

  /** A position in an input string, moved as the reading functions of `Json` say. */
  class JsonParser {
    const src: string
    var pos: nat

    ghost predicate Valid()
      reads this
    {
      pos <= |src|
    }

    ghost function Rest(): string
      reads this
      requires Valid()
    {
      src[pos..]
    }

    /** `r` and the position are what `read` says of the input that was left. */
    ghost predicate Agrees<T>(r: Option<T>, read: Parsed<T>)
      reads this
    {
      && Valid()
      && match read
         case Got(v, rest) => r == Some(v) && Rest() == rest
         case Bad => r == None
    }

    constructor (s: string)
      ensures Valid() && src == s && pos == 0
    {
      src := s;
      pos := 0;
    }

    function Peek(): (c: Option<char>)
      reads this
      requires Valid()
      ensures c == if Rest() == "" then None else Some(Rest()[0])
    {
      if pos < |src| then Some(src[pos]) else None
    }

    method SkipWs()
      requires Valid()
      modifies this`pos
      ensures Valid() && Rest() == SkipSpace(old(Rest()))
    {
      while pos < |src| && IsAsciiSpace(src[pos])
        invariant Valid()
        invariant SkipSpace(Rest()) == SkipSpace(old(Rest()))
        decreases |src| - pos
      {
        Ahead(src, pos);
        pos := pos + 1;
      }
    }

    /** The position is after a backslash. */
    method ParseEscape() returns (r: Option<char>)
      requires Valid()
      modifies this`pos
      ensures Agrees(r, ReadJsonEscape(old(Rest())))
    {
      if pos == |src| || src[pos] >= '\U{80}' {
        return None;
      }
      ghost var s := Rest();
      assert s[1..] == src[pos + 1..];
      if src[pos] == 'u' {
        assert |s| >= 5 ==> s[1..5] == src[pos + 1..pos + 5] && s[5..] == src[pos + 5..];
        pos := pos + 1;
        if pos + 4 > |src| {
          return None;
        }
        r := UnicodeEscape(src[pos..pos + 4]);
        pos := pos + 4;
      } else {
        r := Some(match src[pos] case 'n' => '\n' case 'r' => '\r' case 't' => '\t' case other => other);
        pos := pos + 1;
      }
    }

    /** The next character of a string, with its escape undone, or the end of the string. */
    method ParsePiece() returns (piece: Piece)
      requires Valid()
      modifies this`pos
      ensures Valid() && piece == ReadJsonPiece(old(Rest())) && (!piece.Broken? ==> Rest() == piece.rest)
    {
      if pos == |src| {
        return Broken;
      }
      var c := src[pos];
      Ahead(src, pos);
      pos := pos + 1;
      if c == '\"' {
        piece := Close(src[pos..]);
      } else if c == '\\' {
        var plain := ParseEscape();
        piece := if plain.Some? then Char(plain.value, src[pos..]) else Broken;
      } else {
        piece := Char(c, src[pos..]);
      }
    }

    /** `parse_string`: the position is on the opening quote. */
    method ParseString() returns (r: Option<string>)
      requires Valid() && pos < |src|
      modifies this`pos
      ensures Agrees(r, ReadJsonString(old(src[pos + 1..]), ""))
    {
      pos := pos + 1;
      ghost var goal := ReadJsonString(Rest(), "");
      var out := "";
      while true
        invariant Valid() && ReadJsonString(Rest(), out) == goal
        decreases |src| - pos
      {
        var piece := ParsePiece();
        match piece {
          case Close(_) => return Some(out);
          case Broken => return None;
          case Char(c, _) => out := out + [c];
        }
      }
    }

    method ParseLiteral() returns (r: Option<Value>)
      requires Valid()
      modifies this`pos
      ensures Agrees(r, ReadLiteral(old(Rest())))
    {
      if "true" <= src[pos..] {
        pos := pos + 4;
        r := Some(Bool(true));
      } else if "false" <= src[pos..] {
        pos := pos + 5;
        r := Some(Bool(false));
      } else if "null" <= src[pos..] {
        pos := pos + 4;
        r := Some(Nil);
      } else {
        r := None;
      }
    }

    method ParseNumber() returns (r: Option<Value>)
      requires Valid()
      modifies this`pos
      ensures Agrees(r, ReadNumber(old(Rest())))
    {
      var start := pos;
      while pos < |src| && IsNumberChar(src[pos])
        invariant start <= pos <= |src|
        invariant forall k :: start <= k < pos ==> IsNumberChar(src[k])
        decreases |src| - pos
      {
        pos := pos + 1;
      }
      NumberFound(src, start, pos);
      var i := ParseI64(src[start..pos]);
      r := if i.Some? then Some(Int(i.value)) else None;
    }

    method ParseValue() returns (r: Option<Value>)
      requires Valid()
      modifies this`pos
      ensures Agrees(r, ReadJson(old(Rest())))
      decreases |src| - pos, 1
    {
      SkipWs();
      var c := Peek();
      if c == None {
        r := None;
      } else if c.value == '{' {
        r := ParseObject();
      } else if c.value == '[' {
        r := ParseArray();
      } else if c.value == '\"' {
        Ahead(src, pos);
        var s := ParseString();
        r := if s.Some? then Some(StrToValue(s.value)) else None;
      } else if c.value in "tfn" {
        r := ParseLiteral();
      } else {
        r := ParseNumber();
      }
    }

    method ParseObject() returns (r: Option<Value>)
      requires Valid() && pos < |src|
      modifies this`pos
      ensures Agrees(r, ReadMembers(old(Rest())[1..], []))
      decreases |src| - pos, 0
    {
      Ahead(src, pos);
      pos := pos + 1;
      ghost var goal := ReadMembers(Rest(), []);
      var pairs := [];
      while true
        invariant Valid() && old(pos) < pos && ReadMembers(Rest(), pairs) == goal
        decreases |src| - pos
      {
        SkipWs();
        var c := Peek();
        if c == None {
          return None;
        }
        Ahead(src, pos);
        if c.value == '}' {
          pos := pos + 1;
          return Some(Map(pairs));
        } else if c.value == ',' {
          pos := pos + 1;
        } else if c.value == '\"' {
          var p := ParseMember();
          if p == None {
            return None;
          }
          pairs := pairs + [p.value];
        } else {
          return None;
        }
      }
    }

    /** The position is on the opening quote. */
    method ParseKey() returns (r: Option<string>)
      requires Valid() && pos < |src|
      modifies this`pos
      ensures Agrees(r, ReadKey(old(Rest())))
    {
      Ahead(src, pos);
      r := ParseString();
      if r == None {
        return;
      }
      SkipWs();
      if Peek() != Some(':') {
        return None;
      }
      Ahead(src, pos);
      pos := pos + 1;
    }

    method ParseMember() returns (r: Option<(Value, Value)>)
      requires Valid() && pos < |src|
      modifies this`pos
      ensures Agrees(r, ReadMember(old(Rest())))
      decreases |src| - pos, 0
    {
      var k := ParseKey();
      if k == None {
        return None;
      }
      var v := ParseValue();
      r := if v.Some? then Some((StrToValue(k.value), v.value)) else None;
    }

    method ParseArray() returns (r: Option<Value>)
      requires Valid() && pos < |src|
      modifies this`pos
      ensures Agrees(r, ReadElements(old(Rest())[1..], []))
      decreases |src| - pos, 0
    {
      Ahead(src, pos);
      pos := pos + 1;
      ghost var goal := ReadElements(Rest(), []);
      var items := [];
      while true
        invariant Valid() && old(pos) < pos && ReadElements(Rest(), items) == goal
        decreases |src| - pos
      {
        SkipWs();
        var c := Peek();
        if c == None {
          return None;
        }
        if c.value == ']' {
          Ahead(src, pos);
          pos := pos + 1;
          return Some(List(items));
        } else if c.value == ',' {
          Ahead(src, pos);
          pos := pos + 1;
        } else {
          var v := ParseValue();
          if v == None {
            return None;
          }
          items := items + [v.value];
        }
      }
    }
  }

  /** `parse_json` */
  method ParseWholeJson(s: string) returns (r: Option<Value>)
    ensures r == ParseJson(s)
  {
    var p := new JsonParser(s);
    assert s[0..] == s;
    p.SkipWs();
    var v := p.ParseValue();
    if v == None {
      return None;
    }
    p.SkipWs();
    r := if p.pos != |s| then None else v;
  }
}
