/** What the printers write, shape by shape: what stands between, before and after, and how each character of a
    string is spelled (`write_edn`, `write_json` and `push_escaped`, crates/propsim-history/src/edn.rs). */
module Printed {
  import opened Ops
  import opened Text
  import opened Edn
  import opened Json

  /** The parts with a separator in between. */
  function Joined(separator: string, parts: seq<string>): string {
    if parts == [] then ""
    else if |parts| == 1 then parts[0]
    else parts[0] + separator + Joined(separator, parts[1..])
  }

  /** How a character is spelled inside a string: five of them after a backslash. */
  function Spelled(c: char): string {
    match c
    case '\"' => ['\\', '\"']
    case '\\' => ['\\', '\\']
    case '\n' => ['\\', 'n']
    case '\r' => ['\\', 'r']
    case '\t' => ['\\', 't']
    case _ => [c]
  }

  lemma {:induction false} EscapedIs(s: string, parts: seq<string>)
    requires |parts| == |s| && forall i :: 0 <= i < |s| ==> parts[i] == Spelled(s[i])
    ensures Escape(s) == Joined("", parts)
  {
    if s == "" {
    } else {
      EscapedIs(s[1..], parts[1..]);
    }
  }

  lemma {:induction false} ItemsAre(items: seq<Value>, parts: seq<string>)
    requires |parts| == |items| && forall i :: 0 <= i < |items| ==> parts[i] == EdnText(items[i])
    ensures ItemsText(items) == Joined(" ", parts)
  {
    if |items| <= 1 {
    } else {
      ItemsAre(items[1..], parts[1..]);
    }
  }

  lemma {:induction false} PairsAre(pairs: seq<(Value, Value)>, parts: seq<string>)
    requires |parts| == |pairs|
    requires forall i :: 0 <= i < |pairs| ==> parts[i] == EdnText(pairs[i].0) + " " + EdnText(pairs[i].1)
    ensures PairsText(pairs) == Joined(", ", parts)
  {
    if |pairs| <= 1 {
    } else {
      PairsAre(pairs[1..], parts[1..]);
    }
  }

  /** The EDN text of a value, from the texts of its parts. */
  lemma EdnIs(v: Value, parts: seq<string>)
    requires match v
             case Str(s) => |parts| == |s| && forall i :: 0 <= i < |s| ==> parts[i] == Spelled(s[i])
             case List(items) => |parts| == |items| && forall i :: 0 <= i < |items| ==> parts[i] == EdnText(items[i])
             case Map(pairs) =>
               && |parts| == |pairs|
               && forall i :: 0 <= i < |pairs| ==> parts[i] == EdnText(pairs[i].0) + " " + EdnText(pairs[i].1)
             case _ => true
    ensures EdnText(v) == match v
                          case Nil => "nil"
                          case Bool(b) => if b then "true" else "false"
                          case Int(i) => IntText(i)
                          case Str(_) => "\"" + Joined("", parts) + "\""
                          case Keyword(k) => ":" + k
                          case List(_) => "[" + Joined(" ", parts) + "]"
                          case Map(_) => "{" + Joined(", ", parts) + "}"
  {
    match v
    case Str(s) => EscapedIs(s, parts);
    case List(items) => ItemsAre(items, parts);
    case Map(pairs) => PairsAre(pairs, parts);
    case _ =>
  }

  lemma {:induction false} ElementsAre(items: seq<Value>, parts: seq<string>)
    requires |parts| == |items| && forall i :: 0 <= i < |items| ==> parts[i] == JsonText(items[i])
    ensures ElementsText(items) == Joined(",", parts)
  {
    if |items| <= 1 {
    } else {
      ElementsAre(items[1..], parts[1..]);
    }
  }

  lemma {:induction false} MembersAre(pairs: seq<(Value, Value)>, parts: seq<string>)
    requires |parts| == |pairs|
    requires forall i :: 0 <= i < |pairs| ==> parts[i] == KeyText(pairs[i].0) + ":" + JsonText(pairs[i].1)
    ensures MembersText(pairs) == Joined(",", parts)
  {
    if |pairs| <= 1 {
    } else {
      MembersAre(pairs[1..], parts[1..]);
    }
  }

  /** The JSON text of a value, from the texts of its parts. */
  lemma JsonIs(v: Value, parts: seq<string>)
    requires match v
             case Str(s) => |parts| == |s| && forall i :: 0 <= i < |s| ==> parts[i] == Spelled(s[i])
             case Keyword(k) => |parts| == |k| && forall i :: 0 <= i < |k| ==> parts[i] == Spelled(k[i])
             case List(items) => |parts| == |items| && forall i :: 0 <= i < |items| ==> parts[i] == JsonText(items[i])
             case Map(pairs) =>
               && |parts| == |pairs|
               && forall i :: 0 <= i < |pairs| ==> parts[i] == KeyText(pairs[i].0) + ":" + JsonText(pairs[i].1)
             case _ => true
    ensures JsonText(v) == match v
                           case Nil => "null"
                           case Bool(b) => if b then "true" else "false"
                           case Int(i) => IntText(i)
                           case Str(_) => "\"" + Joined("", parts) + "\""
                           case Keyword(_) => "\":" + Joined("", parts) + "\""
                           case List(_) => "[" + Joined(",", parts) + "]"
                           case Map(_) => "{" + Joined(",", parts) + "}"
  {
    match v
    case Str(s) => EscapedIs(s, parts);
    case Keyword(k) => EscapedIs(k, parts);
    case List(items) => ElementsAre(items, parts);
    case Map(pairs) => MembersAre(pairs, parts);
    case _ =>
  }
}
