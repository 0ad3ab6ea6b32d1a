/** The shape of a recorded history: operation entries, their payload values and
    timestamps (crates/propsim-history/src/op.rs and time.rs). */
module Ops {
  datatype Option<+T> = None | Some(value: T)

  const TWO_63: int := 0x8000_0000_0000_0000
  const TWO_64: int := 0x1_0000_0000_0000_0000

  type i64 = x: int | -TWO_63 <= x < TWO_63
  type u64 = x: int | 0 <= x < TWO_64

  /** A self-describing payload. Floats are not part of the model. */
  datatype Value =
    | Nil
    | Bool(b: bool)
    | Int(i: i64)
    | Str(s: string)
    | Keyword(k: string)
    | List(items: seq<Value>)
    | Map(pairs: seq<(Value, Value)>)

  datatype OpKind = Invoke | Ok | Fail | Info

  datatype Clock = Virtual | Wall

  datatype Time = Time(nanos: i64, clock: Clock)

  /** One line of a history. */
  datatype OpEntry = OpEntry(index: nat, time: Time, kind: OpKind, process: nat, f: string, value: Value)
}
