/** Values shared by every part of the model: optional columns, database time,
    call outcomes, the rounding of durations to SQL milliseconds, and blank strings. */
module Types {

  datatype Option<+T> = None | Some(value: T)

  /** How a call to another system ends: it works, or it reports an error although it may
      have taken effect. */
  datatype Call = Works | Errs(applied: bool)

  /** A point on PostgreSQL's clock, or a duration, in nanoseconds. */
  type Time = int

  const MILLISECOND: int := 1_000_000

  /** The number of virtual ordering partitions; a protocol constant. */
  const PARTITION_COUNT: nat := 64

  /** An ordered stream: a destination together with an ordering key. */
  datatype StreamKey = StreamKey(destination: string, key: string)

  /** Durations reach SQL as whole milliseconds, rounded up; non-positive ones become zero. */
  function IntervalMS(d: Time): (ms: nat)
    ensures d <= ms * MILLISECOND
    ensures 0 < d ==> (ms - 1) * MILLISECOND < d
    ensures d <= 0 ==> ms == 0
  {
    if d <= 0 then 0
    else if d % MILLISECOND != 0 then d / MILLISECOND + 1
    else d / MILLISECOND
  }

  /** The duration SQL actually adds for a Go duration. */
  function Whole(d: Time): (r: Time)
    ensures d <= r && 0 <= r
  {
    IntervalMS(d) * MILLISECOND
  }

  function Max(a: int, b: int): (r: int)
    ensures r == a || r == b
    ensures a <= r && b <= r
  {
    if a < b then b else a
  }

  function Min(a: int, b: int): (r: int)
    ensures r == a || r == b
    ensures r <= a && r <= b
  {
    if a < b then a else b
  }

  predicate IsSpace(c: char) {
    || c == ' ' || ('\t' <= c <= '\r')
    || c as int == 0x85 || c as int == 0xA0 || c as int == 0x1680
    || 0x2000 <= c as int <= 0x200A || c as int == 0x2028 || c as int == 0x2029
    || c as int == 0x202F || c as int == 0x205F || c as int == 0x3000
  }

  /** True of strings that trim to the empty string. */
  predicate Blank(s: string) {
    forall i :: 0 <= i < |s| ==> IsSpace(s[i])
  }

  /** True of strings that trimming would change. */
  predicate Padded(s: string) {
    s != "" && (IsSpace(s[0]) || IsSpace(s[|s| - 1]))
  }
}
