// Small shared vocabulary: nullable references and the clock.

module Common {

  /** A value the source declares with a `?` type (`string?`, `CreateTicketStep?`): absent is `Null`. */
  datatype Nullable<+T> = Null | Some(value: T)

  /** A point in time, in whole seconds since `DateTime.MinValue`. No instant lies before it. */
  type Instant = nat

  /** A signed 32-bit integer, the range of a C# `int`. */
  type Int32 = x: int | -0x8000_0000 <= x < 0x8000_0000

  /** C# `int` subtraction in an unchecked context: the exact difference wrapped into 32 bits. */
  function SubInt32(a: Int32, b: Int32): (r: Int32)
    ensures -0x8000_0000 <= a - b < 0x8000_0000 ==> r == a - b
    ensures (r - (a - b)) % 0x1_0000_0000 == 0
  {
    var d := a - b;
    if d < -0x8000_0000 then d + 0x1_0000_0000
    else if d >= 0x8000_0000 then d - 0x1_0000_0000
    else d
  }

  /** A second update of the same key overwrites the first. */
  lemma UpdateOverwrites<K, V>(m: map<K, V>, k: K, a: V, b: V)
    ensures m[k := a][k := b] == m[k := b]
  {
  }
}
