/**
 * Go's fixed-width integers on a 64-bit platform, as the service uses them:
 * `int` (the type of `Todo.ID` and of what `strconv.Atoi` returns), `uint64`
 * (the bucket's sequence counter and the argument of `PutUint64`) and `byte`.
 */
module Machine {

  const TWO_TO_THE_63: int := 0x8000_0000_0000_0000
  const TWO_TO_THE_64: int := 0x1_0000_0000_0000_0000
  const MAX_UINT64: int := TWO_TO_THE_64 - 1

  type Byte = b: int | 0 <= b < 0x100
  type Uint64 = u: int | 0 <= u < 0x1_0000_0000_0000_0000
  type Int64 = i: int | -0x8000_0000_0000_0000 <= i < 0x8000_0000_0000_0000

  /** Go's conversion `uint64(v)`: the two's-complement bits of `v` read as unsigned. */
  function AsUint64(v: Int64): (u: Uint64)
    ensures (u - v) % TWO_TO_THE_64 == 0
    ensures v >= 0 <==> u < TWO_TO_THE_63
  {
    if v < 0 then v + TWO_TO_THE_64 else v
  }

  /** Go's conversion `int(u)` of a `uint64`: the same bits read as signed. */
  function AsInt64(u: Uint64): (v: Int64)
    ensures AsUint64(v) == u
  {
    if u < TWO_TO_THE_63 then u else u - TWO_TO_THE_64
  }

  /** The two conversions are inverse bijections between `int` and `uint64`. */
  lemma ConversionsRoundTrip(v: Int64, u: Uint64)
    ensures AsInt64(AsUint64(v)) == v
    ensures AsUint64(v) == u <==> v == AsInt64(u)
  {
  }
}
