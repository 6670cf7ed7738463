/**
 * `java.awt.Color` as the equality and hash code see it: a colour is its
 * packed ARGB `int`; `equals` compares that value and `hashCode` returns it.
 */
module AwtColor {
  import opened Lang

  datatype Color = Color(argb: int32)

  /** `Color.RED`, ARGB 0xFFFF0000. */
  const RED: Color := Color(-0x1_0000)

  /** `Color.BLUE`, ARGB 0xFF0000FF. */
  const BLUE: Color := Color(-0xFF_FF01)

  /** `Color.hashCode()`. */
  function ColorHash(c: Color): int32 {
    c.argb
  }
}
