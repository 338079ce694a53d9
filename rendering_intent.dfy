/** The rendering intent field of the profile header (section 7.2.15 of ICC.1:2010). */
module RenderingIntents {

  /** The enum constants in declaration order; `Unknown` stands for every value outside 0..3. */
  datatype RenderingIntent = Perceptual | Relative | Saturation | Absolute | Unknown

  /** The value each constant is declared with. */
  function Value(ri: RenderingIntent): int
  {
    match ri
    case Perceptual => 0
    case Relative => 1
    case Saturation => 2
    case Absolute => 3
    case Unknown => -1
  }

  /** `values()`: the constants in declaration order. */
  const AllIntents: seq<RenderingIntent> := [Perceptual, Relative, Saturation, Absolute, Unknown]

  /** `getRenderingIntentType`: the constant at position `type` of `values()` for 0..3, `Unknown` otherwise. */
  function GetRenderingIntentType(t: int): (r: RenderingIntent)
    ensures 0 <= t <= 3 ==> Value(r) == t
    ensures (t < 0 || 3 < t) <==> r == Unknown
  {
    if 0 <= t <= 3 then AllIntents[t] else Unknown
  }

  /** Distinct constants have distinct values, so the value identifies the intent. */
  lemma ValuesDistinct(a: RenderingIntent, b: RenderingIntent)
    ensures Value(a) == Value(b) ==> a == b
  {
  }

  /** Looking up a constant's own value gives it back. */
  lemma GetValue(ri: RenderingIntent)
    ensures GetRenderingIntentType(Value(ri)) == ri
  {
  }
}
