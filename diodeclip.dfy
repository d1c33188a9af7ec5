// The diode clipper (DiodeClip.c): the side-path output is limited to a
// symmetric window [MinVal, MaxVal] and a flag records whether the last
// sample was limited.

module DiodeClip {
  import opened CInt

  function Dist(a: int, b: int): nat { Abs(a - b) }

  datatype Clipped = Clipped(value: int, cliped: bool)

  /** DiodeClip: the nearest point of [minVal, maxVal] to the input, and
    * whether the input lay outside the window. */
  function Clip(minVal: int, maxVal: int, x: int): (r: Clipped)
    requires minVal <= maxVal
    ensures minVal <= r.value <= maxVal
    ensures r.cliped <==> (x < minVal || x > maxVal)
    ensures forall y :: minVal <= y <= maxVal ==> Dist(r.value, x) <= Dist(y, x)
  {
    if x > maxVal then Clipped(maxVal, true)
    else if x < minVal then Clipped(minVal, true)
    else Clipped(x, false)
  }

  /** A sample inside the window passes unchanged and unflagged, so
    * clipping twice is clipping once. */
  lemma ClipIdempotent(minVal: int, maxVal: int, x: int)
    requires minVal <= maxVal
    ensures Clip(minVal, maxVal, Clip(minVal, maxVal, x).value) == Clipped(Clip(minVal, maxVal, x).value, false)
  {
  }

  /** The clipper never reverses the order of two samples. */
  lemma ClipMonotone(minVal: int, maxVal: int, x: int, y: int)
    requires minVal <= maxVal && x <= y
    ensures Clip(minVal, maxVal, x).value <= Clip(minVal, maxVal, y).value
  {
  }
}
