/** Screen positions and the dispatch filter that decides whether a decoded
    hook sample is new enough to be reported to a channel's observers. */
module Points {

  /** A pointer position in screen coordinates. The tracker keeps positions in
      a `Point` of two doubles built from the hook structure's two 32-bit
      integers, so every comparison it makes is exact and integers model it
      faithfully. */
  datatype Point = Point(x: int, y: int)

  /** The value of a `Point` field that was never assigned: both coordinates
      zero. Each channel's last emitted position starts here. */
  const Origin: Point := Point(0, 0)

  /** The dispatch filter: a sample is emitted exactly when it differs from
      the channel's last emitted position in x or in y. Ties never emit. */
  function ShouldEmit(candidate: Point, last: Point): (emit: bool)
    ensures emit <==> candidate != last
  {
    candidate.x != last.x || candidate.y != last.y
  }
}
