/**
 * The user-selectable profile for the pause between two whirs, and the
 * closed range of milliseconds each profile draws that pause from.
 */
module WhirDelays {

  /** The two delay profiles offered to the user. */
  datatype WhirDelay = InGame | Infrequent

  /** A closed integer range `lo...hi`, both ends included. */
  datatype ClosedRange = ClosedRange(lo: int, hi: int) {
    predicate Contains(x: int) {
      lo <= x <= hi
    }
  }

  /** The longest pause any profile can draw, in milliseconds. */
  const MaxWhirDelay: int := 8001

  /**
   * The range the next whir delay is drawn from. It is never empty (so a
   * uniform draw from it always succeeds), lies within 0..MaxWhirDelay, and
   * the in-game profile is the only one that can draw no pause at all while
   * the infrequent profile is the only one that can draw the longest pause.
   */
  function DelayRange(d: WhirDelay): (r: ClosedRange)
    ensures r.lo <= r.hi
    ensures 0 <= r.lo && r.hi <= MaxWhirDelay
    ensures r.Contains(0) <==> d == InGame
    ensures r.Contains(MaxWhirDelay) <==> d == Infrequent
  {
    match d
    case InGame => ClosedRange(0, 2001)
    case Infrequent => ClosedRange(2001, 8001)
  }

  /** The two profiles' ranges, as the table states them. */
  lemma DelayRangeTable()
    ensures DelayRange(InGame) == ClosedRange(0, 2001)
    ensures DelayRange(Infrequent) == ClosedRange(2001, 8001)
  {
  }

  /**
   * The two ranges touch at exactly one value: every in-game pause is at most
   * as long as every infrequent pause, and only 2001 ms is drawable by both.
   */
  lemma DelayRangesMeetAt2001(inGame: int, infrequent: int)
    requires DelayRange(InGame).Contains(inGame)
    requires DelayRange(Infrequent).Contains(infrequent)
    ensures inGame <= infrequent
    ensures inGame == infrequent ==> inGame == 2001
  {
  }
}
