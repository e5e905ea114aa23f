/**
 * The touch controller: a touch start records where the finger went down, and a later move far
 * enough from it is read as one swipe along the dominant axis, after which the start is cleared.
 */
module Touch {
  import opened Geometry

  datatype Swipe = SwipeUp | SwipeDown | SwipeLeft | SwipeRight

  /** The shortest movement, along either axis, that counts as a swipe. */
  const MinSwipeDistance: real := 30.0

  /** The swipe in the opposite direction. */
  function Flip(s: Swipe): Swipe {
    match s
    case SwipeUp => SwipeDown
    case SwipeDown => SwipeUp
    case SwipeLeft => SwipeRight
    case SwipeRight => SwipeLeft
  }

  /**
   * The swipe a movement of (dx, dy) from the start point makes: none when it is shorter than 30
   * along both axes; horizontal when the horizontal part is strictly larger, vertical otherwise
   * (ties included), signed as on screen (y grows downwards).
   */
  function Classify(dx: real, dy: real): (r: Option<Swipe>)
    ensures r.None? <==> Abs(dx) < MinSwipeDistance && Abs(dy) < MinSwipeDistance
    ensures r == Some(SwipeRight) ==> MinSwipeDistance <= dx && Abs(dy) < dx
    ensures r == Some(SwipeLeft) ==> dx <= -MinSwipeDistance && Abs(dy) < -dx
    ensures r == Some(SwipeDown) ==> MinSwipeDistance <= dy && Abs(dx) <= dy
    ensures r == Some(SwipeUp) ==> dy <= -MinSwipeDistance && Abs(dx) <= -dy
  {
    if Abs(dx) < MinSwipeDistance && Abs(dy) < MinSwipeDistance then None
    else if Abs(dx) > Abs(dy) then Some(if dx > 0.0 then SwipeRight else SwipeLeft)
    else Some(if dy > 0.0 then SwipeDown else SwipeUp)
  }

  /**
   * Every long movement is classified by where it went: a movement clearly along one axis in one
   * direction is that swipe.
   */
  lemma ClassifyIsOnto(dx: real, dy: real)
    ensures MinSwipeDistance <= dx && Abs(dy) < dx ==> Classify(dx, dy) == Some(SwipeRight)
    ensures dx <= -MinSwipeDistance && Abs(dy) < -dx ==> Classify(dx, dy) == Some(SwipeLeft)
    ensures MinSwipeDistance <= dy && Abs(dx) <= dy ==> Classify(dx, dy) == Some(SwipeDown)
    ensures dy <= -MinSwipeDistance && Abs(dx) <= -dy ==> Classify(dx, dy) == Some(SwipeUp)
  {
  }

  /** Moving the finger the opposite way gives the opposite swipe (or none, if none before). */
  lemma ClassifyIsOdd(dx: real, dy: real)
    ensures Classify(-dx, -dy) == match Classify(dx, dy) case None => None case Some(s) => Some(Flip(s))
  {
  }

  class TouchController {
    var touchStartX: real
    var touchStartY: real

    /** No touch has started: a zero coordinate means "unset". */
    constructor ()
      ensures touchStartX == 0.0 && touchStartY == 0.0
    {
      touchStartX := 0.0;
      touchStartY := 0.0;
    }

    /** The first touch point becomes the start of the movement. */
    method HandleTouchStart(x: real, y: real)
      modifies this
      ensures touchStartX == x && touchStartY == y
    {
      touchStartX := x;
      touchStartY := y;
    }

    /**
     * A move to (x, y). With no start recorded (either coordinate 0) nothing happens; a movement
     * shorter than 30 on both axes keeps the start; otherwise the swipe is reported and the start
     * cleared, so one touch start gives at most one swipe.
     */
    method HandleTouchMove(x: real, y: real) returns (swipe: Option<Swipe>)
      modifies this
      ensures old(touchStartX) == 0.0 || old(touchStartY) == 0.0 ==> swipe == None
      ensures old(touchStartX) != 0.0 && old(touchStartY) != 0.0 ==>
                swipe == Classify(x - old(touchStartX), y - old(touchStartY))
      ensures swipe.Some? ==> touchStartX == 0.0 && touchStartY == 0.0
      ensures swipe.None? ==> touchStartX == old(touchStartX) && touchStartY == old(touchStartY)
    {
      if touchStartX == 0.0 || touchStartY == 0.0 {
        return None;
      }
      var deltaX := x - touchStartX;
      var deltaY := y - touchStartY;
      if Abs(deltaX) < MinSwipeDistance && Abs(deltaY) < MinSwipeDistance {
        return None;
      }
      if Abs(deltaX) > Abs(deltaY) {
        swipe := Some(if deltaX > 0.0 then SwipeRight else SwipeLeft);
      } else {
        swipe := Some(if deltaY > 0.0 then SwipeDown else SwipeUp);
      }
      touchStartX := 0.0;
      touchStartY := 0.0;
    }
  }
}
