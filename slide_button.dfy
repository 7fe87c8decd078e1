/** The slide-to-confirm control: the thumb follows a horizontal drag inside the track,
    and a release far enough to the right fires the completion callback. */
module SlideButton {

  /** The thumb offset for a drag of `dx`: first raised to 0, then lowered to
      `screenWidth - height - 32`, in that order. */
  function MoveOffset(dx: int, screenWidth: int, height: int): (x: int)
    ensures var limit := screenWidth - height - 32;
            x <= limit
            && (limit >= 0 ==> 0 <= x)
            && (0 <= dx <= limit ==> x == dx)
            && (dx < 0 && limit >= 0 ==> x == 0)
            && (dx > limit ==> x == limit)
  {
    var raised := if dx < 0 then 0 else dx;
    if raised > screenWidth - height - 32 then screenWidth - height - 32 else raised
  }

  /** The release fires the callback: the raw `dx` passes `screenWidth - height - 50`. */
  predicate Completes(dx: int, screenWidth: int, height: int) {
    dx > screenWidth - height - 50
  }

  /** Where the track is at least 50 wider than the thumb, testing the clamped offset
      instead of the raw `dx` would decide every release the same way. */
  lemma ClampedDecidesAlike(dx: int, screenWidth: int, height: int)
    requires screenWidth - height - 50 >= 0
    ensures Completes(MoveOffset(dx, screenWidth, height), screenWidth, height) <==> Completes(dx, screenWidth, height)
  {
  }

  class SlideButton {
    const screenWidth: int
    const height: int
    /** The thumb's horizontal offset (`slideAnim`). */
    var offset: int
    /** How often `onSlideComplete` has been called. */
    var completions: nat

    /** A button on a screen of the given width; the thumb is 60 unless given. */
    constructor (screenWidth: int, height: int := 60)
      ensures this.screenWidth == screenWidth && this.height == height
      ensures offset == 0 && completions == 0
    {
      this.screenWidth := screenWidth;
      this.height := height;
      offset := 0;
      completions := 0;
    }

    /** `onPanResponderMove`: the offset follows `dx` within the track. */
    method OnMove(dx: int)
      modifies this`offset
      ensures offset == MoveOffset(dx, screenWidth, height)
    {
      var newX := dx;
      if newX < 0 {
        newX := 0;
      }
      if newX > screenWidth - height - 32 {
        newX := screenWidth - height - 32;
      }
      offset := newX;
    }

    /** `onPanResponderRelease`: fires the callback once when the raw `dx` passes the
        threshold, and sends the thumb back to 0 either way (the spring is taken as
        having finished). */
    method OnRelease(dx: int) returns (fired: bool)
      modifies this`offset, this`completions
      ensures fired <==> Completes(dx, screenWidth, height)
      ensures completions == old(completions) + (if fired then 1 else 0)
      ensures offset == 0
    {
      fired := dx > screenWidth - height - 50;
      if fired {
        completions := completions + 1;
      }
      offset := 0;
    }
  }
}
