/**
  The per-card closures of portfolio.js's card setup: the click/tap counter
  that tells a single activation from a double one, and the thumbnail
  rotation cursor. Timers are events: a pending 300 ms tap timer expires,
  a running rotation interval ticks.
 */
module Cards {
  import opened Wrappers
  import opened Images
  import opened Modal

  class CardState {
    const card: Card
    const images: seq<ImageEntry>  // getImages(card), resolved once at setup
    var thumbSrc: string           // the src of the card's <img>

    // click/tap disambiguation
    var taps: nat
    var timerPending: bool         // the 300 ms timer is set and not cleared

    // thumbnail rotation, used only when the card has more than one image
    var cursor: nat                // currentThumbIndex: the image the next tick shows
    ghost var shownAt: nat         // the image the thumbnail shows
    var intervalLive: bool         // the interval whose handle is held in `interval` runs
    var strayIntervals: nat        // intervals whose handle was overwritten: nothing clears them

    /** A card rotates its thumbnail only when it has more than one image. */
    predicate Rotates()
    {
      |images| > 1
    }

    /** The number of rotation intervals that keep ticking. */
    function RunningIntervals(): nat
      reads this
    {
      strayIntervals + if intervalLive then 1 else 0
    }

    /** Between events the counter is 0 or 1 and is 1 exactly while the timer
        is pending; a rotating card shows an image at a valid position and
        its cursor is the position after it; a card that does not rotate has
        no interval. */
    ghost predicate Valid()
      reads this
    {
      images == GetImages(card) &&
      taps <= 1 && (taps == 1 <==> timerPending) &&
      (Rotates() ==>
        shownAt < |images| && cursor == Next(shownAt, |images|) && thumbSrc == images[shownAt].src) &&
      (!Rotates() ==> RunningIntervals() == 0)
    }

    /** Card setup: a rotating card shows image 0, sets the cursor to 1 and
        starts its first interval; any other card keeps its embedded picture. */
    constructor (c: Card)
      requires c.img.Some?
      ensures Valid() && card == c
      ensures taps == 0 && !timerPending
      ensures Rotates() ==> thumbSrc == images[0].src && cursor == 1 && intervalLive && strayIntervals == 0
      ensures !Rotates() ==> thumbSrc == c.img.value && RunningIntervals() == 0
    {
      card := c;
      images := GetImages(c);
      thumbSrc := c.img.value;
      taps, timerPending := 0, false;
      cursor, shownAt := 0, 0;
      intervalLive, strayIntervals := false, 0;
      new;
      if |images| > 1 {
        thumbSrc := images[0].src;
        cursor := 1;
        StartRotation();
      }
    }

    /** `rotateInOrder`, run by a ticking interval: show the image under the
        cursor, then move the cursor on, wrapping at the end. */
    method RotationTick()
      requires Valid() && RunningIntervals() > 0
      modifies this`thumbSrc, this`cursor, this`shownAt
      ensures Valid()
      ensures thumbSrc == images[old(cursor)].src
      ensures cursor == Next(old(cursor), |images|)
    {
      thumbSrc := images[cursor].src;
      shownAt := cursor;
      cursor := (cursor + 1) % |images|;
    }

    /** `startRotation` (card setup, mouseleave, touchend): start a fresh
        interval and keep its handle. The handle it replaces is not cleared,
        so an interval that was still live goes on ticking as a stray one.
        The cursor is left where it was. */
    method StartRotation()
      requires Valid()
      modifies this`intervalLive, this`strayIntervals
      ensures Valid()
      ensures Rotates() ==> intervalLive && RunningIntervals() == old(RunningIntervals()) + 1
      ensures !Rotates() ==> RunningIntervals() == 0
    {
      if |images| > 1 {
        if intervalLive {
          strayIntervals := strayIntervals + 1;
        }
        intervalLive := true;
      }
    }

    /** mouseenter, touchstart: clear the interval whose handle is kept.
        Stray intervals keep ticking. */
    method PauseRotation()
      requires Valid()
      modifies this`intervalLive
      ensures Valid()
      ensures !intervalLive && RunningIntervals() == strayIntervals
    {
      if |images| > 1 {
        intervalLive := false;
      }
    }

    /** `handleTap`, the click listener. A first click starts the 300 ms
        timer and opens nothing; a second click while the timer is pending
        clears it and asks to open the modal at the thumbnail shown. */
    method HandleTap() returns (open: bool, startSrc: string)
      requires Valid()
      modifies this`taps, this`timerPending
      ensures Valid()
      ensures open <==> old(timerPending)
      ensures !old(timerPending) ==> taps == 1 && timerPending
      ensures old(timerPending) ==> taps == 0 && !timerPending
      ensures open ==> startSrc == thumbSrc
    {
      open, startSrc := false, "";
      taps := taps + 1;
      if taps == 1 {
        timerPending := true;
      } else if taps == 2 {
        timerPending := false;
        taps := 0;
        open, startSrc := true, thumbSrc;
      }
    }

    /** The 300 ms timer fires: the counter is reset, and the modal is to be
        opened at the thumbnail shown only on a touch-capable device. */
    method TapTimerExpires(touchCapable: bool) returns (open: bool, startSrc: string)
      requires Valid() && timerPending
      modifies this`taps, this`timerPending
      ensures Valid()
      ensures taps == 0 && !timerPending
      ensures open == touchCapable
      ensures open ==> startSrc == thumbSrc
    {
      timerPending := false;
      taps := 0;
      open, startSrc := false, "";
      if touchCapable {
        open, startSrc := true, thumbSrc;
      }
    }
  }

  /** A click on a card, with the modal call that `handleTap` makes. */
  method ClickCard(session: ModalSession, cs: CardState)
    requires session.Valid() && cs.Valid()
    modifies session, cs`taps, cs`timerPending
    ensures session.Valid() && cs.Valid()
    ensures !old(cs.timerPending) ==> unchanged(session) && cs.timerPending
    ensures old(cs.timerPending) ==>
      !cs.timerPending && session.card == Some(cs.card) && session.images == cs.images &&
      (cs.images != [] ==> session.visible && session.index == StartIndex(cs.images, Some(cs.thumbSrc))) &&
      (cs.images == [] ==> session.visible == old(session.visible) && session.index == old(session.index) &&
                           session.shownSrc == old(session.shownSrc) && session.caption == old(session.caption))
    ensures session.startX == old(session.startX)
  {
    var open, src := cs.HandleTap();
    if open {
      session.OpenModal(cs.card, Some(src));
    }
  }

  /** A card's tap timer fires, with the modal call its callback makes. */
  method TapTimerFires(session: ModalSession, cs: CardState, touchCapable: bool)
    requires session.Valid() && cs.Valid() && cs.timerPending
    modifies session, cs`taps, cs`timerPending
    ensures session.Valid() && cs.Valid() && !cs.timerPending
    ensures !touchCapable ==> unchanged(session)
    ensures touchCapable ==>
      session.card == Some(cs.card) && session.images == cs.images &&
      (cs.images != [] ==> session.visible && session.index == StartIndex(cs.images, Some(cs.thumbSrc))) &&
      (cs.images == [] ==> session.visible == old(session.visible) && session.index == old(session.index) &&
                           session.shownSrc == old(session.shownSrc) && session.caption == old(session.caption))
    ensures session.startX == old(session.startX)
  {
    var open, src := cs.TapTimerExpires(touchCapable);
    if open {
      session.OpenModal(cs.card, Some(src));
    }
  }
}
