/**
  Client code: what a caller can conclude from the contracts alone, for a
  few concrete pages.
 */
module Scenarios {
  import opened Wrappers
  import opened Images
  import opened Captions
  import opened Modal
  import opened Cards

  /** Two declared objects, the second without a title, opened at "b.jpg":
      the second image is shown and its heading falls back to the card's title. */
  method StartSourceSelectsMatchingImage()
  {
    var card := Card(Listed([Obj(ImageEntry("a.jpg", "Foo", "")), Obj(ImageEntry("b.jpg", "", ""))]),
                     Some("thumb.jpg"), "Atlas", "Web");
    var session := new ModalSession();
    session.OpenModal(card, Some("b.jpg"));
    assert session.images[1].src == "b.jpg" && session.images[0].src != "b.jpg";
    assert session.index == 1;
    assert session.visible && session.caption.heading == "Atlas";
    assert session.caption.prevArrow && session.caption.nextArrow;
  }

  /** A malformed declaration resolves to no images, and opening the card
      leaves a closed modal closed. */
  method MalformedCardIsInert()
  {
    var card := Card(Malformed, Some("thumb.jpg"), "Atlas", "Web");
    var session := new ModalSession();
    session.OpenModal(card, None);
    assert session.images == [] && !session.visible && !session.scrollLocked;
  }

  /** A card with one embedded image never rotates; a double click opens it
      at index 0 with both arrows hidden. */
  method SingleImageDoubleClick()
  {
    var card := Card(Undeclared, Some("only.jpg"), "Atlas", "Web");
    var session := new ModalSession();
    var cs := new CardState(card);
    assert cs.images == [ImageEntry("only.jpg", "", "")];
    ClickCard(session, cs);
    assert !session.visible;
    ClickCard(session, cs);
    assert session.visible && session.index == 0;
    assert !session.caption.prevArrow && !session.caption.nextArrow;
  }

  /** Three declared sources, opened at the last. */
  method OpenThreeAtLast() returns (session: ModalSession)
    ensures session.Valid() && session.visible && |session.images| == 3 && session.index == 2
    ensures fresh(session)
  {
    var card := Card(Listed([Str("a.jpg"), Str("b.jpg"), Str("c.jpg")]), Some("a.jpg"), "Atlas", "Web");
    session := new ModalSession();
    session.OpenModal(card, Some("c.jpg"));
    assert session.images[2].src == "c.jpg";
  }

  /** ArrowRight on the last image wraps to the first. */
  method KeyWrapsAround()
  {
    var session := OpenThreeAtLast();
    session.KeyDown("ArrowRight");
    assert session.index == 0;
  }

  /** A swipe to the left of more than 50 pixels moves on and forgets where
      it began, so a touchend without a new touchstart does nothing. */
  method SwipeMovesOnOnce()
  {
    var session := OpenThreeAtLast();
    session.TouchStart(300);
    session.TouchEnd(200);
    assert session.index == 0 && session.startX == 0;
    session.TouchEnd(100);
    assert session.index == 0;
  }

  /** Escape closes the modal; arrow keys then do nothing. */
  method KeysIgnoredOnceClosed()
  {
    var session := OpenThreeAtLast();
    session.KeyDown("Escape");
    assert !session.visible && !session.scrollLocked;
    session.KeyDown("ArrowLeft");
    assert session.index == 2;
  }

  /** A second `startRotation` without a pause between (a touchend followed by
      a mouseleave) leaves a stray interval that the next pause does not
      clear: the thumbnail keeps rotating while the pointer is on the card. */
  method RotationIntervalsStack()
  {
    var card := Card(Listed([Str("a.jpg"), Str("b.jpg"), Str("c.jpg")]), Some("a.jpg"), "Atlas", "Web");
    var cs := new CardState(card);
    assert cs.thumbSrc == "a.jpg" && cs.cursor == 1;
    cs.StartRotation();
    cs.PauseRotation();
    assert cs.RunningIntervals() == 1;
    cs.RotationTick();
    assert cs.thumbSrc == "b.jpg" && cs.cursor == 2;
    cs.RotationTick();
    cs.RotationTick();
    assert cs.thumbSrc == "a.jpg" && cs.cursor == 1;
  }

  /** Hovering a freshly set-up card stops its rotation: no interval runs. */
  method HoverStopsFreshRotation()
  {
    var card := Card(Listed([Str("a.jpg"), Str("b.jpg"), Str("c.jpg")]), Some("a.jpg"), "Atlas", "Web");
    var cs := new CardState(card);
    cs.PauseRotation();
    assert cs.RunningIntervals() == 0;
  }

  /** After one rotation tick the thumbnail shows the second image, and a
      double click opens the modal there. */
  method DoubleClickOpensAtRotatedThumbnail()
  {
    var card := Card(Listed([Str("a.jpg"), Str("b.jpg"), Str("c.jpg")]), Some("a.jpg"), "Atlas", "Web");
    var session := new ModalSession();
    var cs := new CardState(card);
    cs.RotationTick();
    assert cs.thumbSrc == "b.jpg";
    ClickCard(session, cs);
    ClickCard(session, cs);
    assert cs.images[0].src != "b.jpg" && cs.images[1].src == "b.jpg";
    assert session.visible && session.index == 1;
  }

  /** Double-clicking a card whose declaration is malformed leaves the modal
      closed. */
  method DoubleClickOnMalformedCard()
  {
    var card := Card(Malformed, Some("thumb.jpg"), "Atlas", "Web");
    var session := new ModalSession();
    var cs := new CardState(card);
    ClickCard(session, cs);
    ClickCard(session, cs);
    assert !session.visible;
  }

  /** Double-clicking a card without images over an open modal keeps the
      modal open on the picture it showed, and forgets no touch start. */
  method DoubleClickOnEmptyCardOverOpenModal()
  {
    var session := OpenThreeAtLast();
    session.TouchStart(120);
    var shown := session.shownSrc;
    var cs := new CardState(Card(Malformed, Some("thumb.jpg"), "Atlas", "Web"));
    ClickCard(session, cs);
    ClickCard(session, cs);
    assert session.images == [] && session.visible && session.index == 2;
    assert session.shownSrc == shown && session.startX == 120;
  }
}
