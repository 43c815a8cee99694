/**
  The gallery modal of portfolio.js: the module-level session state
  (`currentCard`, `currentImages`, `currentIndex`, `startX`, the modal's
  visibility and the page's scroll lock) and the handlers that change it.
 */
module Modal {
  import opened Wrappers
  import opened Images
  import opened Captions

  /** The index after `i` in a list of `n` images, `(i + 1) % n`. */
  function Next(i: nat, n: nat): (r: nat)
    requires i < n
    ensures r < n
    ensures r == if i == n - 1 then 0 else i + 1
  {
    (i + 1) % n
  }

  /** The index before `i` in a list of `n` images, `(i - 1 + n) % n`; the
      operands are never negative, so JavaScript's `%` and Dafny's agree. */
  function Prev(i: nat, n: nat): (r: nat)
    requires i < n
    ensures r < n
    ensures r == if i == 0 then n - 1 else i - 1
  {
    (i - 1 + n) % n
  }

  lemma PrevUndoesNext(i: nat, n: nat)
    requires i < n
    ensures Prev(Next(i, n), n) == i
  {
  }

  lemma NextUndoesPrev(i: nat, n: nat)
    requires i < n
    ensures Next(Prev(i, n), n) == i
  {
  }

  /** `Next` applied `k` times. */
  function NextN(i: nat, n: nat, k: nat): (r: nat)
    requires i < n
    ensures r < n
    decreases k
  {
    if k == 0 then i else NextN(Next(i, n), n, k - 1)
  }

  /** `k` steps and then `m` more are `k + m` steps. */
  lemma {:induction false} NextNSplit(i: nat, n: nat, k: nat, m: nat)
    requires i < n
    ensures NextN(i, n, k + m) == NextN(NextN(i, n, k), n, m)
    decreases k
  {
    if k > 0 {
      NextNSplit(Next(i, n), n, k - 1, m);
    }
  }

  /** Before the end of the list is reached, `k` steps forward add `k`. */
  lemma {:induction false} NextNCounts(i: nat, n: nat, k: nat)
    requires i + k < n
    ensures NextN(i, n, k) == i + k
    decreases k
  {
    if k > 0 {
      NextNCounts(i + 1, n, k - 1);
    }
  }

  /** Navigation is cyclic: `n` steps forward return to the start. */
  lemma NextCycles(i: nat, n: nat)
    requires i < n
    ensures NextN(i, n, n) == i
  {
    NextNSplit(i, n, n - 1 - i, 1);
    NextNCounts(i, n, n - 1 - i);
    assert NextN(i, n, n - i) == 0;
    NextNSplit(i, n, n - i, i);
    NextNCounts(0, n, i);
  }

  /** `Array.prototype.findIndex` on the sources: the first position whose
      source is `src`, or -1 when there is none. */
  function FindIndex(images: seq<ImageEntry>, src: string): (r: int)
    ensures -1 <= r < |images|
    ensures r == -1 <==> forall j :: 0 <= j < |images| ==> images[j].src != src
    ensures r >= 0 ==> images[r].src == src && forall j :: 0 <= j < r ==> images[j].src != src
  {
    if images == [] then -1
    else if images[0].src == src then 0
    else
      var k := FindIndex(images[1..], src);
      assert forall j :: 1 <= j < |images| ==> images[j] == images[1..][j - 1];
      if k == -1 then -1 else k + 1
  }

  /** Whether a start source was given: JavaScript's truthiness of a string
      that may be null. */
  predicate Given(startSrc: Option<string>)
  {
    startSrc.Some? && startSrc.value != ""
  }

  /** The index `openModal` starts at: the first image whose source is the
      given start source, or 0 when none matches or none was given. */
  function StartIndex(images: seq<ImageEntry>, startSrc: Option<string>): (i: nat)
    ensures images != [] ==> i < |images|
    ensures !Given(startSrc) ==> i == 0
    ensures Given(startSrc) && (exists j :: 0 <= j < |images| && images[j].src == startSrc.value) ==>
      images[i].src == startSrc.value && forall j :: 0 <= j < i ==> images[j].src != startSrc.value
    ensures Given(startSrc) && (forall j :: 0 <= j < |images| ==> images[j].src != startSrc.value) ==> i == 0
  {
    var k := if Given(startSrc) then FindIndex(images, startSrc.value) else 0;
    if k == -1 then 0 else k
  }

  function Abs(x: int): (r: nat)
    ensures r == x || r == -x
  {
    if x < 0 then -x else x
  }

  /** The swipe distance a touch must cover, in pixels, to navigate. */
  const SwipeThreshold: int := 50

  class ModalSession {
    var visible: bool        // the modal's display is 'block'
    var scrollLocked: bool   // the page body's overflow is 'hidden'
    var card: Option<Card>   // currentCard
    var images: seq<ImageEntry>  // currentImages
    var index: nat           // currentIndex
    var startX: int          // where the last touch on the modal began; 0 when none is recorded
    var shownSrc: string     // the modal image's src, as last rendered
    var caption: Caption     // the caption and arrows, as last rendered

    /** The session invariant: a non-empty image list is indexed in range,
        the scroll lock follows visibility, and while the modal is visible
        with images it shows the current one. */
    ghost predicate Valid()
      reads this
    {
      (|images| > 0 ==> index < |images|) &&
      (visible <==> scrollLocked) &&
      (visible && |images| > 0 ==> ShowsCurrent())
    }

    /** The modal surface shows the current image and its caption. */
    ghost predicate ShowsCurrent()
      reads this
    {
      index < |images| &&
      shownSrc == images[index].src &&
      caption == CaptionFor(images[index], card, |images|)
    }

    constructor ()
      ensures Valid()
      ensures !visible && !scrollLocked && card == None && images == [] && index == 0 && startX == 0
    {
      visible, scrollLocked := false, false;
      card, images, index, startX := None, [], 0, 0;
      shownSrc := "";
      caption := Caption("", None, "", false, false);
    }

    /** `updateModalImage`: render the current image, unless there is none. */
    method UpdateModalImage()
      requires |images| > 0 ==> index < |images|
      modifies this`shownSrc, this`caption
      ensures |images| > 0 ==> ShowsCurrent()
      ensures |images| == 0 ==> shownSrc == old(shownSrc) && caption == old(caption)
    {
      if |images| == 0 {
        return;
      }
      var imgData := images[index];
      shownSrc := imgData.src;
      caption := CaptionFor(imgData, card, |images|);
    }

    /** `closeModal`: hide the modal and give the page its scrolling back. */
    method CloseModal()
      requires Valid()
      modifies this`visible, this`scrollLocked
      ensures Valid()
      ensures !visible && !scrollLocked
    {
      visible := false;
      scrollLocked := false;
    }

    /** `openModal(card, startSrc)`. The card and its images are recorded in
        every case; a card without images changes nothing else, a card with
        images is shown from its start index. */
    method OpenModal(c: Card, startSrc: Option<string>)
      requires Valid()
      modifies this
      ensures Valid()
      ensures card == Some(c) && images == GetImages(c) && startX == old(startX)
      ensures images == [] ==>
        visible == old(visible) && scrollLocked == old(scrollLocked) && index == old(index) &&
        shownSrc == old(shownSrc) && caption == old(caption)
      ensures images != [] ==>
        index == StartIndex(images, startSrc) && visible && scrollLocked && ShowsCurrent()
    {
      card := Some(c);
      images := GetImages(c);
      if |images| == 0 {
        return;
      }
      var found := if Given(startSrc) then FindIndex(images, startSrc.value) else 0;
      index := if found == -1 then 0 else found;
      UpdateModalImage();
      visible := true;
      scrollLocked := true;
    }

    /** `prevImage`: step back one image, wrapping from the first to the last. */
    method PrevImage()
      requires Valid() && |images| > 0
      modifies this`index, this`shownSrc, this`caption
      ensures Valid() && ShowsCurrent()
      ensures index == Prev(old(index), |images|)
    {
      index := (index - 1 + |images|) % |images|;
      UpdateModalImage();
    }

    /** `nextImage`: step forward one image, wrapping from the last to the first. */
    method NextImage()
      requires Valid() && |images| > 0
      modifies this`index, this`shownSrc, this`caption
      ensures Valid() && ShowsCurrent()
      ensures index == Next(old(index), |images|)
    {
      index := (index + 1) % |images|;
      UpdateModalImage();
    }

    /** The document's keydown listener: only while the modal is visible,
        ArrowLeft goes back, ArrowRight goes forward and Escape closes. */
    method KeyDown(key: string)
      requires Valid()
      requires visible && (key == "ArrowLeft" || key == "ArrowRight") ==> |images| > 0
      modifies this
      ensures Valid()
      ensures card == old(card) && images == old(images) && startX == old(startX)
      ensures !old(visible) ==> unchanged(this)
      ensures old(visible) && key == "ArrowLeft" ==> visible && index == Prev(old(index), |images|) && ShowsCurrent()
      ensures old(visible) && key == "ArrowRight" ==> visible && index == Next(old(index), |images|) && ShowsCurrent()
      ensures old(visible) && key == "Escape" ==>
        !visible && !scrollLocked && index == old(index) && shownSrc == old(shownSrc) && caption == old(caption)
      ensures key != "ArrowLeft" && key != "ArrowRight" && key != "Escape" ==> unchanged(this)
    {
      if visible {
        if key == "ArrowLeft" {
          PrevImage();
        }
        if key == "ArrowRight" {
          NextImage();
        }
        if key == "Escape" {
          CloseModal();
        }
      }
    }

    /** The modal's touchstart listener: record where the touch began. */
    method TouchStart(x: int)
      modifies this`startX
      ensures startX == x
    {
      startX := x;
    }

    /** The modal's touchend listener: a swipe of more than the threshold to
        the left goes forward, to the right goes back; anything shorter, or a
        touch whose recorded start is 0, does nothing. The recorded start is
        cleared in every case. */
    method TouchEnd(endX: int)
      requires Valid()
      requires startX != 0 && Abs(startX - endX) > SwipeThreshold ==> |images| > 0
      modifies this`index, this`startX, this`shownSrc, this`caption
      ensures Valid() && startX == 0
      ensures old(startX) == 0 || Abs(old(startX) - endX) <= SwipeThreshold ==>
        index == old(index) && shownSrc == old(shownSrc) && caption == old(caption)
      ensures old(startX) != 0 && old(startX) - endX > SwipeThreshold ==>
        index == Next(old(index), |images|) && ShowsCurrent()
      ensures old(startX) != 0 && old(startX) - endX < -SwipeThreshold ==>
        index == Prev(old(index), |images|) && ShowsCurrent()
    {
      if startX == 0 {
        return;
      }
      var diff := startX - endX;
      if Abs(diff) > SwipeThreshold {
        if diff > 0 {
          NextImage();
        } else {
          PrevImage();
        }
      }
      startX := 0;
    }
  }
}
