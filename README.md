# Portfolio gallery modal, modelled in Dafny

This project models the gallery modal (lightbox) of a portfolio page, as
`portfolio.js` implements it. Five parts are modelled:

- **Image resolution** (`Images`): how a card's `data-images` declaration, or
  its single embedded `<img>`, becomes the canonical list of
  `{src, title, desc}` entries.
- **Caption and arrows** (`Captions`): the heading, optional description,
  footer "title — type" and arrow visibility that `updateModalImage` renders.
- **Modal session** (`Modal.ModalSession`): the module-level state, meaning
  visibility, scroll lock, `currentCard`, `currentImages`, `currentIndex` and
  `startX`. The session also holds the handlers that change it: open, close,
  previous, next, keydown and swipe. Its invariant keeps the index in range,
  ties the scroll lock to visibility, and makes a visible modal show the
  current image and caption.
- **Per-card state** (`Cards.CardState`): the click/tap counter that tells a
  single activation from a double one, and the thumbnail-rotation cursor and
  intervals. `Cards.ClickCard` and `Cards.TapTimerFires` connect a card to
  the modal session.
- **Index arithmetic** (`Modal.Next`, `Modal.Prev`, `Modal.NextN`): the
  index stays in range, previous and next undo each other, and `n` steps
  forward return to the start.

`scenarios.dfy` holds client methods. Each one checks, from the contracts
alone, what a concrete page does. Examples: opening at a source selects the
matching image, a malformed card is inert, a double click on a single-image
card opens it with no arrows, navigation wraps around, and rotation
intervals can stack.

Behaviour of the code worth noting, which the model keeps:

- Opening a card that resolves to no images still overwrites `currentCard`
  and `currentImages`. Nothing else changes, and a modal that is already
  open stays open.
- `startRotation` overwrites the interval handle without clearing the
  interval it held. So a `mouseleave`/`touchend` that is not preceded by a
  pause starts a second interval, and no later pause stops the first one
  (`Scenarios.RotationIntervalsStack`).
- A swipe whose touch began at `clientX` 0 is ignored, because 0 also means
  "no touch recorded".
- Touch capability is tested when the 300 ms timer fires, not when the tap
  arrives.

## Model

| member | source | states |
|---|---|---|
| Images.Normalize | portfolio.js:20 | a string element `s` becomes `{src: s, title: '', desc: ''}`; an object element passes through unchanged |
| Images.NormalizeAll | portfolio.js:20 | the `map` yields exactly one entry per declared element, the i-th entry being the normalized i-th element (declared order kept) |
| Images.GetImages | portfolio.js:15-29 | a declared list of N elements gives N entries in order; a parse failure or a non-array result gives `[]`; no (or empty) declaration gives one entry `{src, '', ''}` exactly when the embedded `img` has a non-empty `src`, else `[]` |
| Images.StringListResolvesToItsSources | portfolio.js:16-20 | a list of bare strings resolves to exactly those sources, in order, with empty titles and descriptions |
| Images.RedeclaringResolvedImagesIsIdempotent | portfolio.js:15-29 | declaring a card's resolved entries as objects resolves to the same entries (normalization is idempotent) |
| Captions.CaptionFor | portfolio.js:44-66 | the heading is the image title when non-empty, otherwise the card title (or '' without a card); the description is present iff `desc` is non-empty and is then `desc`; the footer is always "projectTitle — projectType"; both arrows are shown or hidden together, hidden iff the list has at most one image |
| Captions.FooterIgnoresImage | portfolio.js:45-57 | the footer is the same whichever image of the card is shown |
| Modal.Next | portfolio.js:91 | the next index stays in `[0, n)`: one more, or 0 after the last |
| Modal.Prev | portfolio.js:86 | the previous index stays in `[0, n)`: one less, or `n - 1` before the first |
| Modal.PrevUndoesNext | portfolio.js:85-93 | previous after next returns to the same index |
| Modal.NextUndoesPrev | portfolio.js:85-93 | next after previous returns to the same index |
| Modal.NextNSplit | portfolio.js:90-93 | `k` steps forward then `m` more are `k + m` steps |
| Modal.NextNCounts | portfolio.js:90-93 | before the end of the list, `k` steps forward advance the index by `k` |
| Modal.NextCycles | portfolio.js:90-93 | `n` steps forward through `n` images return to the start index |
| Modal.FindIndex | portfolio.js:76 | `findIndex` on sources: -1 iff no image has that source, otherwise a position holding it with no earlier one |
| Modal.StartIndex | portfolio.js:76-77 | the start index is the first image whose `src` is the start source; 0 when none matches or the start source is null or empty; in range for a non-empty list |
| Modal.ModalSession.constructor | portfolio.js:9-12 | initially closed, unlocked, no card, no images, index 0, no touch recorded |
| Modal.ModalSession.UpdateModalImage | portfolio.js:38-67 | with images, the surface shows the current image's `src` and its caption; with none, nothing is rendered |
| Modal.ModalSession.CloseModal | portfolio.js:32-35 | closing hides the modal and unlocks scrolling |
| Modal.ModalSession.OpenModal | portfolio.js:70-82 | card and images are always overwritten; with no images, visibility, lock, index and surface are unchanged; otherwise the index is the start index, the modal is visible, scrolling is locked and the current image is shown |
| Modal.ModalSession.PrevImage | portfolio.js:85-88 | the index becomes `Prev` of the old one; only the index and the rendered surface change |
| Modal.ModalSession.NextImage | portfolio.js:90-93 | the index becomes `Next` of the old one; only the index and the rendered surface change |
| Modal.ModalSession.KeyDown | portfolio.js:170-176 | only while visible: ArrowLeft goes to the previous image, ArrowRight to the next, Escape closes and leaves index, image and caption as they were; otherwise nothing changes |
| Modal.ModalSession.TouchStart | portfolio.js:179-181 | the touch's start position is recorded |
| Modal.ModalSession.TouchEnd | portfolio.js:183-192 | a start-minus-end distance over 50 goes to the next image, under -50 to the previous, anything else (or a recorded start of 0) changes nothing; the recorded start is 0 afterwards |
| Cards.CardState.constructor | portfolio.js:96-123 | a card with more than one image shows image 0, has cursor 1, and runs exactly one interval, the one whose handle it holds (no stray ones); any other card keeps its embedded picture and runs no interval; no tap is pending |
| Cards.CardState.RotationTick | portfolio.js:105-111 | a tick shows `images[cursor]` and moves the cursor to `(cursor + 1) mod len`; the cursor stays in range and always follows the shown image |
| Cards.CardState.StartRotation | portfolio.js:118-121 | a rotating card gets one more running interval (the replaced handle is not cleared); the cursor is kept |
| Cards.CardState.PauseRotation | portfolio.js:125-128 | the interval whose handle is kept stops; stray intervals keep running |
| Cards.CardState.HandleTap | portfolio.js:133-153 | a first click starts the timer and opens nothing; a click while the timer is pending clears it, resets the counter and asks to open at the thumbnail shown; between events the counter is 0 or 1, and 1 exactly while the timer is pending |
| Cards.CardState.TapTimerExpires | portfolio.js:141-147 | expiry resets the counter and asks to open at the thumbnail shown iff the device is touch-capable |
| Cards.ClickCard | portfolio.js:136-156 | only the card's tap counter and timer change on the card; a first click leaves the modal session unchanged; a second click opens the card's images at the thumbnail's source, and for a card without images leaves visibility, index, rendered image and caption unchanged; the recorded touch start never changes |
| Cards.TapTimerFires | portfolio.js:141-147 | only the card's tap counter and timer change on the card; on a non-touch device expiry leaves the session unchanged; on a touch device it opens the card at the thumbnail's source, and for a card without images leaves visibility, index, rendered image and caption unchanged; the recorded touch start never changes |

## Left out

- `global.js` (the navbar loader) is not part of this model. It is a network fetch plus event-listener wiring.
- JSON parsing is not modelled. The `data-images` attribute is given as what parsing produced: undeclared, malformed, not an array, or a list of elements. The `console.error` report on a parse failure is not modelled.
- Images.Element: a parsed element is a string or an entry-shaped object. The source passes other values (numbers, `null`, nested arrays) through unchanged, and a later `.src` on `null` would throw. Object fields are strings, and an absent field is the empty string.
- Modal.ModalSession.PrevImage: requires a non-empty image list. With no images the source computes `% 0` and the index becomes NaN.
- Modal.ModalSession.NextImage: requires a non-empty image list, for the same reason.
- Modal.ModalSession.KeyDown: requires a non-empty image list when a visible modal receives an arrow key. An empty list while visible is reachable by opening an empty card over an open modal, and the source would then compute NaN.
- Modal.ModalSession.TouchEnd: requires a non-empty image list when the swipe would navigate, for the same reason. Touch positions are integers, not floating-point pixels.
- Cards.CardState.constructor: requires the card to have an `<img>`. Without one, the source throws on `imgEl.src` when the card is activated. When such a card declares more than one image, the throw happens during setup and escapes `cards.forEach`. Every later card is then left without setup, and the close, arrow, keyboard and swipe handlers are never registered. The model does not capture that aborted setup.
- Cards.CardState.RotationTick: a tick is an abstract event allowed while an interval runs. The 5000–7000 ms randomized period (`Math.random`) and the real clock are not modelled. Running intervals are counted rather than identified by handle.
- Cards.CardState.TapTimerExpires: the 300 ms window is an abstract "timer pending / fired" event. The touch-capability test is a boolean input.
- Cards.CardState: `thumbSrc` holds the declared source string, and `ClickCard`/`TapTimerFires` hand it to `OpenModal`. The source passes `imgEl.src`, which the browser reads back as an absolute URL. With relative sources in `data-images`, `findIndex` never matches, so the page opens at index 0. The model opens at the shown thumbnail's own index. The model captures this only when the declared sources are absolute URLs.
- DOM rendering is not modelled: caption markup and inline styles, `style.display` strings, `textContent.trim()` on the title and type elements (and the throw when they are missing), `preventDefault`/`stopPropagation`, and the backdrop-or-image target test. The close button, backdrop click and arrow buttons are the `CloseModal`, `PrevImage` and `NextImage` events themselves.
