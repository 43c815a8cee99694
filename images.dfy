/**
  Image resolution for one portfolio card (`getImages` in portfolio.js).

  A card declares its images in a `data-images` attribute holding a JSON
  array, or embeds a single `<img>`. The JSON parser is not modelled: the
  attribute is given as what parsing it produced.
 */
module Images {
  import opened Wrappers

  /** The canonical image record every consumer reads. A field that a declared
      object leaves out is the empty string: the page treats an absent field
      and '' alike (both are falsy, and neither equals a non-empty source). */
  datatype ImageEntry = ImageEntry(src: string, title: string, desc: string)

  /** One element of a parsed image list: a bare source string, or an object
      already shaped as an entry. */
  datatype Element = Str(s: string) | Obj(entry: ImageEntry)

  /** What the card's `data-images` attribute amounts to. */
  datatype Declaration =
    | Undeclared                     // attribute absent, or the empty string
    | Malformed                      // JSON.parse threw
    | NotAList                       // parsed to a value that has no `map` (null, a number, a string, an object)
    | Listed(elements: seq<Element>) // parsed to an array

  /** A portfolio card: its image declaration, the `src` of its embedded
      `<img>` (None when the card has no `<img>`), and the trimmed texts of
      its title and type elements. */
  datatype Card = Card(declared: Declaration, img: Option<string>, title: string, projectType: string)

  /** The callback given to `map`: a string becomes an entry with empty
      title and description; an object is kept as it is. */
  function Normalize(e: Element): (r: ImageEntry)
    ensures e.Str? ==> r == ImageEntry(e.s, "", "")
    ensures e.Obj? ==> r == e.entry
  {
    match e
    case Str(s) => ImageEntry(s, "", "")
    case Obj(entry) => entry
  }

  /** `parsed.map(...)`: one entry per element, in the declared order. */
  function NormalizeAll(es: seq<Element>): (r: seq<ImageEntry>)
    ensures |r| == |es|
    ensures forall i :: 0 <= i < |es| ==> r[i] == Normalize(es[i])
  {
    if es == [] then [] else [Normalize(es[0])] + NormalizeAll(es[1..])
  }

  /** The images of a card: the normalized declared list; nothing when the
      declaration is malformed or is not a list (the `map` call throws inside
      the `try`); otherwise the embedded image when its `src` is non-empty. */
  function GetImages(card: Card): (r: seq<ImageEntry>)
    ensures card.declared.Listed? ==>
      |r| == |card.declared.elements| &&
      forall i :: 0 <= i < |r| ==> r[i] == Normalize(card.declared.elements[i])
    ensures card.declared.Malformed? || card.declared.NotAList? ==> r == []
    ensures card.declared.Undeclared? ==>
      |r| <= 1 &&
      (|r| == 1 <==> card.img.Some? && card.img.value != "") &&
      (|r| == 1 ==> r[0] == ImageEntry(card.img.value, "", ""))
  {
    match card.declared
    case Listed(es) => NormalizeAll(es)
    case Malformed => []
    case NotAList => []
    case Undeclared =>
      if card.img.Some? && card.img.value != "" then [ImageEntry(card.img.value, "", "")] else []
  }

  /** The sources of a list of entries, in order. */
  function Sources(entries: seq<ImageEntry>): (r: seq<string>)
    ensures |r| == |entries|
    ensures forall i :: 0 <= i < |r| ==> r[i] == entries[i].src
  {
    if entries == [] then [] else [entries[0].src] + Sources(entries[1..])
  }

  /** A list of bare source strings, as a declaration would hold it. */
  function AsStrings(ss: seq<string>): (r: seq<Element>)
    ensures |r| == |ss|
    ensures forall i :: 0 <= i < |r| ==> r[i] == Str(ss[i])
  {
    if ss == [] then [] else [Str(ss[0])] + AsStrings(ss[1..])
  }

  /** A list of entries written back as declared objects. */
  function AsObjects(entries: seq<ImageEntry>): (r: seq<Element>)
    ensures |r| == |entries|
    ensures forall i :: 0 <= i < |r| ==> r[i] == Obj(entries[i])
  {
    if entries == [] then [] else [Obj(entries[0])] + AsObjects(entries[1..])
  }

  /** Declaring bare strings yields exactly those sources, in that order, each
      with an empty title and description. */
  lemma StringListResolvesToItsSources(c: Card, ss: seq<string>)
    requires c.declared == Listed(AsStrings(ss))
    ensures Sources(GetImages(c)) == ss
    ensures forall i :: 0 <= i < |ss| ==> GetImages(c)[i].title == "" && GetImages(c)[i].desc == ""
  {
  }

  /** Resolution is idempotent: declaring a card's resolved entries as objects
      resolves to the same entries. */
  lemma RedeclaringResolvedImagesIsIdempotent(c: Card)
    ensures GetImages(c.(declared := Listed(AsObjects(GetImages(c))))) == GetImages(c)
  {
  }
}
