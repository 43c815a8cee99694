/**
  The caption and arrow decisions of `updateModalImage` in portfolio.js,
  as a value; the HTML markup and inline styles it is rendered with are not
  modelled.
 */
module Captions {
  import opened Wrappers
  import opened Images

  /** What the modal shows under the picture: a heading, an optional
      description paragraph, a footer line, and whether each arrow button is
      displayed. */
  datatype Caption = Caption(
    heading: string,
    description: Option<string>,
    footer: string,
    prevArrow: bool,
    nextArrow: bool)

  /** The separator of the footer line: a space, an em dash, a space. */
  const FooterSeparator: string := " \U{2014} "

  /** The opened card's title, or '' while no card has been opened. */
  function ProjectTitle(card: Option<Card>): (t: string)
  {
    if card.Some? then card.value.title else ""
  }

  /** The opened card's type, or '' while no card has been opened. */
  function ProjectType(card: Option<Card>): (t: string)
  {
    if card.Some? then card.value.projectType else ""
  }

  /** The caption of `entry`, one of `count` images of `card`. */
  function CaptionFor(entry: ImageEntry, card: Option<Card>, count: nat): (c: Caption)
    ensures entry.title != "" ==> c.heading == entry.title
    ensures entry.title == "" ==> c.heading == ProjectTitle(card)
    ensures c.description.Some? <==> entry.desc != ""
    ensures c.description.Some? ==> c.description.value == entry.desc
    ensures c.footer == ProjectTitle(card) + FooterSeparator + ProjectType(card)
    ensures c.prevArrow == c.nextArrow
    ensures c.prevArrow <==> count > 1
  {
    var projectTitle := ProjectTitle(card);
    var title := if entry.title != "" then entry.title else projectTitle;
    var desc := if entry.desc != "" then Some(entry.desc) else None;
    var arrows := !(count <= 1);
    Caption(title, desc, projectTitle + FooterSeparator + ProjectType(card), arrows, arrows)
  }

  /** The footer names the project whichever of its images is shown: per-image
      titles and descriptions never reach it. */
  lemma FooterIgnoresImage(e1: ImageEntry, e2: ImageEntry, card: Option<Card>, n1: nat, n2: nat)
    ensures CaptionFor(e1, card, n1).footer == CaptionFor(e2, card, n2).footer
  {
  }
}
