/**
 * Layout pieces shared by the editor preview (src/edit.js) and the saved
 * markup (src/save.js): the class-name constants both wrapper class lists
 * draw on, and the inline style of the card image, which both write out
 * identically.
 */
module CardLayout {
  import opened Wrappers
  import opened BlockAttributes

  const IsFetchingUrl: string := "is-fetching-url"
  const HasSiteImage: string := "has-site-image"
  const HasBorderRadius: string := "has-border-radius"
  const HasLinkUnderline: string := "has-link-underline"
  const HasClickOverlay: string := "has-click-overlay"
  const CardAlignmentTop: string := "card-alignment-top"
  const CardAlignmentRight: string := "card-alignment-right"
  const WbLinkEntry: string := "wb-link-entry"

  /** A CSS width given in percent of the container, `${ w }%`. */
  datatype Percent = Percent(value: real)

  /** The inline style object of the card image; an absent property is `undefined`. */
  datatype ImageStyle = ImageStyle(
    backgroundImage: string,
    backgroundPosition: Option<string>,
    height: Option<real>,
    width: Option<Percent>
  )

  /**
   * The card image's style: the image URL as background, centred on request,
   * with the pixel height only in the top layout and the percent width only
   * in the right layout.
   */
  function CardImageStyle(a: Attributes, image: string): (s: ImageStyle)
    ensures s.backgroundImage == "url(" + image + ")"
    ensures s.backgroundPosition.Some? <==> a.siteImageIsCentered
    ensures s.backgroundPosition.Some? ==> s.backgroundPosition.value == "center"
    ensures s.height.Some? <==> a.cardAlignment == Top
    ensures s.width.Some? <==> a.cardAlignment == Right
    ensures s.height.Some? != s.width.Some?
    ensures s.height.Some? ==> s.height.value == a.siteImageTopHeight
    ensures s.width.Some? ==> s.width.value == Percent(a.siteImageRightWidth)
  {
    ImageStyle(
      "url(" + image + ")",
      if a.siteImageIsCentered then Some("center") else None,
      if a.cardAlignment == Top then Some(a.siteImageTopHeight) else None,
      if a.cardAlignment == Right then Some(Percent(a.siteImageRightWidth)) else None
    )
  }
}
