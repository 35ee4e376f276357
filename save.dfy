/**
 * Model of src/save.js: the static markup stored in the post for one block,
 * as an abstract tree computed from the attribute record alone.
 */
module SavedMarkup {
  import opened Wrappers
  import opened Functions
  import opened BlockAttributes
  import opened Classnames
  import opened CardLayout

  /** An `<a rel="noopener">` with its target, href and text. */
  datatype Anchor = Anchor(target: string, href: Nullable, text: Nullable)

  /** The `wb-meta-link` span: an optional favicon `<img src>` and an optional URL anchor. */
  datatype MetaLink = MetaLink(favicon: Option<string>, link: Option<Anchor>)

  /** The `wb-card` image anchor; target and href are null unless the image is clickable. */
  datatype CardImage = CardImage(target: Nullable, href: Nullable, style: ImageStyle)

  /** The children of a fetched block. */
  datatype SavedCard = SavedCard(
    overlay: Option<Anchor>,
    titleLink: Anchor,
    description: Nullable,
    metaLink: Option<MetaLink>,
    image: Option<CardImage>
  )

  /** The wrapper `<div>`: its class list and, once fetched, its card. */
  datatype SavedBlock = SavedBlock(classes: seq<string>, card: Option<SavedCard>)

  /** The link target token: a new window or the same one. */
  function WindowTarget(openInNewWindow: bool): (t: string)
    ensures t == "_blank" <==> openInNewWindow
    ensures t == "_self" <==> !openInNewWindow
  {
    if openInNewWindow then "_blank" else "_self"
  }

  /** The one href every link of the card uses. */
  function TargetURI(a: Attributes): (href: Nullable)
    ensures !a.hideReferer ==> href == a.siteUrl
    ensures a.hideReferer ==> href == Some(HrefLiPrefix + Interpolate(a.siteUrl))
  {
    GetTargetURI(a.siteUrl, a.hideReferer)
  }

  /** The class list of the saved wrapper. */
  function SavedClasses(a: Attributes): (classes: seq<string>)
    ensures !a.isURLFetched ==> classes == []
    ensures a.isURLFetched ==> forall c :: c in classes <==>
      || (c == HasSiteImage && a.displaySiteImage)
      || (c == HasBorderRadius && a.useBorderRadius)
      || (c == HasLinkUnderline && a.useLinkUnderline)
      || (c == HasClickOverlay && a.useClickOverlay)
      || (c == CardAlignmentTop && a.cardAlignment == Top)
      || (c == CardAlignmentRight && a.cardAlignment == Right)
  {
    if a.isURLFetched then
      var entries := [
        Toggle(HasSiteImage, a.displaySiteImage),
        Toggle(HasBorderRadius, a.useBorderRadius),
        Toggle(HasLinkUnderline, a.useLinkUnderline),
        Toggle(HasClickOverlay, a.useClickOverlay),
        Toggle(CardAlignmentTop, a.cardAlignment == Top),
        Toggle(CardAlignmentRight, a.cardAlignment == Right)
      ];
      assert entries[0] == Toggle(HasSiteImage, a.displaySiteImage);
      assert entries[1] == Toggle(HasBorderRadius, a.useBorderRadius);
      assert entries[2] == Toggle(HasLinkUnderline, a.useLinkUnderline);
      assert entries[3] == Toggle(HasClickOverlay, a.useClickOverlay);
      assert entries[4] == Toggle(CardAlignmentTop, a.cardAlignment == Top);
      assert entries[5] == Toggle(CardAlignmentRight, a.cardAlignment == Right);
      ClassNames(entries)
    else
      ClassNames([])
  }

  /** The screen-reader overlay anchor covering the whole card. */
  function Overlay(a: Attributes): (o: Option<Anchor>)
    ensures o.Some? <==> a.useClickOverlay
    ensures o.Some? ==> o.value == Anchor(WindowTarget(a.openInNewWindow), TargetURI(a), a.siteTitle)
  {
    if a.useClickOverlay then Some(Anchor(WindowTarget(a.openInNewWindow), TargetURI(a), a.siteTitle))
    else None
  }

  /** The site URL line: shown only with `displaySiteUrl`, whatever `displaySiteFavicon` says. */
  function SavedMetaLink(a: Attributes): (m: Option<MetaLink>)
    ensures m.Some? <==> a.displaySiteUrl
    ensures m.Some? ==> (m.value.favicon.Some? <==> a.displaySiteFavicon && Truthy(a.siteFavicon))
    ensures m.Some? && m.value.favicon.Some? ==> Some(m.value.favicon.value) == a.siteFavicon
    ensures m.Some? ==> (m.value.link.Some? <==> Truthy(a.siteUrl))
    ensures m.Some? && m.value.link.Some? ==>
      m.value.link.value == Anchor(WindowTarget(a.openInNewWindow), TargetURI(a), a.siteUrl)
  {
    if a.displaySiteUrl then
      Some(MetaLink(
        if a.displaySiteFavicon && Truthy(a.siteFavicon) then Some(a.siteFavicon.value) else None,
        if Truthy(a.siteUrl) then Some(Anchor(WindowTarget(a.openInNewWindow), TargetURI(a), a.siteUrl)) else None))
    else None
  }

  /** The card image anchor: present with a non-empty image; linked only when clickable. */
  function SavedImage(a: Attributes): (img: Option<CardImage>)
    ensures img.Some? <==> a.displaySiteImage && Truthy(a.siteImage)
    ensures img.Some? ==> img.value.style == CardImageStyle(a, a.siteImage.value)
    ensures img.Some? ==> (img.value.href.Some? || img.value.target.Some? ==> a.siteImageClickable)
    ensures img.Some? && a.siteImageClickable ==>
      img.value.target == Some(WindowTarget(a.openInNewWindow)) && img.value.href == TargetURI(a)
  {
    if a.displaySiteImage && Truthy(a.siteImage) then
      Some(CardImage(
        if a.siteImageClickable then Some(WindowTarget(a.openInNewWindow)) else None,
        if a.siteImageClickable then TargetURI(a) else None,
        CardImageStyle(a, a.siteImage.value)))
    else None
  }

  /** `save( { attributes } )`: the wrapper and, once fetched, the card. */
  function Save(a: Attributes): (b: SavedBlock)
    ensures b.classes == SavedClasses(a)
    ensures b.card.Some? <==> a.isURLFetched
    ensures b.card.Some? ==>
      && b.card.value.overlay == Overlay(a)
      && b.card.value.titleLink == Anchor(WindowTarget(a.openInNewWindow), TargetURI(a), a.siteTitle)
      && b.card.value.description == a.siteDescription
      && b.card.value.metaLink == SavedMetaLink(a)
      && b.card.value.image == SavedImage(a)
  {
    SavedBlock(
      SavedClasses(a),
      if a.isURLFetched then
        Some(SavedCard(
          Overlay(a),
          Anchor(WindowTarget(a.openInNewWindow), TargetURI(a), a.siteTitle),
          a.siteDescription,
          SavedMetaLink(a),
          SavedImage(a)))
      else None)
  }

  /**
   * Every anchor a saved card carries, as (target, href): overlay, title, URL
   * line, and the image when it is clickable, which gives it a target even
   * when its href is null.
   */
  function SavedLinks(card: SavedCard): (links: seq<(Nullable, Nullable)>)
    ensures |links| >= 1
  {
    (if card.overlay.Some? then [(Some(card.overlay.value.target), card.overlay.value.href)] else [])
    + [(Some(card.titleLink.target), card.titleLink.href)]
    + (if card.metaLink.Some? && card.metaLink.value.link.Some?
       then [(Some(card.metaLink.value.link.value.target), card.metaLink.value.link.value.href)] else [])
    + (if card.image.Some? && card.image.value.target.Some? then [(card.image.value.target, card.image.value.href)] else [])
  }

  /**
   * Every link of a saved card goes to `getTargetURI( siteUrl, hideReferer )`
   * and opens in `_blank` exactly when `openInNewWindow` is set, `_self` otherwise.
   */
  lemma SavedLinksAgree(a: Attributes)
    requires a.isURLFetched
    ensures var links := SavedLinks(Save(a).card.value);
      forall k :: 0 <= k < |links| ==>
        && links[k].1 == GetTargetURI(a.siteUrl, a.hideReferer)
        && links[k].0 == Some(if a.openInNewWindow then "_blank" else "_self")
  {
  }

  /** An unfetched record saves an empty wrapper: no classes and no children. */
  lemma SaveUnfetched(a: Attributes)
    requires !a.isURLFetched
    ensures Save(a) == SavedBlock([], None)
  {
  }

  /** A fetched record carries exactly one of the two alignment classes. */
  lemma SavedAlignmentExclusive(a: Attributes)
    requires a.isURLFetched
    ensures (CardAlignmentTop in Save(a).classes) != (CardAlignmentRight in Save(a).classes)
  {
  }
}
