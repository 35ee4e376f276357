/**
 * How the editor (src/edit.js) and the saved markup (src/save.js) relate:
 * their class lists, the parts of the card both show, and which disabled
 * controls can still change what is saved.
 */
module Agreement {
  import opened Wrappers
  import opened Functions
  import opened BlockAttributes
  import opened CardLayout
  import opened SavedMarkup
  import opened EditView
  import opened Setters
  import opened Edit

  /**
   * For a fetched block the saved class list is the editor's without
   * `is-fetching-url`, plus `has-click-overlay` when the overlay is on.
   */
  lemma {:induction false} SavedClassesFromEditor(a: Attributes, isFetchingURL: bool, c: string)
    requires a.isURLFetched
    ensures c in Save(a).classes <==>
      (c in EditorClasses(a, isFetchingURL) && c != IsFetchingUrl) || (c == HasClickOverlay && a.useClickOverlay)
  {
    var saved, editor := SavedClasses(a), EditorClasses(a, isFetchingURL);
    if c in saved {
      assert c in {HasSiteImage, HasBorderRadius, HasLinkUnderline, HasClickOverlay, CardAlignmentTop, CardAlignmentRight};
    }
    if c in editor {
      assert c in {IsFetchingUrl, HasSiteImage, HasBorderRadius, HasLinkUnderline, CardAlignmentTop, CardAlignmentRight};
    }
  }

  /** Before the first fetch the editor shows only the entry class and the saved wrapper none. */
  lemma UnfetchedClasses(a: Attributes, isFetchingURL: bool)
    requires !a.isURLFetched
    ensures EditorClasses(a, isFetchingURL) == [WbLinkEntry]
    ensures Save(a).classes == [] && Save(a).card == None
  {
  }

  /**
   * The preview and the saved card show the same title, description, favicon,
   * URL line and image style; the preview's links carry the raw `siteUrl`
   * where the saved ones carry the resolved target.
   */
  lemma PreviewMatchesSaved(a: Attributes)
    requires a.isURLFetched
    ensures var card, p := Save(a).card.value, Preview(a);
      && p.title == card.titleLink.text
      && p.description == card.description
      && p.titleHref == a.siteUrl && card.titleLink.href == TargetURI(a)
      && (p.metaLink.Some? <==> card.metaLink.Some?)
      && (p.metaLink.Some? ==>
           && p.metaLink.value.favicon == card.metaLink.value.favicon
           && (p.metaLink.value.link.Some? <==> card.metaLink.value.link.Some?)
           && (p.metaLink.value.link.Some? ==>
                Some(p.metaLink.value.link.value) == card.metaLink.value.link.value.text))
      && (p.image.Some? <==> card.image.Some?)
      && (p.image.Some? ==> p.image.value == card.image.value.style)
  {
  }

  // ---------------------------------------------------------------------
  // Disabled controls against the saved markup
  // ---------------------------------------------------------------------

  /**
   * Whether the control wired to a setter can be used: it is rendered (the
   * panels exist only once fetched, each range only in its layout) and enabled.
   */
  function ControlUsable(a: Attributes, s: Setter): (usable: bool)
    ensures usable ==> a.isURLFetched
    ensures s.SetDisplaySiteFavicon? ==> (usable <==> a.isURLFetched && a.displaySiteUrl)
    ensures s.SetSiteImageTopHeight? ==> (usable <==> a.isURLFetched && a.displaySiteImage && a.cardAlignment == Top)
    ensures s.SetSiteImageRightWidth? ==> (usable <==> a.isURLFetched && a.displaySiteImage && a.cardAlignment == Right)
  {
    var c := ControlStates(a);
    a.isURLFetched &&
    match s
    case SetUseLinkUnderline(_) => !c.underlineDisabled
    case SetDisplaySiteFavicon(_) => !c.faviconDisabled
    case SetSiteImageClickable(_) => !c.imageClickableDisabled
    case SetSiteImageIsCentered(_) => !c.centerDisabled
    case SetCardAlignment(_) => !c.alignmentDisabled
    case SetSiteImageTopHeight(_) => c.heightRange == Some(false)
    case SetSiteImageRightWidth(_) => c.widthRange == Some(false)
    case _ => true
  }

  /**
   * On a fetched block, a disabled favicon, centring, height or width control,
   * or an image-clickable control disabled because the image is hidden, could
   * not change the saved markup even if it were used.
   */
  lemma DisabledControlIsInert(a: Attributes, s: Setter)
    requires a.isURLFetched && !ControlUsable(a, s)
    requires s.SetDisplaySiteFavicon? || s.SetSiteImageIsCentered? || s.SetSiteImageTopHeight?
          || s.SetSiteImageRightWidth? || (s.SetSiteImageClickable? && !a.displaySiteImage)
    ensures Save(ApplySetter(a, s)) == Save(a)
  {
    match s
    case SetDisplaySiteFavicon(b) =>
      FaviconInert(a, b);
    case SetSiteImageIsCentered(b) =>
      CenterInert(a, b);
    case SetSiteImageTopHeight(h) =>
      HeightInert(a, h);
    case SetSiteImageRightWidth(w) =>
      WidthInert(a, w);
    case SetSiteImageClickable(b) =>
      ClickableInert(a, b);
  }

  lemma FaviconInert(a: Attributes, b: bool)
    requires !a.displaySiteUrl
    ensures Save(ApplySetter(a, SetDisplaySiteFavicon(b))) == Save(a)
  {
    SavedPartsAgree(a, ApplySetter(a, SetDisplaySiteFavicon(b)));
  }

  lemma CenterInert(a: Attributes, b: bool)
    requires !a.displaySiteImage
    ensures Save(ApplySetter(a, SetSiteImageIsCentered(b))) == Save(a)
  {
    SavedPartsAgree(a, ApplySetter(a, SetSiteImageIsCentered(b)));
  }

  lemma HeightInert(a: Attributes, h: real)
    requires !a.displaySiteImage || a.cardAlignment != Top
    ensures Save(ApplySetter(a, SetSiteImageTopHeight(h))) == Save(a)
  {
    SavedPartsAgree(a, ApplySetter(a, SetSiteImageTopHeight(h)));
  }

  lemma WidthInert(a: Attributes, w: real)
    requires !a.displaySiteImage || a.cardAlignment != Right
    ensures Save(ApplySetter(a, SetSiteImageRightWidth(w))) == Save(a)
  {
    SavedPartsAgree(a, ApplySetter(a, SetSiteImageRightWidth(w)));
  }

  lemma ClickableInert(a: Attributes, b: bool)
    requires !a.displaySiteImage
    ensures Save(ApplySetter(a, SetSiteImageClickable(b))) == Save(a)
  {
    SavedPartsAgree(a, ApplySetter(a, SetSiteImageClickable(b)));
  }

  /** Two records whose saved parts agree save the same markup. */
  lemma SavedPartsAgree(a: Attributes, r: Attributes)
    requires a.isURLFetched == r.isURLFetched && a.displaySiteImage == r.displaySiteImage
    requires a.useBorderRadius == r.useBorderRadius && a.useLinkUnderline == r.useLinkUnderline
    requires a.useClickOverlay == r.useClickOverlay && a.cardAlignment == r.cardAlignment
    requires a.openInNewWindow == r.openInNewWindow && a.hideReferer == r.hideReferer && a.siteUrl == r.siteUrl
    requires a.siteTitle == r.siteTitle && a.siteDescription == r.siteDescription
    requires SavedMetaLink(r) == SavedMetaLink(a) && SavedImage(r) == SavedImage(a)
    ensures Save(r) == Save(a)
  {
  }

  /**
   * The underline toggle is disabled under the overlay, yet its value still
   * decides the saved `has-link-underline` class.
   */
  lemma DisabledUnderlineStillSaved(a: Attributes, b: bool)
    requires a.isURLFetched && a.useClickOverlay
    ensures !ControlUsable(a, SetUseLinkUnderline(b))
    ensures HasLinkUnderline in Save(ApplySetter(a, SetUseLinkUnderline(b))).classes <==> b
  {
  }

  /**
   * The alignment select is disabled while the image is hidden, yet the
   * alignment still decides the saved alignment class.
   */
  lemma DisabledAlignmentStillSaved(a: Attributes, align: CardAlign)
    requires a.isURLFetched && !a.displaySiteImage
    ensures !ControlUsable(a, SetCardAlignment(align))
    ensures CardAlignmentTop in Save(ApplySetter(a, SetCardAlignment(align))).classes <==> align == Top
  {
  }

  /**
   * The image-clickable toggle is disabled under the overlay, yet the saved
   * image anchor still gets its target from it: the overlay does not gate it.
   */
  lemma DisabledClickableStillSaved(a: Attributes, b: bool)
    requires a.isURLFetched && a.useClickOverlay && a.displaySiteImage && Truthy(a.siteImage)
    ensures !ControlUsable(a, SetSiteImageClickable(b))
    ensures Save(ApplySetter(a, SetSiteImageClickable(b))).card.value.image.value.target.Some? <==> b
  {
  }
}
