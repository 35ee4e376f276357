/**
 * The block's persisted attribute record, shared by the editor (src/edit.js)
 * and the saved markup (src/save.js).
 */
module BlockAttributes {
  import opened Wrappers
  import opened Functions

  /** The two card layouts, CARD_ALIGN_TOP and CARD_ALIGN_RIGHT. */
  datatype CardAlign = Top | Right

  /** One bookmark block's attributes, as destructured at edit.js:77-99 and save.js:34-54. */
  datatype Attributes = Attributes(
    // lifecycle and URL entry
    isURLFetched: bool,
    isURLValid: bool,
    siteUrl: Nullable,
    siteUrlInput: Nullable,
    // metadata snapshot
    siteFavicon: Nullable,
    siteImage: Nullable,
    siteDescription: Nullable,
    siteTitle: Nullable,
    // behaviour and appearance
    hideReferer: bool,
    useClickOverlay: bool,
    useLinkUnderline: bool,
    useBorderRadius: bool,
    displaySiteUrl: bool,
    displaySiteImage: bool,
    displaySiteFavicon: bool,
    siteImageClickable: bool,
    openInNewWindow: bool,
    cardAlignment: CardAlign,
    siteImageTopHeight: real,
    siteImageRightWidth: real,
    siteImageIsCentered: bool
  )

  /** The name of each attribute, so that frame properties can range over all of them. */
  datatype Field =
    | IsURLFetched | IsURLValid | SiteUrl | SiteUrlInput
    | SiteFavicon | SiteImage | SiteDescription | SiteTitle
    | HideReferer | UseClickOverlay | UseLinkUnderline | UseBorderRadius
    | DisplaySiteUrl | DisplaySiteImage | DisplaySiteFavicon | SiteImageClickable
    | OpenInNewWindow | CardAlignment | SiteImageTopHeight | SiteImageRightWidth
    | SiteImageIsCentered

  /** `a` and `b` hold the same value for attribute `f`. */
  predicate SameAt(a: Attributes, b: Attributes, f: Field) {
    match f
    case IsURLFetched => a.isURLFetched == b.isURLFetched
    case IsURLValid => a.isURLValid == b.isURLValid
    case SiteUrl => a.siteUrl == b.siteUrl
    case SiteUrlInput => a.siteUrlInput == b.siteUrlInput
    case SiteFavicon => a.siteFavicon == b.siteFavicon
    case SiteImage => a.siteImage == b.siteImage
    case SiteDescription => a.siteDescription == b.siteDescription
    case SiteTitle => a.siteTitle == b.siteTitle
    case HideReferer => a.hideReferer == b.hideReferer
    case UseClickOverlay => a.useClickOverlay == b.useClickOverlay
    case UseLinkUnderline => a.useLinkUnderline == b.useLinkUnderline
    case UseBorderRadius => a.useBorderRadius == b.useBorderRadius
    case DisplaySiteUrl => a.displaySiteUrl == b.displaySiteUrl
    case DisplaySiteImage => a.displaySiteImage == b.displaySiteImage
    case DisplaySiteFavicon => a.displaySiteFavicon == b.displaySiteFavicon
    case SiteImageClickable => a.siteImageClickable == b.siteImageClickable
    case OpenInNewWindow => a.openInNewWindow == b.openInNewWindow
    case CardAlignment => a.cardAlignment == b.cardAlignment
    case SiteImageTopHeight => a.siteImageTopHeight == b.siteImageTopHeight
    case SiteImageRightWidth => a.siteImageRightWidth == b.siteImageRightWidth
    case SiteImageIsCentered => a.siteImageIsCentered == b.siteImageIsCentered
  }

  /** The behaviour and appearance attributes: the ones the editor's setter table names. */
  const AppearanceFields: set<Field> :=
    {HideReferer, UseClickOverlay, UseLinkUnderline, OpenInNewWindow, UseBorderRadius,
     DisplaySiteUrl, DisplaySiteFavicon, DisplaySiteImage, SiteImageClickable,
     CardAlignment, SiteImageTopHeight, SiteImageRightWidth, SiteImageIsCentered}
}
