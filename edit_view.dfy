/**
 * Model of the pure derivations in src/edit.js: the editor wrapper's class
 * list, the URL panel, the three ways a fetch is triggered, which appearance
 * controls are disabled, and the preview card.
 */
module EditView {
  import opened Wrappers
  import opened Functions
  import opened BlockAttributes
  import opened Classnames
  import opened CardLayout

  /** The class list of the editor wrapper; `has-click-overlay` is commented out in the source. */
  function EditorClasses(a: Attributes, isFetchingURL: bool): (classes: seq<string>)
    ensures !a.isURLFetched ==> classes == [WbLinkEntry]
    ensures a.isURLFetched ==> forall c :: c in classes <==>
      || (c == IsFetchingUrl && isFetchingURL)
      || (c == HasSiteImage && a.displaySiteImage)
      || (c == HasBorderRadius && a.useBorderRadius)
      || (c == HasLinkUnderline && a.useLinkUnderline)
      || (c == CardAlignmentTop && a.cardAlignment == Top)
      || (c == CardAlignmentRight && a.cardAlignment == Right)
  {
    if a.isURLFetched then
      var entries := [
        Toggle(IsFetchingUrl, isFetchingURL),
        Toggle(HasSiteImage, a.displaySiteImage),
        Toggle(HasBorderRadius, a.useBorderRadius),
        Toggle(HasLinkUnderline, a.useLinkUnderline),
        Toggle(CardAlignmentTop, a.cardAlignment == Top),
        Toggle(CardAlignmentRight, a.cardAlignment == Right)
      ];
      assert entries[0] == Toggle(IsFetchingUrl, isFetchingURL);
      assert entries[1] == Toggle(HasSiteImage, a.displaySiteImage);
      assert entries[2] == Toggle(HasBorderRadius, a.useBorderRadius);
      assert entries[3] == Toggle(HasLinkUnderline, a.useLinkUnderline);
      assert entries[4] == Toggle(CardAlignmentTop, a.cardAlignment == Top);
      assert entries[5] == Toggle(CardAlignmentRight, a.cardAlignment == Right);
      ClassNames(entries)
    else
      var entries := [Toggle(WbLinkEntry, true)];
      assert entries[0] == Toggle(WbLinkEntry, true);
      ClassNames(entries)
  }

  /** A fetched block never shows both alignment classes, nor the overlay class. */
  lemma EditorClassesFetched(a: Attributes, isFetchingURL: bool)
    requires a.isURLFetched
    ensures !(CardAlignmentTop in EditorClasses(a, isFetchingURL) && CardAlignmentRight in EditorClasses(a, isFetchingURL))
    ensures HasClickOverlay !in EditorClasses(a, isFetchingURL)
    ensures WbLinkEntry !in EditorClasses(a, isFetchingURL)
  {
  }

  // ---------------------------------------------------------------------
  // URL panel and fetch triggers
  // ---------------------------------------------------------------------

  /** What the URL text field, error notice and fetch button show, in either mode. */
  datatype UrlPanel = UrlPanel(
    inputValue: Nullable,
    showsError: bool,
    buttonPrimary: bool,
    buttonDisabled: bool,
    showsSpinner: bool,
    hasReloadControl: bool
  )

  /**
   * The URL panel. The entry form shows the typed URL or the empty string; the
   * fetched block's panel falls back to the committed URL.
   */
  function Panel(a: Attributes, isFetchingURL: bool, isFetchError: bool): (p: UrlPanel)
    ensures p.buttonDisabled <==> isFetchingURL || !a.isURLValid
    ensures p.buttonPrimary <==> a.isURLValid
    ensures p.showsError <==> isFetchError
    ensures p.showsSpinner <==> isFetchingURL
    ensures p.hasReloadControl <==> a.isURLFetched
    ensures a.siteUrlInput.Some? ==> p.inputValue == a.siteUrlInput
    ensures a.siteUrlInput.None? && !a.isURLFetched ==> p.inputValue == Some("")
    ensures a.siteUrlInput.None? && a.isURLFetched ==> p.inputValue == a.siteUrl
  {
    UrlPanel(
      if a.isURLFetched then Coalesce(a.siteUrlInput, a.siteUrl) else Some(a.siteUrlInput.GetOr("")),
      isFetchError,
      a.isURLValid,
      isFetchingURL || !a.isURLValid,
      isFetchingURL,
      a.isURLFetched)
  }

  /** The user actions that call `fetchSiteMeta`. */
  datatype Trigger = FetchButton | EnterKey | ReloadToolbar

  /**
   * Whether an action starts a fetch: the button only when enabled, Enter
   * whenever the URL is valid, the toolbar reload (shown once fetched) only
   * when no fetch is running.
   */
  function FetchFires(t: Trigger, a: Attributes, isFetchingURL: bool): (fires: bool)
    ensures fires ==> a.isURLValid || (t == ReloadToolbar && a.isURLFetched)
    ensures fires && t != EnterKey ==> !isFetchingURL
    ensures t == FetchButton ==> (fires <==> !Panel(a, isFetchingURL, false).buttonDisabled)
    ensures t == EnterKey ==> (fires <==> a.isURLValid)
    ensures t == ReloadToolbar ==> (fires <==> a.isURLFetched && !isFetchingURL)
  {
    match t
    case FetchButton => !Panel(a, isFetchingURL, false).buttonDisabled
    case EnterKey => a.isURLValid
    case ReloadToolbar => Panel(a, isFetchingURL, false).hasReloadControl && !isFetchingURL
  }

  /**
   * The Enter key is not gated by the busy flag: with a valid URL it starts a
   * second fetch while one is still running.
   */
  lemma EnterFiresWhileFetching(a: Attributes)
    requires a.isURLValid
    ensures FetchFires(EnterKey, a, true)
    ensures !FetchFires(FetchButton, a, true) && !FetchFires(ReloadToolbar, a, true)
  {
  }

  // ---------------------------------------------------------------------
  // Appearance and behaviour controls
  // ---------------------------------------------------------------------

  /**
   * The disabled state of the dependent controls. The two range controls are
   * rendered only in their own layout: `None` when absent, else `Some(disabled)`.
   */
  datatype Controls = Controls(
    underlineDisabled: bool,
    faviconDisabled: bool,
    imageClickableDisabled: bool,
    centerDisabled: bool,
    alignmentDisabled: bool,
    heightRange: Option<bool>,
    widthRange: Option<bool>
  )

  function ControlStates(a: Attributes): (c: Controls)
    ensures c.underlineDisabled <==> a.useClickOverlay
    ensures c.faviconDisabled <==> !a.displaySiteUrl
    ensures c.imageClickableDisabled <==> !a.displaySiteImage || a.useClickOverlay
    ensures c.centerDisabled <==> !a.displaySiteImage
    ensures c.alignmentDisabled <==> !a.displaySiteImage
    ensures c.heightRange.Some? <==> a.cardAlignment == Top
    ensures c.widthRange.Some? <==> a.cardAlignment == Right
    ensures c.heightRange.Some? ==> (c.heightRange.value <==> !a.displaySiteImage)
    ensures c.widthRange.Some? ==> (c.widthRange.value <==> !a.displaySiteImage)
  {
    Controls(
      a.useClickOverlay,
      !a.displaySiteUrl,
      !a.displaySiteImage || a.useClickOverlay,
      !a.displaySiteImage,
      !a.displaySiteImage,
      if a.cardAlignment == Top then Some(!a.displaySiteImage) else None,
      if a.cardAlignment == Right then Some(!a.displaySiteImage) else None)
  }

  // ---------------------------------------------------------------------
  // Preview card
  // ---------------------------------------------------------------------

  /** The preview's `wb-meta-link` span: favicon and a `data-href` span holding the raw URL. */
  datatype PreviewMetaLink = PreviewMetaLink(favicon: Option<string>, link: Option<string>)

  /** The preview of a fetched block; links are inert spans carrying the raw `siteUrl`. */
  datatype PreviewCard = PreviewCard(
    title: Nullable,
    titleHref: Nullable,
    description: Nullable,
    metaLink: Option<PreviewMetaLink>,
    image: Option<ImageStyle>
  )

  function Preview(a: Attributes): (p: PreviewCard)
    ensures p.titleHref == a.siteUrl && p.title == a.siteTitle && p.description == a.siteDescription
    ensures p.metaLink.Some? <==> a.displaySiteUrl
    ensures p.metaLink.Some? ==> (p.metaLink.value.favicon.Some? <==> a.displaySiteFavicon && Truthy(a.siteFavicon))
    ensures p.metaLink.Some? && p.metaLink.value.favicon.Some? ==> Some(p.metaLink.value.favicon.value) == a.siteFavicon
    ensures p.metaLink.Some? ==> (p.metaLink.value.link.Some? <==> Truthy(a.siteUrl))
    ensures p.metaLink.Some? && p.metaLink.value.link.Some? ==> Some(p.metaLink.value.link.value) == a.siteUrl
    ensures p.image.Some? <==> a.displaySiteImage && Truthy(a.siteImage)
    ensures p.image.Some? ==> p.image.value == CardImageStyle(a, a.siteImage.value)
  {
    PreviewCard(
      a.siteTitle,
      a.siteUrl,
      a.siteDescription,
      if a.displaySiteUrl then
        Some(PreviewMetaLink(
          if a.displaySiteFavicon && Truthy(a.siteFavicon) then Some(a.siteFavicon.value) else None,
          if Truthy(a.siteUrl) then Some(a.siteUrl.value) else None))
      else None,
      if a.displaySiteImage && Truthy(a.siteImage) then Some(CardImageStyle(a, a.siteImage.value)) else None)
  }
}
