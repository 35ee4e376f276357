/**
 * The setter table of src/edit.js: each appearance or behaviour control
 * writes one attribute through `setAttributes`, and nothing else.
 */
module Setters {
  import opened BlockAttributes

  /** A call of one entry of the setter table, with the value the control passes. */
  datatype Setter =
    | SetHideReferer(hideReferer: bool)
    | SetUseClickOverlay(useClickOverlay: bool)
    | SetUseLinkUnderline(useLinkUnderline: bool)
    | SetOpenInNewWindow(openInNewWindow: bool)
    | SetUseBorderRadius(useBorderRadius: bool)
    | SetDisplaySiteUrl(displaySiteUrl: bool)
    | SetDisplaySiteFavicon(displaySiteFavicon: bool)
    | SetDisplaySiteImage(displaySiteImage: bool)
    | SetSiteImageClickable(siteImageClickable: bool)
    | SetCardAlignment(cardAlignment: CardAlign)
    | SetSiteImageTopHeight(siteImageTopHeight: real)
    | SetSiteImageRightWidth(siteImageRightWidth: real)
    | SetSiteImageIsCentered(siteImageIsCentered: bool)

  /** The attribute a setter is keyed by. */
  function SetterField(s: Setter): Field {
    match s
    case SetHideReferer(_) => HideReferer
    case SetUseClickOverlay(_) => UseClickOverlay
    case SetUseLinkUnderline(_) => UseLinkUnderline
    case SetOpenInNewWindow(_) => OpenInNewWindow
    case SetUseBorderRadius(_) => UseBorderRadius
    case SetDisplaySiteUrl(_) => DisplaySiteUrl
    case SetDisplaySiteFavicon(_) => DisplaySiteFavicon
    case SetDisplaySiteImage(_) => DisplaySiteImage
    case SetSiteImageClickable(_) => SiteImageClickable
    case SetCardAlignment(_) => CardAlignment
    case SetSiteImageTopHeight(_) => SiteImageTopHeight
    case SetSiteImageRightWidth(_) => SiteImageRightWidth
    case SetSiteImageIsCentered(_) => SiteImageIsCentered
  }

  /** `r` holds, under the setter's key, the value the setter was passed. */
  predicate Carries(r: Attributes, s: Setter) {
    match s
    case SetHideReferer(b) => r.hideReferer == b
    case SetUseClickOverlay(b) => r.useClickOverlay == b
    case SetUseLinkUnderline(b) => r.useLinkUnderline == b
    case SetOpenInNewWindow(b) => r.openInNewWindow == b
    case SetUseBorderRadius(b) => r.useBorderRadius == b
    case SetDisplaySiteUrl(b) => r.displaySiteUrl == b
    case SetDisplaySiteFavicon(b) => r.displaySiteFavicon == b
    case SetDisplaySiteImage(b) => r.displaySiteImage == b
    case SetSiteImageClickable(b) => r.siteImageClickable == b
    case SetCardAlignment(c) => r.cardAlignment == c
    case SetSiteImageTopHeight(h) => r.siteImageTopHeight == h
    case SetSiteImageRightWidth(w) => r.siteImageRightWidth == w
    case SetSiteImageIsCentered(b) => r.siteImageIsCentered == b
  }

  /**
   * `setAttributes( { [ prop ]: enabled } )` for one entry of the table:
   * the object passed has the one key the setter is bound to, and merging it
   * gives that attribute the value passed while every other attribute keeps
   * its own. No key of the table names the URL, the lifecycle flags or the
   * metadata snapshot, so those always come through (`SetterKeepsContent`).
   */
  function ApplySetter(a: Attributes, s: Setter): Attributes {
    a.(
      hideReferer := if s.SetHideReferer? then s.hideReferer else a.hideReferer,
      useClickOverlay := if s.SetUseClickOverlay? then s.useClickOverlay else a.useClickOverlay,
      useLinkUnderline := if s.SetUseLinkUnderline? then s.useLinkUnderline else a.useLinkUnderline,
      openInNewWindow := if s.SetOpenInNewWindow? then s.openInNewWindow else a.openInNewWindow,
      useBorderRadius := if s.SetUseBorderRadius? then s.useBorderRadius else a.useBorderRadius,
      displaySiteUrl := if s.SetDisplaySiteUrl? then s.displaySiteUrl else a.displaySiteUrl,
      displaySiteFavicon := if s.SetDisplaySiteFavicon? then s.displaySiteFavicon else a.displaySiteFavicon,
      displaySiteImage := if s.SetDisplaySiteImage? then s.displaySiteImage else a.displaySiteImage,
      siteImageClickable := if s.SetSiteImageClickable? then s.siteImageClickable else a.siteImageClickable,
      cardAlignment := if s.SetCardAlignment? then s.cardAlignment else a.cardAlignment,
      siteImageTopHeight := if s.SetSiteImageTopHeight? then s.siteImageTopHeight else a.siteImageTopHeight,
      siteImageRightWidth := if s.SetSiteImageRightWidth? then s.siteImageRightWidth else a.siteImageRightWidth,
      siteImageIsCentered := if s.SetSiteImageIsCentered? then s.siteImageIsCentered else a.siteImageIsCentered)
  }

  /** A setter gives its own attribute the value it was passed. */
  lemma ApplySetterWrites(a: Attributes, s: Setter)
    ensures Carries(ApplySetter(a, s), s)
  {
  }

  /** A setter leaves every attribute but its own alone. */
  lemma ApplySetterFrame(a: Attributes, s: Setter, f: Field)
    ensures f != SetterField(s) ==> SameAt(ApplySetter(a, s), a, f)
  {
  }

  /**
   * The table is keyed by exactly the thirteen appearance and behaviour
   * attributes: every setter writes one of them, and each of them has a setter.
   */
  lemma SetterTableKeys(f: Field)
    ensures f in AppearanceFields <==> exists s :: SetterField(s) == f
  {
    match f
    case HideReferer => assert SetterField(SetHideReferer(false)) == f;
    case UseClickOverlay => assert SetterField(SetUseClickOverlay(false)) == f;
    case UseLinkUnderline => assert SetterField(SetUseLinkUnderline(false)) == f;
    case OpenInNewWindow => assert SetterField(SetOpenInNewWindow(false)) == f;
    case UseBorderRadius => assert SetterField(SetUseBorderRadius(false)) == f;
    case DisplaySiteUrl => assert SetterField(SetDisplaySiteUrl(false)) == f;
    case DisplaySiteFavicon => assert SetterField(SetDisplaySiteFavicon(false)) == f;
    case DisplaySiteImage => assert SetterField(SetDisplaySiteImage(false)) == f;
    case SiteImageClickable => assert SetterField(SetSiteImageClickable(false)) == f;
    case CardAlignment => assert SetterField(SetCardAlignment(Top)) == f;
    case SiteImageTopHeight => assert SetterField(SetSiteImageTopHeight(0.0)) == f;
    case SiteImageRightWidth => assert SetterField(SetSiteImageRightWidth(0.0)) == f;
    case SiteImageIsCentered => assert SetterField(SetSiteImageIsCentered(false)) == f;
    case _ =>
  }

  /** No setter touches the URL, the lifecycle flags or the metadata snapshot. */
  lemma SetterKeepsContent(a: Attributes, s: Setter, f: Field)
    requires f !in AppearanceFields
    ensures SameAt(ApplySetter(a, s), a, f)
  {
    SetterTableKeys(f);
    ApplySetterFrame(a, s, f);
  }
}
