/**
 * Model of the state changes in src/edit.js: URL input
 * and the fetch cycle (start, response, extraction, failure), on an editor
 * object holding the attribute record and the two local flags.
 * Asynchronous callbacks are separate events; a callback receives the URL
 * its closure captured when the fetch started.
 */
module Edit {
  import opened Wrappers
  import opened Functions
  import opened BlockAttributes
  import opened EditView
  import opened Setters

  // ---------------------------------------------------------------------
  // URL input and the fetch cycle, as functions on the record
  // ---------------------------------------------------------------------

  /** The URL a fetch asks for: `siteUrlInput ?? siteUrl`. */
  function RequestedURL(a: Attributes): (u: Nullable)
    ensures a.siteUrlInput.Some? ==> u == a.siteUrlInput
    ensures a.siteUrlInput.None? ==> u == a.siteUrl
  {
    Coalesce(a.siteUrlInput, a.siteUrl)
  }

  /** An accepted input change: the typed URL and its validity, set together. */
  function AcceptInput(a: Attributes, url: string, valid: bool): (r: Attributes)
    ensures r.siteUrlInput == Some(url) && r.isURLValid == valid
    ensures forall f :: f != SiteUrlInput && f != IsURLValid ==> SameAt(r, a, f)
    ensures RequestedURL(r) == Some(url)
  {
    a.(siteUrlInput := Some(url), isURLValid := valid)
  }

  /** What the link-preview library hands back; its HTML parsing is not modelled. */
  datatype LinkPreview = LinkPreview(favicons: seq<string>, images: seq<string>, title: Nullable, description: Nullable)

  /** `list[ 0 ] ?? null`. */
  function First(list: seq<string>): (r: Nullable)
    ensures r.Some? <==> |list| > 0
    ensures r.Some? ==> r.value == list[0]
  {
    if |list| > 0 then Some(list[0]) else None
  }

  /**
   * The attributes written after a successful fetch and extraction: the block
   * is fetched, the snapshot is the library's output (absent parts null), the
   * requested URL is committed and the input cleared. Appearance, behaviour
   * and `isURLValid` keep their values.
   */
  function CommitPreview(a: Attributes, requested: Nullable, meta: LinkPreview): (r: Attributes)
    ensures r.isURLFetched && r.siteUrl == requested && r.siteUrlInput == None
    ensures r.siteFavicon.Some? <==> |meta.favicons| > 0
    ensures r.siteFavicon.Some? ==> r.siteFavicon.value == meta.favicons[0]
    ensures r.siteImage.Some? <==> |meta.images| > 0
    ensures r.siteImage.Some? ==> r.siteImage.value == meta.images[0]
    ensures r.siteTitle == meta.title && r.siteDescription == meta.description
    ensures r.(isURLFetched := a.isURLFetched, siteFavicon := a.siteFavicon, siteImage := a.siteImage,
               siteDescription := a.siteDescription, siteTitle := a.siteTitle, siteUrl := a.siteUrl,
               siteUrlInput := a.siteUrlInput) == a
  {
    a.(isURLFetched := true,
       siteFavicon := First(meta.favicons),
       siteImage := First(meta.images),
       siteDescription := meta.description,
       siteTitle := meta.title,
       siteUrl := requested,
       siteUrlInput := None)
  }

  /** The REST route's two answers: `{ success: false }` or `{ success: true, html }`. */
  datatype FetchResponse = FetchFailed | Fetched(html: string)

  /** The call handed to the link-preview library: the HTML and the URL it came from. */
  datatype ExtractionRequest = ExtractionRequest(html: string, url: Nullable)

  // ---------------------------------------------------------------------
  // Consistency of the record across the cycle
  // ---------------------------------------------------------------------

  /**
   * What every transition keeps: a fetched block has a URL, a valid flag
   * implies there is a URL to request, and a present input agrees with its
   * validity flag.
   */
  predicate Consistent(urlConstructor: UrlConstructor, a: Attributes) {
    && (a.isURLFetched ==> a.siteUrl.Some?)
    && (a.isURLValid ==> RequestedURL(a).Some?)
    && (a.siteUrlInput.Some? ==> a.isURLValid == ValidateURL(urlConstructor, a.siteUrlInput.value))
  }

  /** The record of a block just inserted: unfetched, not valid, no URL and no metadata. */
  predicate NewBlock(a: Attributes) {
    && !a.isURLFetched && !a.isURLValid
    && a.siteUrl == None && a.siteUrlInput == None
    && a.siteFavicon == None && a.siteImage == None
    && a.siteDescription == None && a.siteTitle == None
  }

  lemma NewBlockConsistent(urlConstructor: UrlConstructor, a: Attributes)
    requires NewBlock(a)
    ensures Consistent(urlConstructor, a)
  {
  }

  /** An accepted input keeps the record consistent: `isURLValid` is the validity of the new input. */
  lemma AcceptInputConsistent(urlConstructor: UrlConstructor, a: Attributes, url: string)
    requires Consistent(urlConstructor, a)
    ensures Consistent(urlConstructor, AcceptInput(a, url, ValidateURL(urlConstructor, url)))
  {
  }

  /** Committing a present URL keeps the record consistent. */
  lemma CommitPreviewConsistent(urlConstructor: UrlConstructor, a: Attributes, requested: Nullable, meta: LinkPreview)
    requires Consistent(urlConstructor, a) && requested.Some?
    ensures Consistent(urlConstructor, CommitPreview(a, requested, meta))
  {
  }

  /** Setters keep the record consistent. */
  lemma ApplySetterConsistent(urlConstructor: UrlConstructor, a: Attributes, s: Setter)
    requires Consistent(urlConstructor, a)
    ensures Consistent(urlConstructor, ApplySetter(a, s))
  {
    SetterKeepsContent(a, s, IsURLFetched);
    SetterKeepsContent(a, s, IsURLValid);
    SetterKeepsContent(a, s, SiteUrl);
    SetterKeepsContent(a, s, SiteUrlInput);
  }

  /** In a consistent record, every action that starts a fetch has a URL to ask for. */
  lemma FiredFetchHasURL(urlConstructor: UrlConstructor, t: Trigger, a: Attributes, isFetchingURL: bool)
    requires Consistent(urlConstructor, a) && FetchFires(t, a, isFetchingURL)
    ensures RequestedURL(a).Some?
  {
  }

  // ---------------------------------------------------------------------
  // The editor
  // ---------------------------------------------------------------------

  /** One block in the editor: its attributes and the two pieces of local state. */
  class BookmarkEditor {
    var attributes: Attributes
    var isFetchingURL: bool
    var isFetchError: bool
    const urlConstructor: UrlConstructor

    ghost predicate Valid()
      reads this
    {
      Consistent(urlConstructor, attributes)
    }

    /** Mounting: both local flags start false. */
    constructor (attributes: Attributes, urlConstructor: UrlConstructor)
      ensures this.attributes == attributes && this.urlConstructor == urlConstructor
      ensures !isFetchingURL && !isFetchError
      ensures NewBlock(attributes) ==> Valid()
    {
      this.attributes := attributes;
      this.urlConstructor := urlConstructor;
      isFetchingURL := false;
      isFetchError := false;
      if NewBlock(attributes) {
        NewBlockConsistent(urlConstructor, attributes);
      }
    }

    /** `onSiteUrlInputChange`: ignored while fetching; otherwise stores the input and its validity. */
    method OnSiteUrlInputChange(url: string)
      modifies this
      ensures isFetchingURL == old(isFetchingURL) && isFetchError == old(isFetchError)
      ensures old(isFetchingURL) ==> attributes == old(attributes)
      ensures !old(isFetchingURL) ==> attributes == AcceptInput(old(attributes), url, ValidateURL(urlConstructor, url))
      ensures old(Valid()) ==> Valid()
    {
      if !isFetchingURL {
        attributes := AcceptInput(attributes, url, ValidateURL(urlConstructor, url));
        if old(Valid()) {
          AcceptInputConsistent(urlConstructor, old(attributes), url);
        }
      }
    }

    /** One setter of the table. */
    method Set(s: Setter)
      modifies this
      ensures isFetchingURL == old(isFetchingURL) && isFetchError == old(isFetchError)
      ensures attributes == ApplySetter(old(attributes), s)
      ensures old(Valid()) ==> Valid()
    {
      attributes := ApplySetter(attributes, s);
      if old(Valid()) {
        ApplySetterConsistent(urlConstructor, old(attributes), s);
      }
    }

    /**
     * The synchronous part of `fetchSiteMeta`: busy on, error off, and the
     * request for `siteUrlInput ?? siteUrl` sent; that URL is returned so the
     * callbacks can receive it.
     */
    method FetchSiteMeta() returns (requested: Nullable)
      modifies this
      ensures isFetchingURL && !isFetchError
      ensures attributes == old(attributes)
      ensures requested == RequestedURL(attributes)
    {
      isFetchingURL := true;
      isFetchError := false;
      requested := RequestedURL(attributes);
    }

    /** A user action: it calls `fetchSiteMeta` exactly when its guard lets it. */
    method Activate(t: Trigger) returns (started: Option<Nullable>)
      modifies this
      ensures started.Some? <==> FetchFires(t, old(attributes), old(isFetchingURL))
      ensures attributes == old(attributes)
      ensures started.Some? ==> isFetchingURL && !isFetchError && started.value == RequestedURL(attributes)
      ensures started.None? ==> isFetchingURL == old(isFetchingURL) && isFetchError == old(isFetchError)
      ensures old(Valid()) && started.Some? ==> started.value.Some?
    {
      if FetchFires(t, attributes, isFetchingURL) {
        if Valid() {
          FiredFetchHasURL(urlConstructor, t, attributes, isFetchingURL);
        }
        var requested := FetchSiteMeta();
        started := Some(requested);
      } else {
        started := None;
      }
    }

    /**
     * The response callback. `success: false` ends the cycle with the error
     * flag; a success hands the HTML to the extractor and changes nothing yet.
     */
    method OnFetchResponse(requested: Nullable, response: FetchResponse) returns (extraction: Option<ExtractionRequest>)
      modifies this
      ensures attributes == old(attributes)
      ensures response.FetchFailed? ==> extraction == None && isFetchError && !isFetchingURL
      ensures response.Fetched? ==>
        && extraction == Some(ExtractionRequest(response.html, requested))
        && isFetchingURL == old(isFetchingURL) && isFetchError == old(isFetchError)
    {
      match response
      case FetchFailed =>
        isFetchError := true;
        isFetchingURL := false;
        extraction := None;
      case Fetched(html) =>
        extraction := Some(ExtractionRequest(html, requested));
    }

    /** The `.catch` of the request: the same failure state, the record untouched. */
    method OnFetchRejected()
      modifies this
      ensures attributes == old(attributes)
      ensures isFetchError && !isFetchingURL
    {
      isFetchError := true;
      isFetchingURL := false;
    }

    /** The extraction callback: both flags cleared and the preview committed. */
    method OnPreviewExtracted(requested: Nullable, meta: LinkPreview)
      modifies this
      ensures !isFetchError && !isFetchingURL
      ensures attributes == CommitPreview(old(attributes), requested, meta)
      ensures old(Valid()) && requested.Some? ==> Valid()
    {
      isFetchError := false;
      isFetchingURL := false;
      attributes := CommitPreview(attributes, requested, meta);
      if old(Valid()) && requested.Some? {
        CommitPreviewConsistent(urlConstructor, old(attributes), requested, meta);
      }
    }
  }

  /**
   * A whole successful cycle started by an action: the block ends fetched on
   * the URL the action requested, with the extracted snapshot and no error.
   */
  method SuccessfulCycle(editor: BookmarkEditor, t: Trigger, html: string, meta: LinkPreview)
    requires editor.Valid() && FetchFires(t, editor.attributes, editor.isFetchingURL)
    modifies editor
    ensures editor.Valid()
    ensures !editor.isFetchingURL && !editor.isFetchError
    ensures editor.attributes.isURLFetched && editor.attributes.siteUrl == RequestedURL(old(editor.attributes))
    ensures editor.attributes.siteUrlInput == None && editor.attributes.siteTitle == meta.title
    ensures editor.attributes == CommitPreview(old(editor.attributes), RequestedURL(old(editor.attributes)), meta)
  {
    var started := editor.Activate(t);
    var extraction := editor.OnFetchResponse(started.value, Fetched(html));
    editor.OnPreviewExtracted(extraction.value.url, meta);
  }

  /**
   * A failed cycle, whether the route answers `success: false` or the request
   * rejects, leaves every attribute as it was and raises the error flag.
   */
  method FailedCycle(editor: BookmarkEditor, t: Trigger, rejected: bool)
    requires FetchFires(t, editor.attributes, editor.isFetchingURL)
    modifies editor
    ensures editor.attributes == old(editor.attributes)
    ensures !editor.isFetchingURL && editor.isFetchError
  {
    var started := editor.Activate(t);
    if rejected {
      editor.OnFetchRejected();
    } else {
      var extraction := editor.OnFetchResponse(started.value, FetchFailed);
    }
  }
}
