/**
 * Model of src/functions.js: URL validation and the link-target resolver.
 */
module Functions {
  import opened Wrappers

  /** A string attribute that may be null. */
  type Nullable = Option<string>

  /** JavaScript truthiness of a nullable string: present and not empty. */
  predicate Truthy(s: Nullable) {
    s.Some? && s.value != ""
  }

  /** What a template literal `${ s }` turns a nullable string into. */
  function Interpolate(s: Nullable): (t: string)
    ensures s.Some? ==> t == s.value
    ensures s.None? ==> t == "null"
  {
    match s
    case Some(v) => v
    case None => "null"
  }

  // ---------------------------------------------------------------------
  // validateURL
  // ---------------------------------------------------------------------

  /** What the host's `new URL( val )` does: it builds a URL object or throws. */
  datatype UrlOutcome = Constructed | Threw

  /** The host's URL constructor, a foreign total function of the input string. */
  type UrlConstructor = string -> UrlOutcome

  /**
   * `validateURL`: true when the constructor accepts the string; a throw is
   * caught and becomes false, so every input yields a boolean.
   */
  function ValidateURL(urlConstructor: UrlConstructor, val: string): (ok: bool)
    ensures ok <==> urlConstructor(val) != Threw
  {
    match urlConstructor(val)
    case Constructed => true
    case Threw => false
  }

  // ---------------------------------------------------------------------
  // getTargetURI
  // ---------------------------------------------------------------------

  /** The referrer-hiding redirector every hidden link goes through. */
  const HrefLiPrefix: string := "https://href.li/?"

  /**
   * `getTargetURI( url, hide )`: when hiding, the URL is appended, unescaped, to
   * the redirector; otherwise the URL itself (null included) is returned.
   */
  function GetTargetURI(url: Nullable, hideReferer: bool): (r: Nullable)
    ensures !hideReferer ==> r == url
    ensures hideReferer ==> r.Some? && |r.value| == |HrefLiPrefix| + |Interpolate(url)|
    ensures hideReferer ==> r.value[..|HrefLiPrefix|] == HrefLiPrefix
    ensures hideReferer ==> r.value[|HrefLiPrefix|..] == Interpolate(url)
  {
    if hideReferer then Some(HrefLiPrefix + Interpolate(url)) else url
  }

  /** The redirector prefix is seventeen characters long. */
  lemma HrefLiPrefixLength()
    ensures |HrefLiPrefix| == 17
  {
  }

  /** Without hiding, a present URL is its own target. */
  lemma TargetOfVisibleUrl(u: string)
    ensures GetTargetURI(Some(u), false) == Some(u)
  {
  }

  /** With hiding, a present URL is appended to the prefix, character for character. */
  lemma TargetOfHiddenUrl(u: string)
    ensures GetTargetURI(Some(u), true) == Some(HrefLiPrefix + u)
  {
  }

  /** Removing the prefix from a hidden target gives the original URL back. */
  function UnhideTarget(target: string): (u: Option<string>)
    ensures u.Some? <==> |target| >= |HrefLiPrefix| && target[..|HrefLiPrefix|] == HrefLiPrefix
    ensures u.Some? ==> HrefLiPrefix + u.value == target
  {
    if |target| >= |HrefLiPrefix| && target[..|HrefLiPrefix|] == HrefLiPrefix
    then Some(target[|HrefLiPrefix|..])
    else None
  }

  /** Round trip: hiding then unhiding a present URL is the identity. */
  lemma UnhideHiddenTarget(u: string)
    ensures UnhideTarget(GetTargetURI(Some(u), true).value) == Some(u)
  {
    var t := GetTargetURI(Some(u), true).value;
    assert t[..|HrefLiPrefix|] == HrefLiPrefix;
    assert t[|HrefLiPrefix|..] == u;
  }

  /** Hiding is injective on present URLs: two different URLs never share a target. */
  lemma HiddenTargetInjective(u: string, v: string)
    requires GetTargetURI(Some(u), true) == GetTargetURI(Some(v), true)
    ensures u == v
  {
    UnhideHiddenTarget(u);
    UnhideHiddenTarget(v);
  }

  /**
   * Hiding is not injective on nullable URLs: a null URL interpolates to the
   * text "null", so it gets the same target as the literal string "null".
   */
  lemma HiddenNullCollides()
    ensures GetTargetURI(None, true) == GetTargetURI(Some("null"), true)
    ensures GetTargetURI(None, false) != GetTargetURI(Some("null"), false)
  {
  }
}
