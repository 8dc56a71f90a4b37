/**
 * AppBridgeLink: the link component handed to the design system. Given a
 * URL and an `external` flag it renders one of two anchors:
 *  - an external anchor that the browser opens in a new browsing context,
 *    with `href` the URL as given, `target="_blank"` and
 *    `rel="noopener noreferrer"`, and no click handler;
 *  - an in-app anchor with no `href`, whose click handler performs one
 *    in-frame navigation to the URL as given.
 * The external anchor is chosen when `external` is set or the URL matches
 * the external-link pattern of module LinkPattern.
 */
module AppBridgeLink {
  import opened LinkPattern

  const NewBrowsingContext: string := "_blank"
  const NoOpenerNoReferrer: string := "noopener noreferrer"

  /** The two anchors the component can render; children and pass-through attributes are left out. */
  datatype LinkElement =
    | ExternalAnchor(href: string, target: string, rel: string)
    | InAppAnchor(navigateTo: string)
  {
    /** The anchor's `href` attribute, absent on the in-app anchor. */
    function Href(): Option<string> {
      match this
      case ExternalAnchor(href, _, _) => Some(href)
      case InAppAnchor(_) => None
    }
  }

  datatype Option<T> = None | Some(value: T)

  /** The branch that renders `url`, with `IS_EXTERNAL_LINK_REGEX.test(url)` decided by the scanner. */
  function Render(url: string, external: bool): (e: LinkElement)
    ensures e.ExternalAnchor? <==> external || IsExternalUrl(url)
    ensures e.ExternalAnchor? ==>
      e.Href() == Some(url) && e.target == NewBrowsingContext && e.rel == NoOpenerNoReferrer
    ensures e.InAppAnchor? ==> e.Href() == None && e.navigateTo == url
  {
    if external || MatchesExternalLinkPattern(url) then
      ExternalAnchor(url, NewBrowsingContext, NoOpenerNoReferrer)
    else
      InAppAnchor(url)
  }

  /**
   * The arguments of the in-frame navigation calls that one click on `e`
   * issues, in order. The external anchor has no click handler: the
   * browser follows its `href` itself.
   */
  function NavigationsOnClick(e: LinkElement): (calls: seq<string>)
    ensures |calls| <= 1
    ensures e.InAppAnchor? <==> |calls| == 1
    ensures e.InAppAnchor? ==> calls[0] == e.navigateTo
  {
    match e
    case ExternalAnchor(_, _, _) => []
    case InAppAnchor(path) => [path]
  }

  /** `external == true` wins over the URL's shape, for every URL. */
  lemma ExternalFlagAlwaysWins(url: string)
    ensures Render(url, true) == ExternalAnchor(url, NewBrowsingContext, NoOpenerNoReferrer)
    ensures NavigationsOnClick(Render(url, true)) == []
  {
  }

  /**
   * Without the flag, a URL the pattern does not match renders the in-app
   * anchor, and one click on it navigates exactly once, to the URL itself.
   */
  lemma InternalClickNavigatesOnce(url: string)
    requires !IsExternalUrl(url)
    ensures Render(url, false).Href() == None
    ensures NavigationsOnClick(Render(url, false)) == [url]
  {
  }

  /** The empty URL and root-relative paths such as `/tab2` stay in the app. */
  lemma RootRelativeStaysInApp(url: string)
    requires |url| == 0 || (url[0] == '/' && (|url| == 1 || url[1] != '/'))
    ensures Render(url, false) == InAppAnchor(url)
    ensures NavigationsOnClick(Render(url, false)) == [url]
  {
    EmptyOrRootRelativeIsInternal(url);
  }

  /** A URL that starts with a lower-case scheme and `:` opens in a new context whatever follows. */
  lemma SchemeUrlOpensInNewContext(scheme: string, rest: string)
    requires |scheme| > 0 && IsLowerAlpha(scheme[0])
    requires forall j :: 1 <= j < |scheme| ==> IsSchemeChar(scheme[j])
    ensures Render(scheme + ":" + rest, false)
      == ExternalAnchor(scheme + ":" + rest, NewBrowsingContext, NoOpenerNoReferrer)
  {
    SchemeThenColonIsExternal(scheme, rest);
  }

  /** Appending to a URL that opens in a new context never brings it back into the app. */
  lemma ExternalRenderIsPrefixClosed(url: string, suffix: string, external: bool)
    requires Render(url, external).ExternalAnchor?
    ensures Render(url + suffix, external).ExternalAnchor?
  {
    if !external {
      ExternalIsPrefixClosed(url, suffix);
    }
  }

  /**
   * Worked renders: `/settings` navigates in the app; an `https` URL
   * and a protocol-relative URL open in a new context; the flag turns
   * `/settings` external; the empty URL navigates in the app.
   */
  lemma WorkedRenders()
    ensures NavigationsOnClick(Render("/settings", false)) == ["/settings"]
    ensures Render("https://example.com", false)
      == ExternalAnchor("https://example.com", NewBrowsingContext, NoOpenerNoReferrer)
    ensures Render("//assets.cdn.com/a.js", false).ExternalAnchor?
    ensures Render("/settings", true).Href() == Some("/settings")
    ensures NavigationsOnClick(Render("", false)) == [""]
  {
    RootRelativeStaysInApp("/settings");
    assert "https" + ":" + "//example.com" == "https://example.com";
    SchemeUrlOpensInNewContext("https", "//example.com");
    assert HasNetworkPathPrefix("//assets.cdn.com/a.js");
    RootRelativeStaysInApp("");
  }
}
