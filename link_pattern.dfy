/**
 * The URL classifier behind AppBridgeLink: the anchored pattern
 * `^(?:[a-z][a-z\d+.-]*:|\/\/)`, hand-coded over characters.
 *
 * A URL matches when it starts either with a scheme token (a lower-case
 * ASCII letter, then any run of lower-case letters, digits, `+`, `.` or `-`,
 * then `:`) or with the network-path prefix `//`. Only a prefix is
 * inspected: the pattern has a start anchor and no end anchor, and it has
 * no case-insensitive flag.
 */
module LinkPattern {

  /** `[a-z]` */
  predicate IsLowerAlpha(c: char) {
    'a' <= c <= 'z'
  }

  /** `\d` without the unicode flag: the ASCII digits only */
  predicate IsDigit(c: char) {
    '0' <= c <= '9'
  }

  /** `[a-z\d+.-]` */
  predicate IsSchemeChar(c: char) {
    IsLowerAlpha(c) || IsDigit(c) || c == '+' || c == '.' || c == '-'
  }

  // ---------------------------------------------------------------------
  // Declarative meaning of the pattern
  // ---------------------------------------------------------------------

  /** The scheme alternative matches `s[..k+1]`, with the `:` at index `k`. */
  ghost predicate SchemeColonAt(s: seq<char>, k: int) {
    && 0 < k < |s|
    && IsLowerAlpha(s[0])
    && (forall j :: 1 <= j < k ==> IsSchemeChar(s[j]))
    && s[k] == ':'
  }

  /** The first alternative, `[a-z][a-z\d+.-]*:`, matches at the start of `s`. */
  ghost predicate HasSchemePrefix(s: seq<char>) {
    exists k :: SchemeColonAt(s, k)
  }

  /** The second alternative, `\/\/`, matches at the start of `s`. */
  predicate HasNetworkPathPrefix(s: seq<char>) {
    |s| >= 2 && s[0] == '/' && s[1] == '/'
  }

  /** What `IS_EXTERNAL_LINK_REGEX.test(s)` answers. */
  ghost predicate IsExternalUrl(s: seq<char>) {
    HasSchemePrefix(s) || HasNetworkPathPrefix(s)
  }

  // ---------------------------------------------------------------------
  // Executable scanner
  // ---------------------------------------------------------------------

  /**
   * The end of the maximal run of scheme characters that starts at `i`:
   * every character in `s[i..k]` is a scheme character and `s[k]`, if any,
   * is not.
   */
  function SchemeRunEnd(s: seq<char>, i: nat): (k: nat)
    requires i <= |s|
    ensures i <= k <= |s|
    ensures forall j :: i <= j < k ==> IsSchemeChar(s[j])
    ensures k == |s| || !IsSchemeChar(s[k])
    decreases |s| - i
  {
    if i == |s| || !IsSchemeChar(s[i]) then i else SchemeRunEnd(s, i + 1)
  }

  /**
   * The scheme alternative, decided by one left-to-right scan: since `:` is
   * not a scheme character, the only place the `:` can stand is right
   * after the maximal run that follows the first letter.
   */
  function MatchesSchemeAlternative(s: seq<char>): (b: bool)
    ensures b <==> HasSchemePrefix(s)
  {
    if |s| == 0 || !IsLowerAlpha(s[0]) then
      false
    else
      var k := SchemeRunEnd(s, 1);
      if k < |s| && s[k] == ':' then
        assert SchemeColonAt(s, k);
        true
      else
        assert !HasSchemePrefix(s) by {
          forall k' | 0 < k' < |s| ensures !SchemeColonAt(s, k') {
            if k' < k {
              assert IsSchemeChar(s[k']);
            } else if k' > k {
              assert !IsSchemeChar(s[k]);
            }
          }
        }
        false
  }

  /** `IS_EXTERNAL_LINK_REGEX.test(url)`, executable. */
  function MatchesExternalLinkPattern(url: seq<char>): (b: bool)
    ensures b <==> IsExternalUrl(url)
  {
    MatchesSchemeAlternative(url) || HasNetworkPathPrefix(url)
  }

  // ---------------------------------------------------------------------
  // Properties of the pattern
  // ---------------------------------------------------------------------

  /** A lower-case letter, a run of scheme characters and `:` make any URL external. */
  lemma SchemeThenColonIsExternal(scheme: seq<char>, rest: seq<char>)
    requires |scheme| > 0 && IsLowerAlpha(scheme[0])
    requires forall j :: 1 <= j < |scheme| ==> IsSchemeChar(scheme[j])
    ensures IsExternalUrl(scheme + [':'] + rest)
  {
    var s := scheme + [':'] + rest;
    assert forall j :: 1 <= j < |scheme| ==> s[j] == scheme[j];
    assert SchemeColonAt(s, |scheme|);
  }

  /** Anything that begins with `//` is external. */
  lemma NetworkPathIsExternal(rest: seq<char>)
    ensures MatchesExternalLinkPattern("//" + rest)
  {
  }

  /** Only a prefix matters: extending an external URL keeps it external. */
  lemma ExternalIsPrefixClosed(s: seq<char>, t: seq<char>)
    requires IsExternalUrl(s)
    ensures IsExternalUrl(s + t)
  {
    if HasSchemePrefix(s) {
      var k :| SchemeColonAt(s, k);
      assert forall j :: 0 <= j <= k ==> (s + t)[j] == s[j];
      assert SchemeColonAt(s + t, k);
    } else {
      assert (s + t)[0] == s[0] && (s + t)[1] == s[1];
    }
  }

  /**
   * The scheme alternative cannot reach past the first character that is
   * neither a scheme character nor `:`: if `s[j]` is such a character and
   * no `:` stands in `s[1..j]`, the alternative does not match.
   */
  lemma NoSchemeBeyondForeignChar(s: seq<char>, j: nat)
    requires 0 < j < |s|
    requires !IsSchemeChar(s[j]) && s[j] != ':'
    requires forall i :: 1 <= i < j ==> s[i] != ':'
    ensures !HasSchemePrefix(s)
  {
    // A `:` before `j` is excluded by the third requires; one after `j`
    // would need `s[j]` to be a scheme character.
  }

  /** A URL whose first character is not a lower-case letter has no scheme prefix. */
  lemma NoSchemeWithoutLowerFirst(s: seq<char>)
    requires |s| == 0 || !IsLowerAlpha(s[0])
    ensures !HasSchemePrefix(s)
  {
  }

  /**
   * The empty URL and a root-relative path (one `/` followed by anything
   * but a second `/`) are not external.
   */
  lemma EmptyOrRootRelativeIsInternal(s: seq<char>)
    requires |s| == 0 || (s[0] == '/' && (|s| == 1 || s[1] != '/'))
    ensures !MatchesExternalLinkPattern(s)
  {
    NoSchemeWithoutLowerFirst(s);
  }

  /**
   * Worked cases of the pattern: `https:`, `mailto:x`, `a:` and the
   * host-and-port string `localhost:3000` match; `HTTPS://x`, `1a:`,
   * `hTTp:`, `/tab2` and the empty string do not.
   */
  lemma Examples()
    ensures MatchesExternalLinkPattern("https:")
    ensures MatchesExternalLinkPattern("mailto:x")
    ensures MatchesExternalLinkPattern("a:")
    ensures MatchesExternalLinkPattern("localhost:3000")
    ensures MatchesExternalLinkPattern("//cdn.example.com/x")
    ensures !MatchesExternalLinkPattern("HTTPS://x")
    ensures !MatchesExternalLinkPattern("1a:")
    ensures !MatchesExternalLinkPattern("hTTp:")
    ensures !MatchesExternalLinkPattern("/tab2")
    ensures !MatchesExternalLinkPattern("")
  {
    SchemeThenColonIsExternal("https", "");
    SchemeThenColonIsExternal("mailto", "x");
    SchemeThenColonIsExternal("a", "");
    SchemeThenColonIsExternal("localhost", "3000");
    NoSchemeWithoutLowerFirst("HTTPS://x");
    NoSchemeWithoutLowerFirst("1a:");
    NoSchemeBeyondForeignChar("hTTp:", 1);
    EmptyOrRootRelativeIsInternal("/tab2");
    EmptyOrRootRelativeIsInternal("");
  }

  // ---------------------------------------------------------------------
  // Comparison with the scheme grammar of RFC 3986
  // ---------------------------------------------------------------------

  /** ALPHA of RFC 5234: either case. */
  predicate IsRfcAlpha(c: char) {
    'a' <= c <= 'z' || 'A' <= c <= 'Z'
  }

  /** `scheme ":"` with `scheme = ALPHA *( ALPHA / DIGIT / "+" / "-" / "." )`, section 3.1 of RFC 3986 */
  ghost predicate HasRfcSchemePrefix(s: seq<char>) {
    exists k :: 0 < k < |s| && IsRfcAlpha(s[0]) && s[k] == ':' &&
      (forall j :: 1 <= j < k ==> IsRfcAlpha(s[j]) || IsDigit(s[j]) || s[j] in "+-.")
  }

  /**
   * Every scheme the pattern accepts is a scheme by section 3.1 of RFC 3986,
   * but not conversely: the pattern rejects upper-case letters, which the
   * RFC allows (schemes are case-insensitive there).
   */
  lemma SchemePrefixIsStricterThanRfc(s: seq<char>)
    ensures HasSchemePrefix(s) ==> HasRfcSchemePrefix(s)
    ensures HasRfcSchemePrefix("HTTP:") && !HasSchemePrefix("HTTP:")
  {
    if HasSchemePrefix(s) {
      var k :| SchemeColonAt(s, k);
      assert forall j :: 1 <= j < k ==> IsRfcAlpha(s[j]) || IsDigit(s[j]) || s[j] in "+-.";
    }
    var h := "HTTP:";
    assert forall j :: 1 <= j < 4 ==> IsRfcAlpha(h[j]);
    assert 0 < 4 < |h| && IsRfcAlpha(h[0]) && h[4] == ':';
    NoSchemeWithoutLowerFirst(h);
  }
}
