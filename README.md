# AppBridgeLink link dispatch, in Dafny

This project models the one piece of logic in the Shopify app shell's
`PolarisProvider.tsx`: the link component `AppBridgeLink` that the Polaris
design system uses to render every link. Given a `url` and an `external`
flag it renders either

- an **external anchor**: `href` is the URL unchanged, `target="_blank"`,
  `rel="noopener noreferrer"`, and no click handler; or
- an **in-app anchor**: no `href`, and a click handler that calls App
  Bridge's `navigate(url)` once, with the URL unchanged.

The external anchor is chosen when `external` is true or the URL matches
`IS_EXTERNAL_LINK_REGEX`, `/^(?:[a-z][a-z\d+.-]*:|\/\/)/`: a lower-case
scheme token followed by `:` (the scheme grammar of section 3.1 of RFC 3986,
restricted to lower case), or the network-path prefix `//` (section 4.2 of
RFC 3986), at the start of the string.

Two modules:

- `LinkPattern` (`link_pattern.dfy`): the pattern as a declarative ghost
  predicate `IsExternalUrl` (an existential over the index of the `:`), an
  executable scanner `MatchesExternalLinkPattern` proved equivalent to it,
  the pattern's properties (prefix closure, which first characters can
  start a scheme, worked cases) and a comparison with the case-insensitive
  scheme grammar of RFC 3986.
- `AppBridgeLink` (`app_bridge_link.dfy`): the branch at line 20 as
  `Render`, returning a `LinkElement` value, and a click as
  `NavigationsOnClick`, the list of `navigate` calls one click issues.

Section 3.1 of RFC 3986 treats schemes as case-insensitive; the regex has no
`i` flag, so only lower-case letters start a scheme. The model follows the
code: `HTTPS://x` and `hTTp:` are not external.

## Model

| member | source | states |
|---|---|---|
| LinkPattern.SchemeRunEnd | client/src/components/providers/PolarisProvider.tsx:18 | every character from the start position up to the returned end is in `[a-z\d+.-]`, and the character at the end, if there is one, is not. |
| LinkPattern.MatchesSchemeAlternative | client/src/components/providers/PolarisProvider.tsx:18 | the single-scan decision is true exactly when some `:` is preceded by a lower-case letter at index 0 and only scheme characters between |
| LinkPattern.MatchesExternalLinkPattern | client/src/components/providers/PolarisProvider.tsx:18-20 | `IS_EXTERNAL_LINK_REGEX.test(url)` is true exactly when the URL starts with a lower-case scheme and `:` or with `//` |
| LinkPattern.SchemeThenColonIsExternal | client/src/components/providers/PolarisProvider.tsx:18 | a lower-case letter, any run of `[a-z0-9+.-]` and `:` make a URL external whatever follows |
| LinkPattern.NetworkPathIsExternal | client/src/components/providers/PolarisProvider.tsx:18 | every URL beginning with `//` matches |
| LinkPattern.ExternalIsPrefixClosed | client/src/components/providers/PolarisProvider.tsx:18 | the pattern has no end anchor: if `s` matches then `s + t` matches for every `t` |
| LinkPattern.NoSchemeBeyondForeignChar | client/src/components/providers/PolarisProvider.tsx:18 | a character outside `[a-z0-9+.-]` that is not `:` and comes before every `:` stops the scheme alternative (e.g. the upper-case `T` in `hTTp:`) |
| LinkPattern.NoSchemeWithoutLowerFirst | client/src/components/providers/PolarisProvider.tsx:18 | a URL that is empty or starts with anything but `a`-`z` (upper case, digit, `/`) has no scheme prefix |
| LinkPattern.EmptyOrRootRelativeIsInternal | client/src/components/providers/PolarisProvider.tsx:18 | the empty URL and a single `/` not followed by `/` (such as `/tab2`) do not match |
| LinkPattern.Examples | client/src/components/providers/PolarisProvider.tsx:18 | `https:`, `mailto:x`, `a:`, `localhost:3000` and `//cdn.example.com/x` match; `HTTPS://x`, `1a:`, `hTTp:`, `/tab2` and the empty URL do not |
| LinkPattern.SchemePrefixIsStricterThanRfc | client/src/components/providers/PolarisProvider.tsx:18 | every scheme the pattern accepts is an RFC 3986 scheme, and `HTTP:` is an RFC 3986 scheme the pattern rejects |
| AppBridgeLink.Render | client/src/components/providers/PolarisProvider.tsx:20-32 | the external anchor is rendered exactly when `external` is set or the URL matches; it carries `href == url`, `target == "_blank"`, `rel == "noopener noreferrer"`; otherwise the in-app anchor has no `href` and navigates to `url` unchanged |
| AppBridgeLink.NavigationsOnClick | client/src/components/providers/PolarisProvider.tsx:14-32 | a click issues at most one `navigate` call: exactly one, to the bound URL, on the in-app anchor, and none on the external anchor |
| AppBridgeLink.ExternalFlagAlwaysWins | client/src/components/providers/PolarisProvider.tsx:20-25 | with `external == true` every URL, including the empty one and relative paths, renders the external anchor and a click navigates nowhere in the app |
| AppBridgeLink.InternalClickNavigatesOnce | client/src/components/providers/PolarisProvider.tsx:14-32 | a URL the pattern rejects, without the flag, renders no `href` and one click navigates exactly once, to that URL |
| AppBridgeLink.RootRelativeStaysInApp | client/src/components/providers/PolarisProvider.tsx:18-32 | the empty URL and root-relative paths render the in-app anchor and navigate to themselves, with no guard on the empty URL |
| AppBridgeLink.SchemeUrlOpensInNewContext | client/src/components/providers/PolarisProvider.tsx:18-25 | a URL starting with a lower-case scheme and `:` renders the external anchor with the URL as `href` |
| AppBridgeLink.ExternalRenderIsPrefixClosed | client/src/components/providers/PolarisProvider.tsx:18-20 | appending to a URL that renders externally keeps it external, with the same flag |
| AppBridgeLink.WorkedRenders | client/src/components/providers/PolarisProvider.tsx:14-32 | `/settings` navigates in the app, `https://example.com` and `//assets.cdn.com/a.js` open in a new context, the flag makes `/settings` external, and the empty URL navigates in the app to `""` |

## Left out

- React rendering, JSX and `children`: the two anchors are values of the datatype `LinkElement`.
- The `...rest` spread (lines 11, 22, 29): the pass-through attributes are not modelled. In the source they are spread after `target`, `rel` and `href`, so a caller passing those keys would override them; and on the in-app anchor (line 29) a caller's `onClick` would replace the navigation handler and a caller's `href` would add an href. The guarantees about `href`, `target` and `rel` hold for callers that pass none of those keys, and the in-app guarantees (no `href`, exactly one `navigate` call per click) hold for callers that pass neither `onClick` nor `href`.
- `useNavigate` and the in-frame navigation itself (lines 3, 13): a click is modelled as the list of URLs handed to `navigate`. Failures inside `navigate` are not modelled.
- `useCallback` memoization and handler identity across re-renders (lines 14-16): React runtime behaviour, not logic of this file.
- `external` is typed `boolean`; a missing (`undefined`) value behaves as `false` in the source's `||` and is modelled as `false`.
- JavaScript strings are sequences of UTF-16 code units; the model uses Dafny `char`. The pattern only tests ASCII characters, so the classification is the same.
- `PolarisProvider` (lines 55-63), the `en.json` translations, the CSS import and the `@ts-ignore`: composition and configuration over libraries that are not part of this model.
