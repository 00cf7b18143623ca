# connect-webmention: the receiving side's verification pipeline

A model, in Dafny, of the Webmention receiver in `index.js` of
connect-webmention. A client claims that a `source` document mentions a
`target` URL. The middleware checks the pair, fetches the source once,
parses its microformats2 (mf2) markup, and looks for the target among the
property values of the page's top-level items. It then records the outcome
on `req.webmention`.

Modules, leaf first:

- `Wrappers` (`wrappers.dfy`): `Option`, for JavaScript properties that may be absent.
- `Strings` (`strings.dfy`): the case-insensitive prefix test of an anchored
  `/…/i` regular expression, and `String.prototype.indexOf`.
- `Errors` (`errors.dfy`): the five `badRequest` errors `verify` builds,
  plus the transport and parser errors it passes on unchanged.
- `Mf2` (`mf2.dfy`): the parsed document. It has items, each with an
  ordered property list. A property value is either a string or an
  embedded object with an optional `value` field.
- `UrlGuard` (`url_guard.dfy`): the three ordered checks made before any
  network access, with the loopback regular expression written out.
- `Matcher` (`matcher.dfy`): the jsonpath query as an explicit walk over
  items, properties and values, and the extraction of each match's
  property name from its path.
- `Verification` (`verification.dfy`): `verify`. The URI validator, the
  fetch and the parser are function parameters.
- `Receive` (`receive.dfy`): the options default and the middleware. The
  middleware is a class method that updates a `Webmention` record in place.

Some of the code's behaviour differs from what a reader of the protocol
might expect, and the model keeps it:

- Matched names are not de-duplicated (`DuplicatesKept`).
- Only top-level items are scanned. Nested items are never visited.
- A string value matches when the target is a substring of it, not only
  when it equals the target.
- A non-200 response is refused with the message "`source` is not found".
  No status code is carried.

## Model

| member | source | states |
|---|---|---|
| `Strings.Lower` | index.js:90 | the `/i` flag folds exactly the ASCII capitals `A`–`Z` to lower case; every other character is left as is |
| `Strings.StartsWithIgnoreCase` | index.js:90 | an anchored `/…/i` literal: an exact prefix always matches |
| `Strings.StartsWithIgnoreCaseFolded` | index.js:90 | matching a prefix ignoring case is the same as the folded prefix being a prefix of the folded string |
| `Strings.MismatchAt` | index.js:90 | one position where the folded characters differ refutes the prefix |
| `Strings.StartsWithConcat` | index.js:90 | a case-insensitive prefix `a + b` holds exactly when `a` is a prefix and `b` is a prefix of the remainder |
| `Strings.IndexOfFrom` | index.js:113 | the result is -1 exactly when the target does not occur at or after `from`; otherwise it is the first such occurrence |
| `Strings.IndexOf` | index.js:113 | `indexOf` is -1 exactly when the target occurs nowhere; otherwise it is the first index where it occurs |
| `UrlGuard.IsLoopback` | index.js:90 | the loopback regular expression rejects exactly the strings that start, ignoring case, with `localhost` or with an optional `http://`/`https://` followed by `127.`, `192.` or `10.` |
| `UrlGuard.SchemeOctetDot` | index.js:90 | one choice of the optional scheme group followed by the octet group is the same as one of three concatenated prefixes |
| `UrlGuard.LoopbackRejectsLocalhost` | index.js:90 | `localhost` at the start is refused in any case, whatever follows it |
| `UrlGuard.LoopbackRejectsHttpsTen` | index.js:90 | `Https://10.…` is refused: the scheme is matched case-insensitively |
| `UrlGuard.LoopbackRejectsNamePrefix` | index.js:90 | `192.…` and `http://127.…` are refused even when what follows is a host name |
| `UrlGuard.LoopbackAdmitsSchemeLocalhost` | index.js:90 | `http://localhost…` is not refused |
| `UrlGuard.LoopbackAdmitsOctet100` | index.js:90 | `http://100.…` is not refused: `10` must be followed by a dot |
| `UrlGuard.LoopbackAdmitsOctet1270` | index.js:90 | `http://1270.…` is not refused: `127` must be followed by a dot |
| `UrlGuard.LoopbackAdmitsOtherRange` | index.js:90 | `http://172.…` is not refused: other private ranges are not covered |
| `UrlGuard.LoopbackAdmitsOtherScheme` | index.js:90 | `ftp://127.…` is not refused: only `http://` and `https://` are skipped |
| `Errors.Message` | index.js:81-118 | transport and parser errors keep their own message; each of the five `badRequest` messages names `` `source` `` first |
| `Errors.OwnMessagesDistinct` | index.js:81-118 | the five `badRequest` errors have five different messages |
| `UrlGuard.Guard` | index.js:79-92 | invalid URIs first, then equal strings, then a loopback source; each error exactly when the earlier checks pass and its own fails; no error exactly when all three pass |
| `Matcher.ValueMatches` | index.js:111-114 | a string matches exactly when the target occurs in it; an object matches exactly when its `value` is present, non-empty and equal to the target |
| `Matcher.ValuesFrom` | index.js:111-115 | the matches among one property's values from index `j` on are increasing, all pass the filter, and include every passing value from `j` on |
| `Matcher.PropertiesFrom` | index.js:111-115 | the same for one item's properties from `p` on |
| `Matcher.ItemsFrom` | index.js:111-115 | the same for the top-level items from `i` on |
| `Matcher.MatchPositions` | index.js:111-115 | the query selects every top-level value that passes the filter and nothing else, each once, in item, property, value order |
| `Matcher.IncreasingUnique` | index.js:111-115 | two increasing position lists with the same elements are equal |
| `Matcher.MatchPositionsDetermined` | index.js:111-115 | any increasing list of exactly the matching positions is the query's result, so the traversal order is fixed |
| `Matcher.PathOf` | index.js:115-124 | the path of a top-level value has the value's property name right after its first `'properties'` element |
| `Matcher.QueryNodes` | index.js:111-115 | one node per selected value, in traversal order; every node's value passes the filter, and the name read back from its path is the name of the property owning the value |
| `Matcher.FirstIndexOf` | index.js:124 | `path.indexOf(e)` is -1 when `e` is absent, otherwise the first index holding `e` |
| `Matcher.NameInPath` | index.js:124 | the name is the element right after the first `'properties'` of the path, or the path's first element when it has none (`indexOf` gives -1) |
| `Matcher.MatchedNames` | index.js:123-125 | one name per selected value, in traversal order, each the name of the property owning that value |
| `Matcher.TextEqualToTargetMatches` | index.js:111-114 | a string value equal to the target always matches |
| `Matcher.TextContainingTargetMatches` | index.js:113 | any string containing the target matches, for example a longer URL |
| `Matcher.MentionIsNamed` | index.js:111-125 | every matching top-level value contributes its property name to the matches |
| `Matcher.DuplicatesKept` | index.js:123-125 | two matching values of one property give the property's name at two distinct entries |
| `Verification.Verify` | index.js:70-130 | guard errors in order and exactly when they apply; a transport error passed on; non-200 refused as not found; a parser error passed on; no mention exactly when no top-level value matches; an accepted outcome has passed every stage, carries the parsed document and has a non-empty list of matched names |
| `Verification.GuardFailureSkipsFetch` | index.js:79-97 | when the guard refuses, the outcome is a refusal that does not depend on the fetch, the parser or the redirect limit |
| `Verification.NonOkStatusSkipsParser` | index.js:100-106 | a response other than 200 is refused as not found whatever its body, without consulting the parser |
| `Verification.MentionAccepted` | index.js:106-127 | a parsed document with a matching top-level value yields an accepted outcome naming that value's property |
| `Verification.ReplyToTargetAccepted` | test/receive.test.js:51-57 | a property (for example `in-reply-to`) whose value is the target itself makes the mention verified with that property among the matches |
| `Receive.EffectiveMaxRedirects` | index.js:22 | an absent or zero limit becomes 5; any other limit is kept; the result is never 0 |
| `Receive.MissingFieldActsAsInvalidUri` | index.js:46-81 | a missing `source` or `target` field is refused exactly as `verify` refuses a value that is not a URI in its place |
| `Receive.Webmention.constructor` | index.js:42 | the new record has no fields set |
| `Receive.Middleware.constructor` | index.js:18-22 | the options object (a fresh one when none is given) gets its `maxRedirects` defaulted in place |
| `Receive.Middleware.Receive` | index.js:39-64 | an existing record is left untouched; otherwise a fresh record is attached; it stays empty for an empty body; otherwise it gets source and target, and then either only the error or `verified`, `matches` and `data` |

## Left out

- The `body-parser` url-encoded decoding (index.js:27-33) is left out. The body is given as a map from field names to strings. Repeated fields, which the parser turns into arrays, are not modelled.
- `request.get` is not modelled: network I/O, redirect following and the absence of a timeout. The fetch is a function parameter that receives the source and `options.maxRedirects` as the request reads it (absent or an integer), and returns a transport error or a status with a body.
- `Microformats.get` is not modelled: HTML to mf2 parsing is foreign code. It is a function parameter that returns a parse error or a document.
- `valid-url.isUri` is not modelled: it is foreign code. It is an uninterpreted function parameter `isUri`.
- The jsonpath engine itself is replaced by the explicit walk. The target is spliced into the query unescaped. A target containing `'` or `\` would change the query, and that is not modelled: the target is treated as a plain string.
- `Matcher.ValueMatches`: an object value without a truthy `value` field is taken as non-matching. The query would call `indexOf` on it, which objects do not have, and what the engine then does is not known.
- JavaScript orders integer-like object keys first. Property names are kept in the parser's order, which matches for every name that does not look like an integer.
- The HTTP status codes of the `throwjs` errors are not modelled, only the error kinds and messages. test/receive.test.js:87 expects 404, but index.js:103 builds a `badRequest`.
- The callback and asynchronous sequencing are not modelled. `Receive` writes the whole record in one step. In the source, `source` and `target` are visible before the fetch completes.
- `Receive.Middleware.Receive`: the check `!matches.length` at index.js:56 is not modelled as a branch. It cannot be reached because `Verify` never accepts with an empty list (its contract).
- The TODO features are not modelled because they are not implemented: salmention, vouch, trust configuration, and returning only matching items (index.js:24, 94-95, 121).
- Option values that are not integers, such as `NaN`, `''` or `null`, are not modelled. `||` would also replace them by 5. In the model `maxRedirects` is absent or an integer.
