# web-scrape page analyser, modelled in Dafny

`app.py` is a small Tornado web service. A request `GET /?url=<url>`
returns a JSON summary of the page at `<url>`. Here `<url>` is the
parameter as Tornado's `get_argument` returns it: U+0000 to U+0008 and
U+000E to U+001F become spaces, and surrounding whitespace is stripped. The summary holds:

- the page's HTML version, found by looking up its doctype declaration;
- its title;
- how many `h1` to `h6` elements it has;
- how many of its links are internal, external or inaccessible;
- whether it has a login form.

Each summary is kept in Redis for a day under the key `scrape-url-<url>`.
A second request within that day is answered from the cache.

This project models that core and proves what it computes:

- `PyStr`: the Python string operations the service relies on. These are
  `find`, `rfind`, `split(c, 1)[0]`, `lower`, `lstrip`, `rstrip` and `strip`.
- `Urls`: the part of `urllib.parse.urlparse` (CPython 3.12) that the link
  test reads: the scheme, the network location and the path. It covers:
  - stripping leading C0 controls and spaces;
  - deleting tabs and newlines;
  - the scheme rule;
  - the `//` authority;
  - the cuts at fragment, query and parameters.
- `Doctype`: the table of eight doctype declarations, and the detection of
  the version from the text up to the first `>`, lower-cased and stripped.
- `Headings`: the `for idx in range(1, 7)` loop that fills `heading_counts`.
- `Links`: the if/elif chain that classifies one `href`, and the loop that
  fills `link_info`.
- `JsonValues`, `PageAnalysis`: the two result dictionaries of
  `get_page_info`, and the analyser as a method over the outcome of the fetch.
- `Cache`: the Redis store as a class holding a map of entries with expiry
  times, and `MainHandler.get` as a method that either returns the cached
  value or computes the summary, stores it and returns it.

Some behaviour of the code is worth knowing. The model reproduces each of
these as written, and each is proved:

- A protocol-relative link such as `//other.example/x` has no scheme, so it
  is counted as internal (`Links.ProtocolRelativeIsInternal`).
- An `href` with spaces or control characters (U+0000 to U+0020) before
  its `#` fails the `#` prefix test. `urlparse` then strips them and finds
  nothing, so the link is counted as inaccessible
  (`Links.PaddedFragmentIsInaccessible`).
- A query-only `href` such as `?page=2` is inaccessible
  (`Links.QueryOnlyIsInaccessible`).
- A `javascript:` link is internal in any letter case
  (`Links.SchemeLinkIsExternal`).
- A failed fetch also produces a result dictionary, and that result is
  cached for a day like any other (`Cache.MainHandler.Get`).
- The version is recognised exactly when the declaration is the first tag
  of the body. Leading whitespace is allowed (`Doctype.DeclarationDetected`
  and, for the converse, `Doctype.DetectedDeclaration`).

Where the behaviour differs from a plain reading of the comments in
`app.py`, the model follows the code.

## Model

| member | source | states |
|---|---|---|
| `PyStr.StartsWith` | app.py:64 | `href.startswith('#')` for a one-character prefix: the string is non-empty and opens with that character |
| `PyStr.Find` | app.py:39 | `find('>')`: -1 exactly when the character is absent; otherwise the index of its first occurrence |
| `PyStr.FindFrom` | app.py:63 | `find(c, start)`, used by `_splitparams`: -1 iff `c` does not occur from `start`; otherwise the first index at or after `start` that holds `c` |
| `PyStr.RFind` | app.py:63 | `rfind(c)`, used by `_splitparams`: -1 or the index of the last occurrence of `c` |
| `PyStr.Before` | app.py:63 | `split(c, 1)[0]`, used by `urlsplit`: the longest prefix free of `c`, which is followed by `c` when it is not the whole string |
| `PyStr.LowerChar` | app.py:39 | `lower()` maps upper-case ASCII letters to lower case and leaves every other character alone |
| `PyStr.Lower` | app.py:39 | `lower()`: the same length, each character lower-cased by `LowerChar` |
| `PyStr.LStripShape` | app.py:39 | `lstrip()` removes a whitespace prefix and nothing more, and what remains does not start with whitespace |
| `PyStr.RStripShape` | app.py:39 | `rstrip()` removes a whitespace suffix and nothing more, and what remains does not end with whitespace |
| `PyStr.LStripSkips` | app.py:39 | `lstrip()` of whitespace followed by a non-space gives back exactly what follows |
| `PyStr.RStripSkips` | app.py:39 | `rstrip()` of a text followed by whitespace gives back exactly the text |
| `PyStr.StripSurrounded` | app.py:39 | `strip()` of a text that neither starts nor ends with whitespace, wrapped in whitespace, is that text |
| `PyStr.Strip` | app.py:39 | `strip()`: `lstrip()` and then `rstrip()`, over Python's whitespace set |
| `Urls.LStripC0` | app.py:61 | `urlparse` first drops exactly the leading C0 controls and spaces, stopping at the first other character |
| `Urls.RemoveUnsafe` | app.py:61 | `urlparse` deletes every tab, CR and LF; a string without them is unchanged |
| `Urls.RemoveUnsafeAppend` | app.py:61 | deleting tabs and newlines distributes over concatenation |
| `Urls.Sanitize` | app.py:61 | the text that `urlsplit` parses has no tab, CR or LF |
| `Urls.SchemeFoundIff` | app.py:61 | a scheme is found exactly when the text before the URL's first ':' is a non-empty scheme name |
| `Urls.SplitSchemeShape` | app.py:61 | a found scheme is a lower-case scheme name: the text before the first ':', lower-cased, with the rest following that ':'. Without a scheme, the whole URL is the rest |
| `Urls.Delimiter` | app.py:62 | the end of the network location is the first '/', '?' or '#' after "//", or the end of the URL |
| `Urls.SplitNetloc` | app.py:62 | the network location is the text after "//" up to the first '/', '?' or '#', and the remainder starts at that delimiter |
| `Urls.ParamsPath` | app.py:63 | `_splitparams` keeps a prefix of the path, ending just before a ';' |
| `Urls.PathOfShape` | app.py:63 | the parsed path contains neither '#' nor '?' |
| `Urls.UrlParse` | app.py:61-63 | `urlparse(href)` reduced to scheme, netloc and path: drop leading C0 controls and spaces, delete tabs and newlines, split off a scheme, then a `//` authority, then take the path before '#' and '?', cut at ';' for the schemes that use parameters |
| `Urls.UrlParseShape` | app.py:61-63 | the parsed scheme is empty or a lower-case scheme name; the netloc has no '/', '?' or '#'; the path has no '#' or '?' |
| `Urls.SanitizeKeepsFirst` | app.py:61 | a first character that is neither a control nor a space survives sanitising |
| `Urls.NoSchemeWithoutLetter` | app.py:61 | a URL that does not open with an ASCII letter has no scheme and is passed on whole |
| `Urls.PathOnly` | app.py:61-63 | a URL with no scheme and no leading "//" has an empty scheme and netloc; all of it is path material |
| `Urls.EmptyPath` | app.py:63 | a fragment or a query at the front leaves the path empty |
| `Urls.NonEmptyPath` | app.py:63 | any other first character than '#', '?' or ';' starts a non-empty path |
| `Urls.MarkFirstParsesEmpty` | app.py:61-63 | an href opening with '#' or '?' parses to an empty scheme, netloc and path |
| `Urls.MarkFirstSanitizedParsesEmpty` | app.py:61-63 | a sanitised URL opening with '#' or '?' parses to an empty scheme, netloc and path |
| `Urls.EmptyParsesEmpty` | app.py:61-63 | the empty href parses to an empty scheme, netloc and path |
| `Urls.PaddedFragmentParsesEmpty` | app.py:61-63 | C0 controls or spaces (U+0000 to U+0020) followed by '#' parse to an empty scheme, netloc and path |
| `Urls.SchemeNamePlain` | app.py:61 | a scheme name contains no ':', tab or newline |
| `Urls.SchemeSanitized` | app.py:61 | sanitising keeps "scheme:" in front and only cleans what follows |
| `Urls.SchemeSplit` | app.py:61 | the scheme step finds the leading scheme name, lower-cased |
| `Urls.SchemeParsed` | app.py:61 | an href opening with a scheme name and ':' has that name, lower-cased, as its parsed scheme |
| `Urls.SanitizeUnchanged` | app.py:61 | a URL with no leading control or space and no tab or newline is parsed as it is |
| `Urls.RootRelativeParse` | app.py:61-63 | "/path" (not "//"), with no tab or newline, has no scheme or netloc, and all of it is path material |
| `Urls.RemoveUnsafeKeeps` | app.py:61 | deleting tabs and newlines introduces no new character |
| `Doctype.VersionString` | app.py:39 | the body up to and including its first '>' (empty when it has none), lower-cased and stripped |
| `Doctype.DetectVersion` | app.py:39-41 | the table's label for the version string, or "unknown" when it is not a key |
| `Doctype.VersionOf` | app.py:41 | `html_versions.get(v, 'unknown')` is always one of the nine labels. It differs from "unknown" iff `v` is a key of the table, and then it is that key's label |
| `Doctype.NoCloseBracketIsUnknown` | app.py:39-41 | a body without '>' yields the empty version string, and so "unknown" |
| `Doctype.EmptyVersionString` | app.py:39 | with no '>', `find` gives -1 and the sliced, lowered, stripped string is empty |
| `Doctype.EmptyIsNoVersion` | app.py:16-25 | the empty string is not a key of the doctype table |
| `Doctype.PublicDoctypeShape` | app.py:18-24 | every W3C public doctype built from a name and a DTD path free of '>' is a single tag |
| `Doctype.VersionKeys` | app.py:16-25 | the table's keys are exactly the eight declarations |
| `Doctype.DoctypesAreSingleTags` | app.py:16-25 | each of the eight declarations opens with '<' and ends at its only '>' |
| `Doctype.VersionKeyShape` | app.py:16-25 | every key of the table is a single tag, so `find('>')` stops at its end |
| `Doctype.LowerKeepsShape` | app.py:39 | lower-casing moves no '>' and creates or removes no whitespace |
| `Doctype.DeclarationDetected` | app.py:39-41 | a body of whitespace, then a known declaration in any letter case, then anything, is detected as that declaration's version |
| `Doctype.DetectedHasBracket` | app.py:39-41 | a body whose version string is a table key has a '>' |
| `Doctype.StripBeforeBracket` | app.py:39 | `strip()` of a text ending with '>' removes only a whitespace prefix |
| `Doctype.DetectedDeclaration` | app.py:39-41 | conversely, a body whose version is detected is whitespace, then a known declaration in some letter case, then anything; the version is that declaration's label |
| `Doctype.Html5Detected` | app.py:17 | `<!DOCTYPE html>` in any case, after any whitespace, is "HTML 5" |
| `Links.Decide` | app.py:64-71 | a '#' prefix is internal; else an empty scheme, netloc and path is inaccessible; else a scheme outside ['javascript', ''] is external; else internal |
| `Links.Classify` | app.py:61-71 | the kind of an href: `Decide` on the href and its `urlparse` |
| `Links.Bump` | app.py:65-71 | `link_info[kind] += 1`: the counter of that kind goes up by one, the other two stay |
| `Links.Tally` | app.py:54-71 | the counters after the loop: from zero, bumped once per kind in order |
| `Links.Kinds` | app.py:59-71 | one kind per anchor, in document order, each the classification of that anchor's href |
| `Links.CountSnoc` | app.py:65-71 | appending one kind adds one to its own count and changes no other |
| `Links.TallyCounts` | app.py:54-71 | after the loop, each counter equals the number of anchors classified as its kind |
| `Links.TallyTotal` | app.py:54-71 | every anchor bumps exactly one counter, so the counters add up to the number of anchors |
| `Links.ClassifyLink` | app.py:60-71 | one loop pass: `urlparse(href)` and the if/elif chain give the anchor's kind |
| `Links.CountLinks` | app.py:53-71 | the loop ends with the counters of the anchors' kinds, and the counters add up to the number of anchors |
| `Links.FragmentIsInternal` | app.py:64-65 | an href starting with '#' is internal, whatever follows |
| `Links.EmptyIsInaccessible` | app.py:66-67 | the empty href is inaccessible |
| `Links.QueryOnlyIsInaccessible` | app.py:66-67 | a query-only href "?..." is inaccessible |
| `Links.PaddedFragmentIsInaccessible` | app.py:64-67 | a '#' href with leading C0 controls or spaces (U+0000 to U+0020) misses the '#' test and is inaccessible |
| `Links.DecideByScheme` | app.py:64-71 | past the '#' test, a non-empty scheme alone decides: `javascript` is internal, any other is external |
| `Links.SchemeLinkIsExternal` | app.py:68-71 | an href opening with a scheme name and ':' is external, unless the scheme is `javascript` in any case, which is internal |
| `Links.RelativePathIsInternal` | app.py:70-71 | a relative path that opens with a name and has no ':' is internal |
| `Links.RootRelativeIsInternal` | app.py:70-71 | a path from the root (but not "//host"), with no tab or newline, is internal |
| `Links.ProtocolRelativeIsInternal` | app.py:62-71 | "//host..." has a netloc but no scheme, so it is internal even when the host is another site |
| `Links.AbsoluteExample` | app.py:68-69 | "https://other.example/x" is external |
| `Links.RootRelativeExample` | app.py:70-71 | "/local/path" is internal |
| `Links.ScriptExample` | app.py:70-71 | "javascript:void(0)" is internal |
| `Headings.Occurrences` | app.py:49 | `len(tree.xpath('//' + tag))`: the number of elements with that tag, at most the number of elements |
| `Headings.HeadingCounts` | app.py:47-49 | the map from each of "h1" to "h6" to the number of elements with that tag |
| `Headings.HeadingKey` | app.py:49 | the key of level 1 to 6 is 'h' followed by the level's digit, one of "h1" to "h6" |
| `Headings.OccurrencesIsMultiplicity` | app.py:49 | the number of elements with a tag is its multiplicity in the document's tags |
| `Headings.CountsBelowValues` | app.py:48-49 | each round stores, under its key, the number of elements with that tag |
| `Headings.CountsBelowKeys` | app.py:47-49 | the six rounds write exactly the keys "h1" to "h6" |
| `Headings.AllRounds` | app.py:47-49 | after the six rounds the map is the heading-count map |
| `Headings.CountHeadings` | app.py:47-49 | the loop ends with exactly the keys "h1" to "h6", each holding the number of elements of that tag |
| `Headings.HeadingCountsMeaning` | app.py:47-49 | `heading_counts` has exactly the keys "h1" to "h6", each with the multiplicity of that tag |
| `Headings.CountsCoverHeadings` | app.py:47-49 | every heading element is counted under exactly one level: the six counts add up to the number of headings |
| `JsonValues.StringOrNull` | app.py:44 | a missing title text (None) is serialised as null, and a present one as that string |
| `PageAnalysis.Failure` | app.py:32-35 | the failure dictionary: `status` "failure" and `error` "Failed to reach URL. " followed by the cause |
| `PageAnalysis.Success` | app.py:77-84 | the success dictionary: `status` "success", then `version`, `title` (null for None), `heading_counts`, `link_info` and `login_form` from the given values |
| `PageAnalysis.PageInfo` | app.py:28-84 | the failure dictionary for a failed fetch; otherwise the success dictionary of the detected version, the first title's text, the heading counts, the tally of the anchors' kinds and whether a form holds a password input |
| `PageAnalysis.GetPageInfo` | app.py:28-84 | the analyser returns the failure dictionary for a failed fetch, and otherwise the success dictionary of the detected version, the first title, the heading counts, the link counters and the login flag |
| `PageAnalysis.FailureShape` | app.py:32-35 | the failure dictionary has exactly `status` = "failure" and `error` = "Failed to reach URL. " followed by the cause |
| `PageAnalysis.SuccessShape` | app.py:77-84 | the success dictionary has exactly the six keys, with `status` = "success" |
| `PageAnalysis.ResultShape` | app.py:29-84 | `status` is "success" iff the fetch succeeded. A failure has exactly `status` and `error`; a success has exactly the six keys |
| `PageAnalysis.SuccessFields` | app.py:77-84 | the fields of a success are exactly the six success keys |
| `PageAnalysis.VersionField` | app.py:79 | `version` holds the version detected from the body |
| `PageAnalysis.VersionIsLabel` | app.py:79 | `version` is always one of the nine labels, and "unknown" when the body has no '>' |
| `PageAnalysis.HeadingCountsReported` | app.py:81 | `heading_counts` has exactly the keys "h1" to "h6", each the number of elements of that level |
| `PageAnalysis.LinkInfoJsonShape` | app.py:54-58 | `link_info` has exactly the keys `internal`, `external` and `inaccessible`, whose integer values add up to the counters' total |
| `PageAnalysis.TallyReported` | app.py:82 | `link_info` has exactly the three counters, each the number of its kind, adding up to the number of links |
| `PageAnalysis.LinkInfoReported` | app.py:82 | each `link_info` counter is the number of anchors of its kind, and the three add up to the number of anchors |
| `Cache.Key` | app.py:96 | `f'{REDIS_PREFIX}-{url}'`: "scrape-url", a '-', then the URL, so its length is theirs added up |
| `Cache.KeyRoundTrip` | app.py:96 | every key starts with "scrape-url-", and the URL can be read back from it |
| `Cache.KeyInjective` | app.py:96 | two URLs have the same key iff they are the same URL |
| `Cache.Lookup` | app.py:97 | `GET` finds a value iff the key is present and not yet expired, and the value is the stored one |
| `Cache.Hit` | app.py:97-98 | `if redis_value:`: the key holds an unexpired value, and that value is not empty |
| `Cache.Store` | app.py:103 | `SET ... EX 86400` adds or replaces that one entry, expiring one day later, and leaves every other entry as it was |
| `Cache.LookupAfterStore` | app.py:103 | a stored value is read back for one day |
| `Cache.ExpiredAfterTtl` | app.py:103 | a stored value is gone once one day has passed |
| `Cache.StoreLeavesOthers` | app.py:103 | storing under one key changes what no other key reads |
| `Cache.CacheStore.Get` | app.py:97 | `r.get(key)` returns what `GET` finds at that time |
| `Cache.CacheStore.Set` | app.py:103 | `r.set(key, value, ex=86400)` changes the store as `SET ... EX 86400` does |
| `Cache.MainHandler.constructor` | app.py:91-95 | a handler starts on the given store, with no analyser runs |
| `Cache.MainHandler.Get` | app.py:91-104 | on a hit (present, unexpired, non-empty) the handler returns the cached value and changes nothing. On a miss it runs the analyser once, stores the serialised result under the URL's key for a day from the moment of the `SET` (after the fetch), and returns that same serialisation |
| `Cache.RepeatWithinTtl` | app.py:97-104 | a second request for a URL less than a day after the first request's `SET` is answered from the cache: the analyser runs once, and both get the first body even if the page has changed since |
| `Cache.RepeatAfterTtl` | app.py:97-104 | a second request a day or more after the first request's `SET` runs the analyser again and returns the serialisation of the page as fetched then |

## Left out

- Fetching the page (`requests.get`) is not modelled. Its result is a parameter
  of the analyser: either the exception's message or the body text together
  with the parsed document.
- Parsing with lxml and the XPath queries are not modelled. The document is
  given as what those queries return:
  - the titles' texts;
  - the tag of every element;
  - every anchor's `href`, or None;
  - the number of password inputs inside a form.

  `html.fromstring` raising on an empty body is not modelled.
- The three crash paths are preconditions (`PageAnalysis.Analysable`), not
  outcomes, because the source handles none of them:
  - a page with no `<title>` (indexing raises);
  - an anchor without `href` (`urlparse(None)` returns empty parts, but
    `None.startswith('#')` then raises AttributeError);
  - an `href` whose network location has one square bracket without the
    other (`urlparse` raises ValueError).

  Tornado turns each of them into an HTTP 500 error.
- Urls.Accepted: this is the only `ValueError` of `urlsplit` the model
  captures. The validation of a bracketed host as an IP address, and the NFKC
  check of the network location, are not modelled. Links whose href fails
  those checks are counted here, while the service would fail.
- `urlparse` follows CPython 3.12. Older rules are not modelled, such as the
  one that read "host:80" as having no scheme. The query, fragment and
  parameter parts of the result are not modelled, because the service never
  reads them.
- PyStr.LowerChar: lower-casing is modelled on ASCII letters only. This
  cannot change the detected version, because every table key is ASCII. The
  only non-ASCII characters whose lower case contains ASCII are U+212A (to
  'k') and U+0130 (to 'i' followed by U+0307). The first cannot occur in a
  key (keys have no 'k'). The second adds a non-ASCII character, so it cannot
  complete a key. For the same reason, lower-casing that changes the length
  is not modelled.
- The `print` of the version string is left out.
- `scheme is ''` (and the other `is ''` tests) is modelled as string
  equality. CPython interns the empty string, so the two agree.
- `json.dumps` is an uninterpreted function parameter. The order of the keys
  in the output is not modelled, because dictionaries are maps.
- The `StrictRedis` client that app.py:95 opens on every request, on the
  same persistent database, is modelled as the single store that
  `MainHandler` holds. `Cache.CacheStore.constructor` only gives the empty
  database a model starts from; it models no line of app.py.
- The Redis connection, its host and port settings, and the use of bytes
  rather than text are not modelled. The clock is given in seconds as
  parameters: the second of the `GET` and, on a miss, the later second of
  the `SET`. An entry counts as expired from the second `SET + 86400` on.
- Cache.MainHandler.Get: `url` is the value `get_argument` returns, with
  U+0000 to U+0008 and U+000E to U+001F replaced by spaces (tab, LF, VT,
  FF and CR stay) and surrounding whitespace
  stripped. `Key` and `KeyInjective` are about that value, so query values
  that differ only in this way share a key. The cleaning itself is not
  modelled.
- Tornado is not modelled:
  - routing;
  - the `Content-Type` header;
  - `get_argument` answering 400 when `url` is missing;
  - `make_app` and the listening loop.
- Concurrency is not modelled. Between two requests, the `GET` and the `SET`
  are not atomic.
- Cache.RepeatWithinTtl: assumes that the serialisation is not empty.
  `json.dumps` of a dictionary never is, but `dumps` is a parameter here.
- `Cache.MainHandler.fetches` is a ghost record of the analyser's runs, kept
  for the proofs. It has no counterpart in the source.
