# Netflix genre scraper, modelled in Dafny

The scraper logs in to Netflix and walks a range of genre numbers. For each
number it fetches `/browse/genre/<n>`, reads the genre title off the page and
keeps it in a cache (a `shelve` file), so that a later run fetches only the
numbers it has not seen. It prints one report line per genre,
`* <title> ([#<n>](<url>))`. A second tool, `recover_cache`, reads such
report lines back into the cache.

This project models the parts of that program that make decisions:

- **The three HTML fragment parsers** (`text.dfy`, `html.dfy`,
  `capture_parser.dfy`, `form_parser.dfy`, `profile_parser.dfy`). Each one
  is a class whose per-event methods update its fields, as in the source. A
  pure `Step`/`Run` fold over the events specifies the class. Every handler
  is proved to move the object's state by exactly one `Step`, and `Feed`
  by exactly one `Run`. The lemmas are stated in terms of the fold:
  - in `CaptureParser`, nested tags never split a region, and one string
    is captured per return of the depth to 0;
  - in `FormParser`, form keys and field recording follow the source;
  - in `ProfileListParser`, one profile is recorded per closed link, and
    the parse fails on an anchor without `href`.
- **The navigation of `Scraper`** (`scraper.dfy`):
  - `is_login`;
  - `login_if_required`, which submits the first login form with the
    credentials, or raises, or falls through;
  - `choose_profile_if_required`;
  - `get` and `login`;
  - `genre_scan` with its cache.

  The network is an oracle, `server(history, request)`, which may fail.
  Each method is proved equal to a pure function of the request history
  (`LoginResult`, `ProfileResult`, `GetResult`). `GenreScan` is proved
  equal to `ScanFrom`, one `get` per uncached number in ascending order. It is
  proved to yield exactly the truthy cache entries of its range in ascending
  order. It is also proved to:
  - keep cached entries;
  - store the page title, or `None`, for each fetched number;
  - leave a failed number absent;
  - touch nothing outside the range.

  A second scan after one without errors sends no request and yields the
  same results.
- **Report recovery** (`recover.dfy`):
  - `GENRE_REGEX` is an explicit matcher that makes the same choices as
    the regular-expression engine, with `\d` read as the ASCII digits;
  - `recover_cache` is a loop over the lines that writes into the cache
    and counts the matches;
  - formatting a report line and matching it gives back the title, the
    digits and the URL, and every line that starts with a report line
    matches;
  - recovering a whole report puts every yielded genre back under its
    cache key.

Where the code and its description disagree, the model follows the code.
For example, the `form` tag's own `name` attribute is recorded as a field,
because `genrescrape.py:46` runs after line 43. A profile anchor whose
`href` is empty opens no link, because the test at line 72 is truthiness.

## Model

| member | source | states |
|---|---|---|
| CaptureParsing.Opens | genrescrape.py:126-136 | Definition: both parsers' `criteria(tag, attrs)`: the token is a word of the `class` attribute's `split()`, and the tag name plays no part. |
| CaptureParsing.Step | genrescrape.py:100-120 | Depth rules: a start tag inside a region goes one deeper. Outside a region, the depth becomes 1 exactly when the class token list holds the token. An end tag outside every region changes nothing, and so does text. Captures are only appended, and the accumulator is empty outside a region. |
| CaptureParsing.Run | genrescrape.py:100-120 | Definition of `feed`: one handler call per event, in order, from a given state. |
| CaptureParsing.RunShape | genrescrape.py:100-115 | After any event stream, the depth is the one the tags alone determine. Earlier captures are a prefix of the new ones. Exactly one string is appended per end tag that brings the depth from 1 to 0. |
| CaptureParsing.RunAppend | genrescrape.py:100-120 | Feeding `a + b` is feeding `a`, then `b`. |
| CaptureParsing.StaysInside | genrescrape.py:100-120 | While the depth stays at 1 or more, nothing is captured, the accumulator gains exactly the stream's text, and the depth moves by start tags minus end tags. |
| CaptureParsing.RegionCaptured | genrescrape.py:100-120 | From outside a region, an opening tag, a properly nested body and a closing tag append exactly one string, the body's whole text, and reset the accumulator and depth. |
| CaptureParsing.TwoRegions | genrescrape.py:100-120 | Two sibling regions, each an opening `div`, one text and a closing `div`, capture exactly their two texts, in document order. |
| CaptureParsing.NestedTitleExample | genrescrape.py:100-120 | `<div class="genreTitle"><span>A</span>B</div>` yields exactly `["AB"]`. |
| CaptureParsing.NoOpenerNoCapture | genrescrape.py:100-120 | Outside any region, a stream with no opening tag changes nothing, so its text is never captured. |
| CaptureParsing.OnlyClassAttribute | genrescrape.py:128 | A tag none of whose attributes is named `class` never opens a region, whatever its other attributes. |
| CaptureParsing.ClassTokenExact | genrescrape.py:128-136 | A one-token class opens a region exactly when it is the token itself, so `genreTitleX` does not open a `genreTitle` region. |
| CaptureParsing.ClassAmongTokens | genrescrape.py:136 | A class list of two parts opens a region exactly when either part's whitespace-separated words hold the token. |
| CaptureParsing.CaptureParser.ErrorMessage | genrescrape.py:123-128 | A fresh error-message parser: token `ui-message-error`, state reset. |
| CaptureParsing.CaptureParser.Title | genrescrape.py:131-136 | A fresh title parser: token `genreTitle`, state reset. |
| CaptureParsing.CaptureParser.Reset | genrescrape.py:94-98 | No captures, an empty accumulator and depth 0. |
| CaptureParsing.CaptureParser.HandleStartTag | genrescrape.py:100-107 | Updates the fields exactly as one `Step` on a start tag. |
| CaptureParsing.CaptureParser.HandleEndTag | genrescrape.py:109-115 | Updates the fields exactly as one `Step` on an end tag. |
| CaptureParsing.CaptureParser.HandleData | genrescrape.py:117-120 | Updates the fields exactly as one `Step` on text. |
| CaptureParsing.CaptureParser.Feed | genrescrape.py:100-120 | Feeding a stream is `Run` over it. |
| FormParsing.OpenForm | genrescrape.py:41-43 | The key is the `id`, or the number of forms so far when there is none. The form is stored with its attributes and no fields, and becomes current. An integer key is new and is appended to the insertion order. Exactly that one key is added. A key already present keeps its place in the insertion order, and a new one goes at its end. Every other form is kept. |
| FormParsing.AddField | genrescrape.py:46-48 | Inside a form, a tag with a `name` sets that field to its `value`, or `None` without one. The current form keeps its attributes and every other field, and gains no other field. Other forms, the keys, their order and the current key do not change. |
| FormParsing.Step | genrescrape.py:39-53 | Keeps the state well formed: keys distinct and in insertion order, the current form recorded, integer keys below the form count. Only `</form>` clears the current form, and text changes nothing. |
| FormParsing.Run | genrescrape.py:39-53 | Definition of `feed`: one handler call per event, in order; every state reached is well formed. |
| FormParsing.FormsOnlyGrow | genrescrape.py:39-53 | The insertion order only grows. |
| FormParsing.OutsideFormsNothingRecorded | genrescrape.py:46 | With no current form, a stream without a `form` start tag records nothing. |
| FormParsing.InsideFormFields | genrescrape.py:46-48 | Between a form's start and end tags, the current form's fields grow by exactly the named tags in between, the last of a name winning. No other form changes and neither does the current key. |
| FormParsing.IdFormExample | genrescrape.py:39-53 | `<form id="X"><input name="k" value="v"></form>` gives form `X` with the one field `k = v`, and then no current form. |
| FormParsing.AnonymousFormKeepsEarlier | genrescrape.py:42-43 | A form without an `id` takes the next integer key and overwrites no earlier form. |
| FormParsing.FormTagNamesItself | genrescrape.py:41-48 | A `form` tag carrying a `name` records itself as the first field of the form it opens. |
| FormParsing.FormParser.constructor | genrescrape.py:34-37 | A new parser is in the state `reset` establishes: no forms and no current form. |
| FormParsing.FormParser.Reset | genrescrape.py:34-37 | No forms and no current form. |
| FormParsing.FormParser.HandleStartTag | genrescrape.py:39-48 | Updates the fields exactly as one `Step` on a start tag, and keeps them well formed. |
| FormParsing.FormParser.HandleEndTag | genrescrape.py:50-53 | Updates the fields exactly as one `Step` on an end tag. |
| FormParsing.FormParser.Feed | genrescrape.py:39-53 | Feeding a stream is `Run` over it. |
| ProfileParsing.Pending | genrescrape.py:72-79 | Definition: a link is pending when `_current_link` is truthy, so a present but empty `href` counts as no link. |
| ProfileParsing.Step | genrescrape.py:65-80 | Fails exactly on a profile anchor without `href`. Profiles are only appended, exactly one per `</a>` that closes a pending link; that profile is the stripped name and the link, and both are then reset. Text is dropped while no link is pending. |
| ProfileParsing.Run | genrescrape.py:65-80 | Definition of `feed`: one handler call per event, in order, stopping at the first failure. |
| ProfileParsing.FailsOnMissingHref | genrescrape.py:68 | The parse of a stream fails exactly when some profile anchor in it lacks `href`. |
| ProfileParsing.ProfilesOnlyGrow | genrescrape.py:71-76 | Profiles are only appended, so they come out in document order. |
| ProfileParsing.NoLinkNoProfile | genrescrape.py:65-80 | A page with no `profile-link` anchor yields no profile and leaves the state unchanged. |
| ProfileParsing.InsideAnchor | genrescrape.py:78-80 | While a link is pending, the name accumulates exactly the text, and nothing else changes. |
| ProfileParsing.AnchorGivesProfile | genrescrape.py:65-80 | A profile anchor with a non-empty `href`, any inline content, then `</a>`, appends one profile: the stripped text and the `href`. It then resets link and name. |
| ProfileParsing.ProfileListParser.constructor | genrescrape.py:59-63 | A new parser is in the state `reset` establishes: no profiles, no link, an empty name. |
| ProfileParsing.ProfileListParser.Reset | genrescrape.py:59-63 | No profiles, no link, an empty name. |
| ProfileParsing.ProfileListParser.HandleStartTag | genrescrape.py:65-69 | Reports failure exactly where `Step` fails and leaves the state alone then; otherwise updates the fields exactly as `Step`. |
| ProfileParsing.ProfileListParser.HandleEndTag | genrescrape.py:71-76 | Updates the fields exactly as one `Step` on an end tag. |
| ProfileParsing.ProfileListParser.HandleData | genrescrape.py:78-80 | Updates the fields exactly as one `Step` on text. |
| ProfileParsing.ProfileListParser.Feed | genrescrape.py:65-80 | Succeeds exactly when `Run` does, and then leaves `Run`'s state. |
| Scraping.IsLoginIgnoresCase | genrescrape.py:157-159 | Whether a path is a login page does not depend on its case. |
| Scraping.IsLogin | genrescrape.py:157-159 | Definition: the URL's path, lower-cased, ends with the lower-cased login path. |
| Scraping.IsLoginForm | genrescrape.py:170 | Definition: the form has an `action` field whose value is `loginAction`. |
| Scraping.FindLoginForm | genrescrape.py:169-170 | The first form in insertion order whose `action` field is `loginAction`: it is one, and none before it is. |
| Scraping.LoginFormOf | genrescrape.py:165-170 | A page has a login form exactly when some parsed form has `action == 'loginAction'`. |
| Scraping.Payload | genrescrape.py:173-174 | `email` and `password` hold the credentials; every other field is kept with its value and no field is added. |
| Scraping.ErrorOf | genrescrape.py:178-181 | With two or more error messages on the page, the error is the second one, `strings[1]`. With fewer, it is the `IndexError`. |
| Scraping.SecondErrorIsRaised | genrescrape.py:178-181 | A page with two error boxes, a warning and then the complaint, raises the complaint. |
| Scraping.Matches | genrescrape.py:193 | Definition: no profile is configured, or the name equals it after lower-casing both. |
| Scraping.FindProfile | genrescrape.py:191-193 | The first profile whose name matches the configured one case-insensitively, or any profile when none is configured; no earlier one matches. |
| Scraping.FirstProfileByDefault | genrescrape.py:193 | Without a configured profile, the first profile is chosen. |
| Scraping.Names | genrescrape.py:190-192 | The profile names, in document order. |
| Scraping.TitleEntry | genrescrape.py:252-261 | A genre page's cache entry is `(first title, url)` exactly when it has a title, and `None` otherwise. |
| Scraping.Key | genrescrape.py:238 | Definition: the cache key of a number is `str(number)`. |
| Scraping.Entry | genrescrape.py:264-266 | Definition: a cached number gives the triple `(number,) + value` exactly when its entry is present and truthy, and nothing otherwise. |
| Scraping.GenrePath | genrescrape.py:245 | Definition: the path `/browse/genre/<str(number)>`. |
| Scraping.CachedResults | genrescrape.py:237 | Every yielded number lies in `[min, max)`. |
| Scraping.CachedResultsAscending | genrescrape.py:237 | Yields come out in strictly ascending order of number. |
| Scraping.CachedResultsAreEntries | genrescrape.py:255-266 | Every yield is `(n,)` followed by the truthy cache entry of `n`. |
| Scraping.CachedResultsFrame | genrescrape.py:237-261 | Keys outside the range do not affect the yields. |
| Scraping.CachedResultsAgree | genrescrape.py:262-266 | Two caches that agree on the range give the same yields. |
| Scraping.VisitResult | genrescrape.py:238-266 | The yield is the number's truthy entry in the new cache. A cached number changes nothing and sends nothing. An uncached one sends `get`'s requests and fails exactly when `get` raises. A failure leaves the cache alone, and a success stores the page's `TitleEntry`. |
| Scraping.ScanFrom | genrescrape.py:237-266 | Definition of the scan: one `VisitResult` per number, ascending, each from the cache and requests the previous one left, collecting yields and failed numbers. |
| Scraping.GenreCache.constructor | genrescrape.py:233 | A cache with no key stored, as a shelf file opened for the first time. |
| Scraping.Scraper.constructor | genrescrape.py:152-155 | Credentials and profile stored; no request sent yet. |
| Scraping.Scraper.Submission | genrescrape.py:172-175 | The login request: `KeyError` on a missing `action` attribute, then on `method`. Otherwise a request with the form's method, the resolved action URL and the payload. |
| Scraping.Scraper.AfterLogin | genrescrape.py:176-183 | A failed answer raises `HttpError`. An answer that is still the login page raises `ErrorOf` it. Any other answer is returned as it is. |
| Scraping.Scraper.Submit | genrescrape.py:172-183 | At most one request is sent, and it is the submission. A success is a page that is not the login page. A form without `action` or `method` raises Submission's `KeyError` and sends nothing. |
| Scraping.Scraper.LoginResult | genrescrape.py:161-183 | A non-login page passes through with no request. The result is `None` exactly on a login page without a login form. A sent request is the submission of the page's login form, and a successful result is never a login page. |
| Scraping.Scraper.ProfileResult | genrescrape.py:185-203 | At most one request is sent. |
| Scraping.Scraper.GetResult | genrescrape.py:205-214 | The first request is the GET of the resolved path, and at most two more follow. |
| Scraping.Scraper.LoginPassesThrough | genrescrape.py:162-163 | A page that is not a login page is returned unchanged, with no request. |
| Scraping.Scraper.LoginSubmitsFirstForm | genrescrape.py:161-183 | On a login page with a login form, the first login form is found and no earlier form is one. Without `action` it raises that `KeyError`, and then without `method` that one, in both cases sending nothing. When both are present, exactly its submission is sent and the answer decides the outcome. |
| Scraping.Scraper.ProfileChoice | genrescrape.py:185-203 | A profile anchor without `href` raises, with no request. With no profiles, the page is returned with no request. With profiles and no match, the error names the profile and every name in order. Otherwise exactly one request is sent, the GET of the first matching profile's resolved URL; its answer is returned, or `HttpError` raised when it fails. |
| Scraping.Scraper.GetComposes | genrescrape.py:205-214 | A failed fetch raises with only the GET sent. Otherwise login resolution runs on the page: its error is raised, a login page without a form raises the `AttributeError` of `None`, and the page it hands on goes through profile resolution. A page that is not the login page goes straight to profile resolution. |
| Scraping.Scraper.Send | genrescrape.py:175-176 | The oracle's answer, given the history; the request is appended to the history. |
| Scraping.Scraper.LoginIfRequired | genrescrape.py:161-183 | Outcome and requests sent are those of `LoginResult`. |
| Scraping.Scraper.SubmitLogin | genrescrape.py:172-183 | Outcome and requests sent are those of `Submit`. |
| Scraping.Scraper.ReadError | genrescrape.py:178-181 | The error is `ErrorOf` the page. |
| Scraping.Scraper.ChooseProfileIfRequired | genrescrape.py:185-203 | Outcome and requests sent are those of `ProfileResult`. |
| Scraping.Scraper.Get | genrescrape.py:205-214 | Outcome and requests sent are those of `GetResult`: fetch, then login resolution, then profile resolution. |
| Scraping.Scraper.Login | genrescrape.py:216-219 | `get` of the login path. |
| Scraping.Scraper.Visit | genrescrape.py:238-266 | A cached number yields its truthy entry, with no request and no cache change. A missing one is fetched with `get`. A failed fetch leaves the cache alone. A fetched page stores its `TitleEntry`. Yield, failure, new cache and requests are exactly `VisitResult` over `get`, and the page recorded is the one `get` returns. |
| Scraping.Scraper.GenreScan | genrescrape.py:221-266 | The yields are the range's truthy entries of the final cache, ascending. `fresh` clears the cache first. Keys outside the range keep their values, and cached numbers keep their entries. Each uncached number is fetched or skipped, never both: a fetched one stores its page's `TitleEntry` and a skipped one stays absent. With the whole range cached, no request is sent. Yields, skips, final cache and requests are exactly `ScanFrom` over `get` from `min` to `max`. |
| Scraping.Scraper.ScanNumbers | genrescrape.py:237-266 | The loop over `range(min, max)` keeps `ScanInv`. At its end the yields are the range's truthy cache entries in ascending order. Keys outside the range keep their values. Cached numbers keep their entries, and each uncached one is fetched or skipped. The requests only extend, none is sent when the whole range is cached, and yields, skips, cache and requests are those of `ScanFrom` over `get`. |
| Scraping.Scraper.RescanIsIdempotent | genrescrape.py:221-266 | After a scan without fetch errors, a second non-fresh scan sends no request and yields the same sequence. |
| Html.DictLastWins | genrescrape.py:40 | In `dict(attrs)`, the last occurrence of a name wins. |
| Html.Dict | genrescrape.py:40 | `dict(attrs)`: every attribute name is a key, and every entry is one of the attribute pairs. |
| Html.HasClass | genrescrape.py:128 | Definition: the token is one of the whitespace-separated words of the `class` attribute, `''` when it is absent. |
| Text.WordsOfJoin | genrescrape.py:128 | `split()` of two parts joined by a space is the words of each, in order. |
| Text.WordsAreWords | genrescrape.py:67 | `split()` yields only non-empty words without whitespace. |
| Text.Words | genrescrape.py:67 | Definition of `split()`: skip whitespace, take the longest run without whitespace, repeat. |
| Text.Strip | genrescrape.py:74 | `strip()`: the result is a slice of the input with only whitespace before and after it, and no whitespace at either of its own ends. It is empty exactly when the input is all whitespace. |
| Text.Lower | genrescrape.py:159 | Same length, each character lower-cased. |
| Text.LowerIdempotent | genrescrape.py:159 | Lower-casing twice is lower-casing once. |
| Text.IntToStringRoundTrip | genrescrape.py:238 | `str(n)` reads back as `n`. |
| Text.IntToStringInjective | genrescrape.py:238 | Distinct numbers have distinct cache keys. |
| Text.IntToString | genrescrape.py:238 | `str(n)` is never empty. |
| Text.PaddedIsNotIntToString | genrescrape.py:238 | A digit string with a leading zero is never `str(n)`. |
| Recover.Line | recover.py:15 | The part `.` can cover: the line up to its first newline. |
| Recover.Match | recover.py:27 | Definition of `GENRE_REGEX.match(line)`: the groups found on the part of the line before its first newline. |
| Recover.Groups | recover.py:15 | Definition: `* ` at the start, the URL up to the last `))`, the title up to the last header before it, the digits after that header. |
| Recover.LastCloseBelow | recover.py:15 | The last `))` before a position, with none after it. |
| Recover.DigitRun | recover.py:15 | The maximal run of digits from a position. |
| Recover.LastHeaderBelow | recover.py:15 | The last position where ` ([#`, digits and `](` can end the title group, with none after it. |
| Recover.MatchSound | recover.py:15-27 | A match is the report shape at the start of the line. Its digits are digits, and title and URL hold no newline. The URL ends at the last `))`, so it is greedy. |
| Recover.MatchComplete | recover.py:15-27 | Every line whose first line starts with a report line, digits and all, matches. The title group reaches at least as far as that report line's title, because `.*` is greedy. |
| Recover.MatchIsGreedy | recover.py:15 | Both `.*` groups are the longest possible: the URL group ends at the last `))` of the line, and the title group at the last position before it where ` ([#`, digits and `](` can follow. |
| Recover.ShapeRoundTrip | recover.py:15 | A report line, alone or followed by a newline, matches back to its three parts when they hold no newline, the digits are digits and the URL holds no ` ([#`. |
| Recover.FormatRoundTrip | genrescrape.py:300 | Formatting with the report line of genrescrape.py:300 and matching with `GENRE_REGEX` (recover.py:15): formatting `(title, n, url)` and matching the line, with or without its newline, gives back `title`, `str(n)` and `url`. |
| Recover.Shape | genrescrape.py:300 | Definition: the report format `'* {} ([#{}]({}))'` filled with three strings. |
| Recover.FormatLine | genrescrape.py:300 | Definition: the report line of a genre, with its number as `str(n)`. |
| Recover.AnchoredAtStart | recover.py:27 | A line that does not start with `* ` never matches. |
| Recover.MatchCount | recover.py:24-34 | At most one match per line. |
| Recover.MatchCountAppend | recover.py:26-34 | The count over two files read in turn is the sum of their counts. |
| Recover.Apply | recover.py:27-33 | Definition of one line: a match sets `cache[digits] = (title, url)`; any other line changes nothing. |
| Recover.Recovered | recover.py:21-36 | Definition: the cache after `Apply` of every line, in order. |
| Recover.RecoveredKeepsOthers | recover.py:25-33 | Entries no line writes are kept as they were, because the cache is not cleared. |
| Recover.RecoveredLastWins | recover.py:30-33 | The last matching line for a key decides its entry `(title, url)`, keyed by the digits exactly as written. |
| Recover.PaddedKeysAreNotScanned | recover.py:31-33 | A key with leading zeros, or empty, is never one a genre scan looks up. |
| Recover.ReportRecovers | recover.py:21-36 | Given a scan's yields in ascending order, with numbers of 0 or more, titles and URLs without newline, and URLs without ` ([#`: recovering their report (lines as at genrescrape.py:300) puts every yielded genre back under its own cache key, with its title and URL. |
| Recover.RecoverCache | recover.py:21-36 | The cache becomes `Recovered(old cache, lines)` and the count is the number of matching lines, duplicates included. |

## Left out

- HTTP: `requests.Session`, cookies, redirects and `raise_for_status` become the oracle `server(history, request)`. It returns the final URL, its path and the body as events, or `None` for any error.
- `urljoin` is the uninterpreted function `join`. `urlparse(url).path` is supplied by the oracle as the response's `path`.
- The HTML tokenizer (`html.parser.HTMLParser`) is not modelled: the parsers take a sequence of start-tag, end-tag and text events. Tag-name lower-casing, entities, `close()` and `feed` chunking are left out.
- Void tags are not special: a void tag such as `<br>` or `<input>` inside a capture region emits no end tag, so it leaves the depth raised, exactly as in the source.
- Valueless attributes, which the tokenizer gives as `None`, are left out; attribute values are strings.
- Text.Lower: ASCII lower-casing only, where Python's `str.lower` covers all of Unicode.
- Persistence: `shelve`, the cache file path and the `with` block are left out. The cache is the in-memory map `GenreCache.entries`. Errors other than `KeyError` on reading it are not modelled.
- Generator behaviour: `genre_scan` returns the whole sequence it would yield. Laziness and abandoning the generator early are not modelled.
- Logging: `log.warning` on a failed fetch is modelled by the `skipped` out-parameter of `GenreScan`. The pages fetched are recorded in a ghost map.
- The program shell is left out: `main` of both scripts, argparse, getpass and `input`, the report header and datetime footer, `print` and `KeyboardInterrupt`. Only the format of the report line (genrescrape.py:300) is modelled, as `Recover.FormatLine`.
- Recover.RecoverCache reads the file as a sequence of lines, each keeping its trailing newline if any.
- Recover.FormatRoundTrip: stated for non-negative genre numbers only. A negative number is printed with a `-`, which `\d*` does not match, so such a line is not recovered.
- Scraping.Scraper.ProfileResult and Scraping.Scraper.GetResult: their own contracts state only how many requests are sent. What they decide, case by case, is stated by the lemmas `ProfileChoice` and `GetComposes`, and the methods `ChooseProfileIfRequired` and `Get` are proved equal to them.
- Recover.DigitRun: `\d` is read as the ASCII digits `0`-`9`. On a `str` pattern Python's `\d` matches every Unicode decimal digit, such as `٢٨`, and that set depends on the Unicode database of the Python version. A report line whose number is written in such digits matches in the source but not in the model. The scanner itself only prints `str(n)`, which is ASCII.
