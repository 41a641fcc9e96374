/**
 * `Scraper`: fetching a page logs in when the site answers with its login
 * page and picks a profile when it answers with the "Who's Watching" list;
 * `genre_scan` walks a range of genre numbers through a cache of genre
 * pages already seen.
 *
 * The network is an oracle `server(history, request)`: given every request
 * sent so far (the session's cookies are a function of them) and the next
 * one, it answers with a response or `None` for a transport error or an
 * error status. URL resolution (`urljoin`) is the function `join`.
 */
module Scraping {
  import opened Text
  import opened Html
  import FormParsing
  import ProfileParsing
  import CaptureParsing

  const BaseUrl := "https://www.netflix.com/"
  const LoginPath := "/login"
  /** The `action` field value of the sign-in form. */
  const LoginAction := "loginAction"
  const GenrePathPrefix := "/browse/genre/"

  /** A reply: its final URL, the path part of that URL, and its body as parser events. */
  datatype Response = Response(url: string, path: string, events: seq<Event>)

  /** A request: its method, its absolute URL and its form data (empty for a plain GET). */
  datatype Request = Request(verb: string, url: string, data: map<string, Option<string>>)

  /** The exceptions the navigation code raises or lets through. */
  datatype Error =
    | HttpError                      // transport error or `raise_for_status`
    | AuthFailed(message: string)    // `RuntimeError(error_parser.strings[1])`
    | ErrorIndexMissing              // `IndexError`: fewer than two error messages on the page
    | FormAttrMissing(attr: string)  // `KeyError` on `form['attrs'][attr]`
    | HrefMissing                    // `KeyError` in `ProfileListParser`: profile anchor without `href`
    | NoLoginForm                    // `AttributeError`: `None` handed on by `login_if_required`
    | ProfileNotFound(profile: Option<string>, names: seq<string>)  // `ValueError`

  datatype Outcome<T> = Ok(value: T) | Raise(error: Error)

  /** `is_login`: the path ends with `/login`, ignoring case. */
  predicate IsLogin(path: string) {
    EndsWith(Lower(path), Lower(LoginPath))
  }

  /** Two paths that differ only in case are both login pages or neither. */
  lemma IsLoginIgnoresCase(a: string, b: string)
    requires Lower(a) == Lower(b)
    ensures IsLogin(a) == IsLogin(b)
  {
  }

  /** `form['fields'].get('action') == 'loginAction'`. */
  predicate IsLoginForm(f: FormParsing.Form) {
    "action" in f.fields && f.fields["action"] == Some(LoginAction)
  }

  /** The position, in insertion order, of the first login form at or after `i`. */
  function FindLoginForm(order: seq<FormParsing.FormKey>, forms: map<FormParsing.FormKey, FormParsing.Form>, i: nat)
    : (r: Option<nat>)
    requires i <= |order|
    requires forall j :: 0 <= j < |order| ==> order[j] in forms
    ensures r.Some? ==> i <= r.value < |order| && IsLoginForm(forms[order[r.value]])
    ensures forall j :: i <= j < (if r.Some? then r.value else |order|) ==> !IsLoginForm(forms[order[j]])
    decreases |order| - i
  {
    if i == |order| then None
    else if IsLoginForm(forms[order[i]]) then Some(i)
    else FindLoginForm(order, forms, i + 1)
  }

  /** `dict(form['fields'])` updated with the credentials. */
  function Payload(fields: map<string, Option<string>>, email: string, password: string)
    : (d: map<string, Option<string>>)
    ensures "email" in d && d["email"] == Some(email)
    ensures "password" in d && d["password"] == Some(password)
    ensures forall k :: k != "email" && k != "password" ==> (k in d <==> k in fields)
    ensures forall k :: k in fields && k != "email" && k != "password" ==> d[k] == fields[k]
  {
    fields["email" := Some(email)]["password" := Some(password)]
  }

  /** The error a page that is still the login page reports: its second error message. */
  function ErrorOf(r: Response): (e: Error)
    ensures var messages := CaptureParsing.Run(CaptureParsing.ErrorToken, CaptureParsing.Init, r.events).strings;
            && (|messages| > 1 ==> e == AuthFailed(messages[1]))
            && (|messages| <= 1 ==> e == ErrorIndexMissing)
  {
    var messages := CaptureParsing.Run(CaptureParsing.ErrorToken, CaptureParsing.Init, r.events).strings;
    if |messages| > 1 then AuthFailed(messages[1]) else ErrorIndexMissing
  }

  /**
   * A rejected login page with two error boxes, the first a scripting
   * warning and the second the actual complaint, raises the second.
   */
  lemma SecondErrorIsRaised(r: Response, a1: seq<Attr>, a2: seq<Attr>, warning: string, message: string)
    requires CaptureParsing.Opens(CaptureParsing.ErrorToken, a1) && CaptureParsing.Opens(CaptureParsing.ErrorToken, a2)
    requires r.events == CaptureParsing.DivWith(a1, warning) + CaptureParsing.DivWith(a2, message)
    ensures ErrorOf(r) == AuthFailed(message)
  {
    CaptureParsing.TwoRegions(CaptureParsing.ErrorToken, a1, a2, warning, message);
  }

  /** `name.lower() == self.profile.lower()`, or any name when no profile is configured. */
  predicate Matches(profile: Option<string>, name: string) {
    profile.None? || Lower(name) == Lower(profile.value)
  }

  /** The position of the first profile at or after `i` whose name matches. */
  function FindProfile(profile: Option<string>, profiles: seq<(string, string)>, i: nat): (r: Option<nat>)
    requires i <= |profiles|
    ensures r.Some? ==> i <= r.value < |profiles| && Matches(profile, profiles[r.value].0)
    ensures forall j :: i <= j < (if r.Some? then r.value else |profiles|) ==> !Matches(profile, profiles[j].0)
    decreases |profiles| - i
  {
    if i == |profiles| then None
    else if Matches(profile, profiles[i].0) then Some(i)
    else FindProfile(profile, profiles, i + 1)
  }

  /** Profile `i` matches and none before it does. */
  predicate FirstMatch(profile: Option<string>, profiles: seq<(string, string)>, i: int) {
    && 0 <= i < |profiles| && Matches(profile, profiles[i].0)
    && forall j :: 0 <= j < i ==> !Matches(profile, profiles[j].0)
  }

  /** Without a configured profile, the first profile listed is chosen. */
  lemma FirstProfileByDefault(profiles: seq<(string, string)>)
    requires profiles != []
    ensures FindProfile(None, profiles, 0) == Some(0)
  {
  }

  /** The profile names, in document order. */
  function Names(profiles: seq<(string, string)>): (r: seq<string>)
    ensures |r| == |profiles|
    ensures forall i :: 0 <= i < |profiles| ==> r[i] == profiles[i].0
  {
    if profiles == [] then [] else [profiles[0].0] + Names(profiles[1..])
  }

  /** The cache entry a genre page gives: its first title and its URL, or `None` without a title. */
  function TitleEntry(r: Response): (v: Option<(string, string)>)
    ensures var titles := CaptureParsing.Run(CaptureParsing.TitleToken, CaptureParsing.Init, r.events).strings;
            (v.Some? <==> titles != []) && (v.Some? ==> v.value == (titles[0], r.url))
  {
    var titles := CaptureParsing.Run(CaptureParsing.TitleToken, CaptureParsing.Init, r.events).strings;
    if |titles| > 0 then Some((titles[0], r.url)) else None
  }

  /** `'/browse/genre/{}'.format(number)`. */
  function GenrePath(n: int): string {
    GenrePathPrefix + IntToString(n)
  }

  /** The login form of a page, in insertion order, as the form parser builds it. */
  function LoginFormOf(r: Response): (f: Option<FormParsing.Form>)
    ensures var s := FormParsing.Run(FormParsing.Init, r.events);
            f.Some? <==> exists k :: k in s.order && IsLoginForm(s.forms[k])
  {
    var s := FormParsing.Run(FormParsing.Init, r.events);
    match FindLoginForm(s.order, s.forms, 0)
    case None => None
    case Some(i) => Some(s.forms[s.order[i]])
  }

  /** The cache key of a genre number: `str(number)`. */
  function Key(n: int): string {
    IntToString(n)
  }

  /** `k` is the key of some number of `[lo, hi)`. */
  predicate Scanned(k: string, lo: int, hi: int) {
    exists n :: lo <= n < hi && Key(n) == k
  }

  /** What the generator yields for number `n` given the cache: its entry if truthy. */
  function Entry(m: map<string, Option<(string, string)>>, n: int): seq<(int, string, string)> {
    if Key(n) in m && m[Key(n)].Some? then [(n, m[Key(n)].value.0, m[Key(n)].value.1)] else []
  }

  /** The yields of a scan of `[lo, hi)` whose cache ends as `m`, in ascending order of number. */
  function CachedResults(m: map<string, Option<(string, string)>>, lo: int, hi: int)
    : (r: seq<(int, string, string)>)
    ensures forall i :: 0 <= i < |r| ==> lo <= r[i].0 < hi
    decreases hi - lo
  {
    if hi <= lo then [] else CachedResults(m, lo, hi - 1) + Entry(m, hi - 1)
  }

  predicate Ascending(r: seq<(int, string, string)>) {
    forall i, j :: 0 <= i < j < |r| ==> r[i].0 < r[j].0
  }

  /** Every triple is the truthy cache entry of its number. */
  predicate AllEntries(m: map<string, Option<(string, string)>>, r: seq<(int, string, string)>) {
    forall i :: 0 <= i < |r| ==> Key(r[i].0) in m && m[Key(r[i].0)] == Some((r[i].1, r[i].2))
  }

  /** The yields come out in strictly ascending order of genre number. */
  lemma {:induction false} CachedResultsAscending(m: map<string, Option<(string, string)>>, lo: int, hi: int)
    ensures Ascending(CachedResults(m, lo, hi))
    decreases hi - lo
  {
    if hi > lo {
      CachedResultsAscending(m, lo, hi - 1);
      EntryOf(m, hi - 1);
      AscendingAppend(CachedResults(m, lo, hi - 1), Entry(m, hi - 1), hi - 1);
    }
  }

  lemma EntryOf(m: map<string, Option<(string, string)>>, n: int)
    ensures |Entry(m, n)| <= 1 && forall i :: 0 <= i < |Entry(m, n)| ==> Entry(m, n)[i].0 == n
  {
  }

  lemma AscendingAppend(p: seq<(int, string, string)>, e: seq<(int, string, string)>, b: int)
    requires Ascending(p) && |e| <= 1
    requires forall i :: 0 <= i < |p| ==> p[i].0 < b
    requires forall i :: 0 <= i < |e| ==> e[i].0 == b
    ensures Ascending(p + e)
  {
    var r := p + e;
    forall i, j | 0 <= i < j < |r|
      ensures r[i].0 < r[j].0
    {
      if j >= |p| {
        assert r[j] == e[j - |p|] && r[i] == p[i];
      } else {
        assert r[i] == p[i] && r[j] == p[j];
      }
    }
  }

  /** A yielded triple is exactly a truthy cache entry of its number. */
  lemma {:induction false} CachedResultsAreEntries(m: map<string, Option<(string, string)>>, lo: int, hi: int)
    ensures AllEntries(m, CachedResults(m, lo, hi))
    decreases hi - lo
  {
    if hi > lo {
      var p := CachedResults(m, lo, hi - 1);
      var e := Entry(m, hi - 1);
      CachedResultsAreEntries(m, lo, hi - 1);
      var r := p + e;
      forall i | 0 <= i < |r|
        ensures Key(r[i].0) in m && m[Key(r[i].0)] == Some((r[i].1, r[i].2))
      {
        if i < |p| {
          assert r[i] == p[i];
        } else {
          var v := m[Key(hi - 1)].value;
          assert e == [(hi - 1, v.0, v.1)];
          assert r[i] == e[0];
        }
      }
    }
  }

  /** Entries for keys outside the range do not change the yields. */
  lemma {:induction false} CachedResultsFrame(m: map<string, Option<(string, string)>>, lo: int, hi: int,
                                              k: string, v: Option<(string, string)>)
    requires !Scanned(k, lo, hi)
    ensures CachedResults(m[k := v], lo, hi) == CachedResults(m, lo, hi)
    decreases hi - lo
  {
    if hi > lo {
      assert Key(hi - 1) != k;
      assert Entry(m[k := v], hi - 1) == Entry(m, hi - 1);
      CachedResultsFrame(m, lo, hi - 1, k, v);
    }
  }

  /** Two caches that agree on every key of the range give the same yields. */
  lemma {:induction false} CachedResultsAgree(m1: map<string, Option<(string, string)>>,
                                              m2: map<string, Option<(string, string)>>, lo: int, hi: int)
    requires forall n :: lo <= n < hi ==> Key(n) in m1 && Key(n) in m2 && m1[Key(n)] == m2[Key(n)]
    ensures CachedResults(m1, lo, hi) == CachedResults(m2, lo, hi)
    decreases hi - lo
  {
    if hi > lo {
      assert Entry(m1, hi - 1) == Entry(m2, hi - 1);
      CachedResultsAgree(m1, m2, lo, hi - 1);
    }
  }

  /** The cache a scan starts from: emptied first when `fresh` is set. */
  function Base(refresh: bool, m: map<string, Option<(string, string)>>): map<string, Option<(string, string)>> {
    if refresh then map[] else m
  }

  lemma KeysDiffer(lo: int, n: int)
    ensures forall j :: lo <= j < n ==> Key(j) != Key(n)
  {
    forall j | lo <= j < n
      ensures Key(j) != Key(n)
    {
      IntToStringInjective(j, n);
    }
  }

  /** Keys outside `[lo, n)` hold what the scan started from. */
  ghost predicate Outside(base: map<string, Option<(string, string)>>, m: map<string, Option<(string, string)>>,
                          lo: int, n: int) {
    forall k :: !Scanned(k, lo, n) ==> (k in m <==> k in base) && (k in m ==> m[k] == base[k])
  }

  /** Numbers of `[lo, n)` found in the starting cache keep their entry. */
  ghost predicate Hits(base: map<string, Option<(string, string)>>, m: map<string, Option<(string, string)>>,
                       lo: int, n: int) {
    forall j :: lo <= j < n && Key(j) in base ==> Key(j) in m && m[Key(j)] == base[Key(j)]
  }

  /**
   * Numbers of `[lo, n)` missing from the starting cache were either
   * fetched (`pages`, and their entry is the page's title entry) or are
   * `skipped` (and still missing), in ascending order.
   */
  ghost predicate Misses(base: map<string, Option<(string, string)>>, m: map<string, Option<(string, string)>>,
                         lo: int, n: int, skipped: seq<int>, pages: map<int, Response>) {
    && (forall j :: lo <= j < n && Key(j) !in base ==> (j in pages <==> j !in skipped))
    && (forall j :: j in pages ==>
          && lo <= j < n && Key(j) !in base
          && Key(j) in m && m[Key(j)] == TitleEntry(pages[j]))
    && (forall i :: 0 <= i < |skipped| ==>
          lo <= skipped[i] < n && Key(skipped[i]) !in base && Key(skipped[i]) !in m)
    && (forall i, j :: 0 <= i < j < |skipped| ==> skipped[i] < skipped[j])
  }

  /** What visiting number `n` may do: keep a hit, record a failure, or store a fetched page. */
  ghost predicate VisitStep(m: map<string, Option<(string, string)>>, m': map<string, Option<(string, string)>>,
                            n: int, skipped: seq<int>, skipped': seq<int>,
                            pages: map<int, Response>, pages': map<int, Response>) {
    || (Key(n) in m && m' == m && skipped' == skipped && pages' == pages)
    || (Key(n) !in m && m' == m && skipped' == skipped + [n] && pages' == pages)
    || (exists p :: Key(n) !in m && m' == m[Key(n) := TitleEntry(p)] && skipped' == skipped && pages' == pages[n := p])
  }

  lemma StepOutside(base: map<string, Option<(string, string)>>, m: map<string, Option<(string, string)>>,
                    m': map<string, Option<(string, string)>>, lo: int, n: int)
    requires lo <= n && Outside(base, m, lo, n)
    requires forall k :: k != Key(n) ==> (k in m' <==> k in m) && (k in m ==> m'[k] == m[k])
    ensures Outside(base, m', lo, n + 1)
  {
    forall k | !Scanned(k, lo, n + 1)
      ensures (k in m' <==> k in base) && (k in m' ==> m'[k] == base[k])
    {
      assert k != Key(n);
      assert !Scanned(k, lo, n);
    }
  }

  /** Visiting `n` changes no entry but that of `n`, and none that was cached. */
  lemma StepFrame(m: map<string, Option<(string, string)>>, m': map<string, Option<(string, string)>>,
                  n: int, skipped: seq<int>, skipped': seq<int>,
                  pages: map<int, Response>, pages': map<int, Response>)
    requires VisitStep(m, m', n, skipped, skipped', pages, pages')
    ensures forall k :: k != Key(n) ==> (k in m' <==> k in m) && (k in m ==> m'[k] == m[k])
    ensures Key(n) in m ==> m' == m
  {
  }

  lemma StepHits(base: map<string, Option<(string, string)>>, m: map<string, Option<(string, string)>>,
                 m': map<string, Option<(string, string)>>, lo: int, n: int)
    requires Hits(base, m, lo, n) && (Key(n) in base <==> Key(n) in m)
    requires Key(n) in base ==> m[Key(n)] == base[Key(n)]
    requires forall k :: k != Key(n) ==> (k in m' <==> k in m) && (k in m ==> m'[k] == m[k])
    requires Key(n) in m ==> m' == m
    ensures Hits(base, m', lo, n + 1)
  {
    KeysDiffer(lo, n);
  }

  lemma StepMisses(base: map<string, Option<(string, string)>>, m: map<string, Option<(string, string)>>,
                   m': map<string, Option<(string, string)>>, lo: int, n: int, skipped: seq<int>, skipped': seq<int>,
                   pages: map<int, Response>, pages': map<int, Response>)
    requires lo <= n && Misses(base, m, lo, n, skipped, pages) && (Key(n) in base <==> Key(n) in m)
    requires VisitStep(m, m', n, skipped, skipped', pages, pages')
    ensures Misses(base, m', lo, n + 1, skipped', pages')
  {
    if Key(n) in m {
      MissesHit(base, m, lo, n, skipped, pages);
    } else if m' == m && skipped' == skipped + [n] && pages' == pages {
      MissesFail(base, m, lo, n, skipped, pages);
    } else {
      var p :| m' == m[Key(n) := TitleEntry(p)] && skipped' == skipped && pages' == pages[n := p];
      MissesFetch(base, m, lo, n, skipped, pages, p);
    }
  }

  lemma MissesHit(base: map<string, Option<(string, string)>>, m: map<string, Option<(string, string)>>,
                  lo: int, n: int, skipped: seq<int>, pages: map<int, Response>)
    requires Misses(base, m, lo, n, skipped, pages) && Key(n) in base
    ensures Misses(base, m, lo, n + 1, skipped, pages)
  {
  }

  lemma MissesFail(base: map<string, Option<(string, string)>>, m: map<string, Option<(string, string)>>,
                   lo: int, n: int, skipped: seq<int>, pages: map<int, Response>)
    requires lo <= n && Misses(base, m, lo, n, skipped, pages) && Key(n) !in base && Key(n) !in m
    ensures Misses(base, m, lo, n + 1, skipped + [n], pages)
  {
    var s := skipped + [n];
    assert forall i :: 0 <= i < |skipped| ==> s[i] == skipped[i];
    assert n !in pages;
    forall j | lo <= j < n + 1 && Key(j) !in base
      ensures j in pages <==> j !in s
    {
      assert j in s <==> j in skipped || j == n;
    }
  }

  lemma MissesFetch(base: map<string, Option<(string, string)>>, m: map<string, Option<(string, string)>>,
                    lo: int, n: int, skipped: seq<int>, pages: map<int, Response>, p: Response)
    requires lo <= n && Misses(base, m, lo, n, skipped, pages) && Key(n) !in base
    ensures Misses(base, m[Key(n) := TitleEntry(p)], lo, n + 1, skipped, pages[n := p])
  {
    KeysDiffer(lo, n);
    assert n !in skipped;
  }

  lemma ScanStep(base: map<string, Option<(string, string)>>,
                 m: map<string, Option<(string, string)>>, m': map<string, Option<(string, string)>>,
                 lo: int, n: int, skipped: seq<int>, skipped': seq<int>,
                 pages: map<int, Response>, pages': map<int, Response>)
    requires lo <= n
    requires Outside(base, m, lo, n) && Hits(base, m, lo, n) && Misses(base, m, lo, n, skipped, pages)
    requires VisitStep(m, m', n, skipped, skipped', pages, pages')
    ensures Outside(base, m', lo, n + 1) && Hits(base, m', lo, n + 1) && Misses(base, m', lo, n + 1, skipped', pages')
    ensures Key(n) in base <==> Key(n) in m
  {
    KeysDiffer(lo, n);
    assert !Scanned(Key(n), lo, n);
    StepFrame(m, m', n, skipped, skipped', pages, pages');
    StepOutside(base, m, m', lo, n);
    StepHits(base, m, m', lo, n);
    StepMisses(base, m, m', lo, n, skipped, skipped', pages, pages');
  }

  /**
   * The loop invariants at the end of the scan, which stops at `max` or,
   * for an empty range, at `lo`, stated for `[lo, max)`.
   */
  lemma ScanRange(base: map<string, Option<(string, string)>>, m: map<string, Option<(string, string)>>,
                  lo: int, hi: int, max: int, skipped: seq<int>, pages: map<int, Response>)
    requires hi == if max < lo then lo else max
    requires Outside(base, m, lo, hi) && Hits(base, m, lo, hi) && Misses(base, m, lo, hi, skipped, pages)
    ensures CachedResults(m, lo, hi) == CachedResults(m, lo, max)
    ensures forall k :: !Scanned(k, lo, max) ==> (k in m <==> k in base) && (k in m ==> m[k] == base[k])
    ensures forall n :: lo <= n < max && Key(n) in base ==> Key(n) in m && m[Key(n)] == base[Key(n)]
    ensures forall n :: lo <= n < max && Key(n) !in base ==> (n in pages <==> n !in skipped)
    ensures forall n :: n in pages ==>
              && lo <= n < max && Key(n) !in base
              && Key(n) in m && m[Key(n)] == TitleEntry(pages[n])
    ensures forall i :: 0 <= i < |skipped| ==>
              && lo <= skipped[i] < max && Key(skipped[i]) !in base
              && Key(skipped[i]) !in m
    ensures forall i, j :: 0 <= i < j < |skipped| ==> skipped[i] < skipped[j]
  {
    if max < lo {
      assert forall k :: !Scanned(k, lo, hi) && !Scanned(k, lo, max);
    }
  }

  /** The fetch of one page by its path after the requests `h`: its outcome and the requests sent by then. */
  type Fetch = (seq<Request>, string) -> (Outcome<Response>, seq<Request>)

  /**
   * One number of `genre_scan` after the requests `h` with cache `m`:
   * what it yields, whether its fetch raised, the new cache and the
   * requests sent by then.
   */
  function VisitResult(fetch: Fetch, h: seq<Request>, m: map<string, Option<(string, string)>>, n: int)
    : (v: (seq<(int, string, string)>, bool, map<string, Option<(string, string)>>, seq<Request>))
    ensures v.0 == Entry(v.2, n)
    ensures Key(n) in m ==> v.1 == false && v.2 == m && v.3 == h
    ensures Key(n) !in m ==> v.3 == fetch(h, GenrePath(n)).1 && (v.1 <==> fetch(h, GenrePath(n)).0.Raise?)
    ensures Key(n) !in m && v.1 ==> v.2 == m
    ensures Key(n) !in m && !v.1 ==> v.2 == m[Key(n) := TitleEntry(fetch(h, GenrePath(n)).0.value)]
  {
    if Key(n) in m then (Entry(m, n), false, m, h)
    else
      var (o, h') := fetch(h, GenrePath(n));
      match o
      case Raise(_) => ([], true, m, h')
      case Ok(page) =>
        var m' := m[Key(n) := TitleEntry(page)];
        (Entry(m', n), false, m', h')
  }

  /**
   * `genre_scan` over `[n, hi)` after the requests `h` with cache `m`,
   * one number after the other: the yields, the numbers whose fetch
   * raised, the final cache and the requests sent.
   */
  function ScanFrom(fetch: Fetch, h: seq<Request>, m: map<string, Option<(string, string)>>, n: int, hi: int)
    : (r: (seq<(int, string, string)>, seq<int>, map<string, Option<(string, string)>>, seq<Request>))
    decreases hi - n
  {
    if hi <= n then ([], [], m, h)
    else
      var v := VisitResult(fetch, h, m, n);
      var r := ScanFrom(fetch, v.3, v.2, n + 1, hi);
      (v.0 + r.0, (if v.1 then [n] else []) + r.1, r.2, r.3)
  }

  /**
   * After the numbers before `n`, the yields and skips so far followed by
   * those of the rest of the scan are those of the whole scan.
   */
  ghost predicate Traced(fetch: Fetch, h0: seq<Request>, base: map<string, Option<(string, string)>>, lo: int, hi: int,
                         done: seq<(int, string, string)>, skipped: seq<int>,
                         m: map<string, Option<(string, string)>>, h: seq<Request>, n: int)
  {
    var r := ScanFrom(fetch, h, m, n, hi);
    (done + r.0, skipped + r.1, r.2, r.3) == ScanFrom(fetch, h0, base, lo, hi)
  }

  /** One visited number moves from the rest of the scan to what is done. */
  lemma TraceStep(fetch: Fetch, h0: seq<Request>, base: map<string, Option<(string, string)>>, lo: int, hi: int,
                  done: seq<(int, string, string)>, skipped: seq<int>,
                  m: map<string, Option<(string, string)>>, h: seq<Request>, n: int,
                  item: seq<(int, string, string)>, failed: bool,
                  m': map<string, Option<(string, string)>>, h': seq<Request>)
    requires n < hi && Traced(fetch, h0, base, lo, hi, done, skipped, m, h, n)
    requires (item, failed, m', h') == VisitResult(fetch, h, m, n)
    ensures Traced(fetch, h0, base, lo, hi, done + item, skipped + (if failed then [n] else []), m', h', n + 1)
  {
    var r' := ScanFrom(fetch, h', m', n + 1, hi);
    assert done + (item + r'.0) == (done + item) + r'.0;
    var f := if failed then [n] else [];
    assert skipped + (f + r'.1) == (skipped + f) + r'.1;
  }

  /**
   * The invariant of the loop of `genre_scan` after the numbers `[lo, n)`
   * of `[lo, hi)`: the yields so far, which keys changed and how, the
   * requests sent, and the rest of the scan.
   */
  ghost predicate ScanInv(fetch: Fetch, h0: seq<Request>, base: map<string, Option<(string, string)>>, lo: int, hi: int, n: int,
                          results: seq<(int, string, string)>, skipped: seq<int>, pages: map<int, Response>,
                          m: map<string, Option<(string, string)>>, h: seq<Request>)
  {
    && lo <= n <= hi
    && results == CachedResults(m, lo, n)
    && Outside(base, m, lo, n) && Hits(base, m, lo, n) && Misses(base, m, lo, n, skipped, pages)
    && h0 <= h
    && ((forall j :: lo <= j < n ==> Key(j) in base) ==> h == h0)
    && Traced(fetch, h0, base, lo, hi, results, skipped, m, h, n)
  }

  lemma ScanInvInit(fetch: Fetch, h0: seq<Request>, base: map<string, Option<(string, string)>>, lo: int, hi: int)
    requires lo <= hi
    ensures ScanInv(fetch, h0, base, lo, hi, lo, [], [], map[], base, h0)
  {
    var all := ScanFrom(fetch, h0, base, lo, hi);
    assert [] + all.0 == all.0 && [] + all.1 == all.1;
  }

  /** At the end of the range the invariant gives the whole scan. */
  lemma ScanInvDone(fetch: Fetch, h0: seq<Request>, base: map<string, Option<(string, string)>>, lo: int, hi: int,
                    results: seq<(int, string, string)>, skipped: seq<int>, pages: map<int, Response>,
                    m: map<string, Option<(string, string)>>, h: seq<Request>)
    requires ScanInv(fetch, h0, base, lo, hi, hi, results, skipped, pages, m, h)
    ensures (results, skipped, m, h) == ScanFrom(fetch, h0, base, lo, hi)
  {
    assert results + [] == results && skipped + [] == skipped;
  }

  /** Visiting `n`, as `Visit` does, keeps the invariant of the loop. */
  lemma ScanInvStep(fetch: Fetch, h0: seq<Request>, base: map<string, Option<(string, string)>>, lo: int, hi: int, n: int,
                    results: seq<(int, string, string)>, skipped: seq<int>, pages: map<int, Response>,
                    m: map<string, Option<(string, string)>>, h: seq<Request>,
                    item: seq<(int, string, string)>, failed: bool, page: Option<Response>,
                    m': map<string, Option<(string, string)>>, h': seq<Request>)
    requires n < hi && ScanInv(fetch, h0, base, lo, hi, n, results, skipped, pages, m, h)
    requires (item, failed, m', h') == VisitResult(fetch, h, m, n) && h <= h'
    requires Key(n) in m ==> page.None?
    requires Key(n) !in m ==> (failed <==> page.None?)
    requires page.Some? ==> m' == m[Key(n) := TitleEntry(page.value)]
    ensures ScanInv(fetch, h0, base, lo, hi, n + 1, results + item, if failed then skipped + [n] else skipped,
                    if page.Some? then pages[n := page.value] else pages, m', h')
  {
    var skipped' := if failed then skipped + [n] else skipped;
    var pages' := if page.Some? then pages[n := page.value] else pages;
    TraceStep(fetch, h0, base, lo, hi, results, skipped, m, h, n, item, failed, m', h');
    if !failed {
      assert skipped + [] == skipped;
    }
    assert VisitStep(m, m', n, skipped, skipped', pages, pages') by {
      if page.Some? {
        assert m' == m[Key(n) := TitleEntry(page.value)];
      }
    }
    ScanStep(base, m, m', lo, n, skipped, skipped', pages, pages');
    if page.Some? {
      KeysDiffer(lo, n);
      CachedResultsFrame(m, lo, n, Key(n), TitleEntry(page.value));
    }
  }

  /** The shelve cache of genre pages: genre number as a string to `(title, url)` or `None`. */
  class GenreCache {
    var entries: map<string, Option<(string, string)>>

    constructor ()
      ensures entries == map[]
    {
      entries := map[];
    }
  }

  class Scraper {
    const email: string
    const password: string
    const profile: Option<string>
    const server: (seq<Request>, Request) -> Option<Response>
    const join: (string, string) -> string
    /** Every request the session has sent, in order. */
    var sent: seq<Request>

    constructor (email: string, password: string, profile: Option<string>,
                 server: (seq<Request>, Request) -> Option<Response>, join: (string, string) -> string)
      ensures this.email == email && this.password == password && this.profile == profile
      ensures this.server == server && this.join == join && sent == []
    {
      this.email, this.password, this.profile := email, password, profile;
      this.server, this.join := server, join;
      sent := [];
    }

    /** The request that submits a login form: `KeyError` on a missing `action`, then on `method`. */
    function Submission(r: Response, f: FormParsing.Form): (q: Outcome<Request>)
      ensures q.Ok? <==> "action" in f.attrs && "method" in f.attrs
      ensures "action" !in f.attrs ==> q == Raise(FormAttrMissing("action"))
      ensures "action" in f.attrs && "method" !in f.attrs ==> q == Raise(FormAttrMissing("method"))
      ensures q.Ok? ==> q.value.verb == f.attrs["method"] && q.value.url == join(r.url, f.attrs["action"])
                        && q.value.data == Payload(f.fields, email, password)
    {
      if "action" !in f.attrs then Raise(FormAttrMissing("action"))
      else if "method" !in f.attrs then Raise(FormAttrMissing("method"))
      else Ok(Request(f.attrs["method"], join(r.url, f.attrs["action"]), Payload(f.fields, email, password)))
    }

    /** The answer to the login form: a page that is still the login page raises its error. */
    function AfterLogin(reply: Option<Response>): (o: Outcome<Option<Response>>)
      ensures o.Ok? ==> reply.Some? && o.value == reply && !IsLogin(reply.value.path)
      ensures reply.None? ==> o == Raise(HttpError)
      ensures reply.Some? && !IsLogin(reply.value.path) ==> o == Ok(reply)
      ensures reply.Some? && IsLogin(reply.value.path) ==> o == Raise(ErrorOf(reply.value))
    {
      match reply
      case None => Raise(HttpError)
      case Some(r) => if IsLogin(r.path) then Raise(ErrorOf(r)) else Ok(Some(r))
    }

    /**
     * `login_if_required` after the requests `h`: its outcome and the
     * requests sent by then.
     */
    function LoginResult(h: seq<Request>, r: Response): (res: (Outcome<Option<Response>>, seq<Request>))
      ensures h <= res.1 && |res.1| <= |h| + 1
      ensures !IsLogin(r.path) ==> res == (Ok(Some(r)), h)
      ensures res.0.Ok? && res.0.value.Some? ==> !IsLogin(res.0.value.value.path)
      ensures res.0 == Ok(None) <==> IsLogin(r.path) && LoginFormOf(r).None?
      ensures |res.1| == |h| + 1 ==>
                IsLogin(r.path) && LoginFormOf(r).Some? && Submission(r, LoginFormOf(r).value) == Ok(res.1[|h|])
    {
      if !IsLogin(r.path) then (Ok(Some(r)), h)
      else match LoginFormOf(r)
        case None => (Ok(None), h)
        case Some(f) => Submit(h, r, f)
    }

    /** Submitting the login form `f` of page `r` after the requests `h`. */
    function Submit(h: seq<Request>, r: Response, f: FormParsing.Form): (res: (Outcome<Option<Response>>, seq<Request>))
      ensures h <= res.1 && |res.1| <= |h| + 1
      ensures res.0.Ok? ==> res.0.value.Some? && !IsLogin(res.0.value.value.path)
      ensures |res.1| == |h| + 1 ==> Submission(r, f) == Ok(res.1[|h|])
      // A form without `action` or `method` raises that `KeyError` before any request is sent.
      ensures Submission(r, f).Raise? ==> res == (Raise(Submission(r, f).error), h)
    {
      match Submission(r, f)
      case Raise(e) => (Raise(e), h)
      case Ok(q) => (AfterLogin(server(h, q)), h + [q])
    }

    /** `choose_profile_if_required` after the requests `h`. */
    function ProfileResult(h: seq<Request>, r: Response): (res: (Outcome<Response>, seq<Request>))
      ensures h <= res.1 && |res.1| <= |h| + 1
    {
      match ProfileParsing.Run(ProfileParsing.Init, r.events)
      case None => (Raise(HrefMissing), h)
      case Some(s) =>
        match FindProfile(profile, s.profiles, 0)
        case Some(i) =>
          var q := Request("GET", join(r.url, s.profiles[i].1), map[]);
          (match server(h, q) case None => Raise(HttpError) case Some(p) => Ok(p), h + [q])
        case None =>
          (if s.profiles == [] then Ok(r) else Raise(ProfileNotFound(profile, Names(s.profiles))), h)
    }

    /** `get(path)` after the requests `h`: fetch, then login resolution, then profile resolution. */
    function GetResult(h: seq<Request>, path: string): (res: (Outcome<Response>, seq<Request>))
      ensures |h| < |res.1| <= |h| + 3 && h <= res.1
      ensures res.1[|h|] == Request("GET", join(BaseUrl, path), map[])
    {
      var q := Request("GET", join(BaseUrl, path), map[]);
      match server(h, q)
      case None => (Raise(HttpError), h + [q])
      case Some(r) =>
        var (lo, h') := LoginResult(h + [q], r);
        match lo
        case Raise(e) => (Raise(e), h')
        case Ok(None) => (Raise(NoLoginForm), h')
        case Ok(Some(r')) =>
          var res := ProfileResult(h', r');
          assert h + [q] <= res.1;
          res
    }

    /** `get` as a value: what the scan of the genre pages is defined over. */
    function Fetcher(): (fetch: Fetch)
      ensures forall h, path :: fetch(h, path) == GetResult(h, path)
    {
      (h: seq<Request>, path: string) => GetResult(h, path)
    }

    /** A page that is not a login page is passed through without any request. */
    lemma LoginPassesThrough(h: seq<Request>, r: Response)
      requires !IsLogin(r.path)
      ensures LoginResult(h, r) == (Ok(Some(r)), h)
    {
    }

    /**
     * On a login page, exactly the first login form is submitted, with the
     * credentials in place of `email`/`password`; the answer is returned
     * or, if still a login page, its second error message is raised. A
     * login form without `action` or `method` raises that `KeyError` and
     * sends nothing.
     */
    lemma LoginSubmitsFirstForm(h: seq<Request>, r: Response)
      requires IsLogin(r.path)
      requires var s := FormParsing.Run(FormParsing.Init, r.events);
               exists k :: k in s.order && IsLoginForm(s.forms[k])
      ensures var s := FormParsing.Run(FormParsing.Init, r.events);
              var i := FindLoginForm(s.order, s.forms, 0);
              && i.Some?
              && (forall j :: 0 <= j < i.value ==> !IsLoginForm(s.forms[s.order[j]]))
              && var f := s.forms[s.order[i.value]];
                 && IsLoginForm(f)
                 && ("action" !in f.attrs ==> LoginResult(h, r) == (Raise(FormAttrMissing("action")), h))
                 && ("action" in f.attrs && "method" !in f.attrs ==>
                       LoginResult(h, r) == (Raise(FormAttrMissing("method")), h))
                 && ("action" in f.attrs && "method" in f.attrs ==>
                       var q := Request(f.attrs["method"], join(r.url, f.attrs["action"]),
                                        Payload(f.fields, email, password));
                       LoginResult(h, r) == (AfterLogin(server(h, q)), h + [q]))
    {
    }

    /** Without profiles the page is returned as it is; with no match the error names them all. */
    lemma ProfileChoice(h: seq<Request>, r: Response)
      ensures ProfileParsing.Run(ProfileParsing.Init, r.events).None? ==> ProfileResult(h, r) == (Raise(HrefMissing), h)
      ensures ProfileParsing.Run(ProfileParsing.Init, r.events).Some? ==>
              var ps := ProfileParsing.Run(ProfileParsing.Init, r.events).value.profiles;
              && (ps == [] ==> ProfileResult(h, r) == (Ok(r), h))
              && (ps != [] && (forall j :: 0 <= j < |ps| ==> !Matches(profile, ps[j].0))
                  ==> ProfileResult(h, r) == (Raise(ProfileNotFound(profile, Names(ps))), h))
              && (forall i :: FirstMatch(profile, ps, i) ==>
                    var q := Request("GET", join(r.url, ps[i].1), map[]);
                    ProfileResult(h, r) == (if server(h, q).Some? then Ok(server(h, q).value) else Raise(HttpError), h + [q]))
    {
      if ProfileParsing.Run(ProfileParsing.Init, r.events).None? {
        return;
      }
      var ps := ProfileParsing.Run(ProfileParsing.Init, r.events).value.profiles;
      var c := FindProfile(profile, ps, 0);
      if c.Some? {
        forall i | FirstMatch(profile, ps, i)
          ensures i == c.value
        {
        }
      }
    }

    /**
     * `get` resolves the login page first and then the profile list: a
     * failed fetch raises, a login page without login form raises the
     * `AttributeError` of `None`, and everything else is handed on.
     */
    lemma GetComposes(h: seq<Request>, path: string)
      ensures var q := Request("GET", join(BaseUrl, path), map[]);
              && (server(h, q).None? ==> GetResult(h, path) == (Raise(HttpError), h + [q]))
              && (server(h, q).Some? ==>
                    var (lo, h') := LoginResult(h + [q], server(h, q).value);
                    && (lo == Ok(None) ==> GetResult(h, path) == (Raise(NoLoginForm), h'))
                    && (lo.Raise? ==> GetResult(h, path) == (Raise(lo.error), h'))
                    && (lo.Ok? && lo.value.Some? ==> GetResult(h, path) == ProfileResult(h', lo.value.value)))
              && (server(h, q).Some? && !IsLogin(server(h, q).value.path) ==>
                    GetResult(h, path) == ProfileResult(h + [q], server(h, q).value))
    {
    }

    method Send(q: Request) returns (reply: Option<Response>)
      modifies this
      ensures reply == server(old(sent), q) && sent == old(sent) + [q]
    {
      reply := server(sent, q);
      sent := sent + [q];
    }

    method LoginIfRequired(response: Response) returns (out: Outcome<Option<Response>>)
      modifies this
      ensures (out, sent) == LoginResult(old(sent), response)
    {
      if !IsLogin(response.path) {
        return Ok(Some(response));
      }
      var formParser := new FormParsing.FormParser();
      formParser.Feed(response.events);
      var order, forms := formParser.order, formParser.forms;
      for i := 0 to |order|
        invariant FindLoginForm(order, forms, 0) == FindLoginForm(order, forms, i)
      {
        var form := forms[order[i]];
        if "action" in form.fields && form.fields["action"] == Some(LoginAction) {
          assert LoginFormOf(response) == Some(form);
          out := SubmitLogin(response, form);
          return;
        }
      }
      return Ok(None);
    }

    /** The login branch of `login_if_required` once the form is found. */
    method SubmitLogin(response: Response, form: FormParsing.Form) returns (out: Outcome<Option<Response>>)
      modifies this
      ensures (out, sent) == Submit(old(sent), response, form)
    {
      if "action" !in form.attrs {
        return Raise(FormAttrMissing("action"));
      }
      var url := join(response.url, form.attrs["action"]);
      var data := form.fields;
      data := data["email" := Some(email)]["password" := Some(password)];
      if "method" !in form.attrs {
        return Raise(FormAttrMissing("method"));
      }
      var reply := Send(Request(form.attrs["method"], url, data));
      if reply.None? {
        return Raise(HttpError);
      }
      if IsLogin(reply.value.path) {
        var e := ReadError(reply.value);
        return Raise(e);
      }
      return Ok(reply);
    }

    /** The error message of a page that is still the login page. */
    method ReadError(page: Response) returns (e: Error)
      ensures e == ErrorOf(page)
    {
      var errorParser := new CaptureParsing.CaptureParser.ErrorMessage();
      errorParser.Feed(page.events);
      if |errorParser.strings| < 2 {
        return ErrorIndexMissing;
      }
      return AuthFailed(errorParser.strings[1]);
    }

    method ChooseProfileIfRequired(response: Response) returns (out: Outcome<Response>)
      modifies this
      ensures (out, sent) == ProfileResult(old(sent), response)
    {
      var profileParser := new ProfileParsing.ProfileListParser();
      var ok := profileParser.Feed(response.events);
      if !ok {
        return Raise(HrefMissing);
      }
      var profiles := profileParser.profiles;
      assert ProfileParsing.Run(ProfileParsing.Init, response.events).value.profiles == profiles;
      var names := [];
      for i := 0 to |profiles|
        invariant names == Names(profiles[..i])
        invariant FindProfile(profile, profiles, 0) == FindProfile(profile, profiles, i)
        invariant sent == old(sent)
      {
        var (name, path) := profiles[i];
        names := names + [name];
        if profile.None? || Lower(name) == Lower(profile.value) {
          assert FindProfile(profile, profiles, 0) == Some(i);
          var reply := Send(Request("GET", join(response.url, path), map[]));
          if reply.None? {
            return Raise(HttpError);
          }
          return Ok(reply.value);
        }
        assert profiles[..i + 1] == profiles[..i] + [profiles[i]];
        NamesAppend(profiles[..i], profiles[i]);
      }
      assert profiles[..|profiles|] == profiles;
      if names != [] {
        return Raise(ProfileNotFound(profile, names));
      }
      return Ok(response);
    }

    lemma NamesAppend(ps: seq<(string, string)>, p: (string, string))
      ensures Names(ps + [p]) == Names(ps) + [p.0]
    {
    }

    /** `get`: fetch the page, resolve a login page, then a profile list. */
    method Get(path: string) returns (out: Outcome<Response>)
      modifies this
      ensures (out, sent) == GetResult(old(sent), path)
    {
      var reply := Send(Request("GET", join(BaseUrl, path), map[]));
      if reply.None? {
        return Raise(HttpError);
      }
      var logged := LoginIfRequired(reply.value);
      if logged.Raise? {
        return Raise(logged.error);
      }
      if logged.value.None? {
        return Raise(NoLoginForm);
      }
      out := ChooseProfileIfRequired(logged.value.value);
    }

    /**
     * One number of `genre_scan`: a cached entry (truthy or not) is used as
     * it is; a missing one is fetched, and the page's first title, or `None`,
     * stored; a failed fetch stores nothing.
     */
    method Visit(cache: GenreCache, n: int) returns (item: seq<(int, string, string)>, failed: bool,
                                                    ghost page: Option<Response>)
      modifies this, cache
      ensures item == Entry(cache.entries, n)
      ensures old(sent) <= sent
      ensures Key(n) in old(cache.entries) ==>
                cache.entries == old(cache.entries) && sent == old(sent) && !failed && page.None?
      ensures Key(n) !in old(cache.entries) ==> (failed <==> page.None?)
      ensures failed ==> cache.entries == old(cache.entries)
      ensures page.Some? ==> cache.entries == old(cache.entries)[Key(n) := TitleEntry(page.value)]
      ensures (item, failed, cache.entries, sent) == VisitResult(Fetcher(), old(sent), old(cache.entries), n)
      ensures Key(n) !in old(cache.entries) ==>
                var o := GetResult(old(sent), GenrePath(n)).0;
                (page.Some? <==> o.Ok?) && (page.Some? ==> page.value == o.value)
    {
      var key := IntToString(n);
      page := None;
      failed := false;
      if key in cache.entries {
        var value := cache.entries[key];
        item := if value.Some? then [(n, value.value.0, value.value.1)] else [];
        return;
      }
      var response := Get(GenrePath(n));
      if response.Raise? {
        failed := true;
        item := [];
        return;
      }
      page := Some(response.value);
      var titleParser := new CaptureParsing.CaptureParser.Title();
      titleParser.Feed(response.value.events);
      if |titleParser.strings| > 0 {
        var title := titleParser.strings[0];
        cache.entries := cache.entries[key := Some((title, response.value.url))];
        item := [(n, title, response.value.url)];
      } else {
        cache.entries := cache.entries[key := None];
        item := [];
      }
    }

    /**
     * `genre_scan(min, max, fresh)`: the yielded triples, the numbers whose
     * fetch failed (logged and skipped), and, as a ghost record, the pages
     * fetched.
     */
    method GenreScan(cache: GenreCache, min: int, max: int, refresh: bool)
      returns (results: seq<(int, string, string)>, skipped: seq<int>, ghost pages: map<int, Response>)
      modifies this, cache
      ensures results == CachedResults(cache.entries, min, max)
      ensures forall k :: !Scanned(k, min, max) ==>
                (k in cache.entries <==> k in Base(refresh, old(cache.entries)))
                && (k in cache.entries ==> cache.entries[k] == Base(refresh, old(cache.entries))[k])
      ensures forall n :: min <= n < max && Key(n) in Base(refresh, old(cache.entries)) ==>
                Key(n) in cache.entries && cache.entries[Key(n)] == Base(refresh, old(cache.entries))[Key(n)]
      ensures forall n :: min <= n < max && Key(n) !in Base(refresh, old(cache.entries)) ==>
                (n in pages <==> n !in skipped)
      ensures forall n :: n in pages ==>
                && min <= n < max && Key(n) !in Base(refresh, old(cache.entries))
                && Key(n) in cache.entries && cache.entries[Key(n)] == TitleEntry(pages[n])
      ensures forall i :: 0 <= i < |skipped| ==>
                && min <= skipped[i] < max && Key(skipped[i]) !in Base(refresh, old(cache.entries))
                && Key(skipped[i]) !in cache.entries
      ensures forall i, j :: 0 <= i < j < |skipped| ==> skipped[i] < skipped[j]
      ensures old(sent) <= sent
      ensures (forall n :: min <= n < max ==> Key(n) in Base(refresh, old(cache.entries))) ==> sent == old(sent)
      ensures (results, skipped, cache.entries, sent) == ScanFrom(Fetcher(), old(sent), Base(refresh, old(cache.entries)), min, max)
    {
      if refresh {
        cache.entries := map[];
      }
      ghost var base := cache.entries;
      var hi := if max < min then min else max;
      results, skipped, pages := ScanNumbers(cache, min, hi);
      ScanInvDone(Fetcher(), old(sent), base, min, hi, results, skipped, pages, cache.entries, sent);
      ScanRange(base, cache.entries, min, hi, max, skipped, pages);
      assert base == Base(refresh, old(cache.entries));
    }

    /** The loop of `genre_scan`: every number of `[min, hi)` in turn. */
    method ScanNumbers(cache: GenreCache, min: int, hi: int)
      returns (results: seq<(int, string, string)>, skipped: seq<int>, ghost pages: map<int, Response>)
      requires min <= hi
      modifies this, cache
      ensures ScanInv(Fetcher(), old(sent), old(cache.entries), min, hi, hi, results, skipped, pages, cache.entries, sent)
    {
      ghost var base := cache.entries;
      results, skipped, pages := [], [], map[];
      ScanInvInit(Fetcher(), sent, base, min, hi);
      for n := min to hi
        invariant ScanInv(Fetcher(), old(sent), base, min, hi, n, results, skipped, pages, cache.entries, sent)
      {
        ghost var before, sentBefore := cache.entries, sent;
        var item, failed, page := Visit(cache, n);
        ScanInvStep(Fetcher(), old(sent), base, min, hi, n, results, skipped, pages, before, sentBefore,
                    item, failed, page, cache.entries, sent);
        results := results + item;
        if failed {
          skipped := skipped + [n];
        }
        if page.Some? {
          pages := pages[n := page.value];
        }
      }
    }

    /**
     * A scan without fetch errors leaves every number of its range cached,
     * so scanning the same range again without `fresh` sends no request and
     * yields the same triples.
     */
    method RescanIsIdempotent(cache: GenreCache, min: int, max: int, refresh: bool)
      returns (first: seq<(int, string, string)>, skipped: seq<int>,
               second: seq<(int, string, string)>, secondRequests: seq<Request>)
      modifies this, cache
      ensures skipped == [] ==> second == first && secondRequests == []
    {
      ghost var pages;
      first, skipped, pages := GenreScan(cache, min, max, refresh);
      var afterFirst := sent;
      ghost var cached := cache.entries;
      var skippedAgain;
      ghost var pagesAgain;
      second, skippedAgain, pagesAgain := GenreScan(cache, min, max, false);
      secondRequests := sent[|afterFirst|..];
      if skipped == [] {
        assert forall n :: min <= n < max ==> Key(n) in cached;
        CachedResultsAgree(cached, cache.entries, min, max);
      }
    }

    /** `login`: fetch the login page. */
    method Login() returns (out: Outcome<Response>)
      modifies this
      ensures (out, sent) == GetResult(old(sent), LoginPath)
    {
      out := Get(LoginPath);
    }
  }
}
