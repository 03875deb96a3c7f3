# Madrid traffic fines: URL cache and incremental dataset, in Dafny

This project models the stateful core of a small Python package that downloads the
monthly traffic-fine tables published by the city of Madrid:

- `CacheURL` (traficFines/cacheURL.py), a file cache keyed by the MD5 digest of a URL,
  whose `get(url)` serves a stored copy or downloads the URL and stores a 200 reply;
  `exists`, `load`, `how_old` and `delete` take a URL and act on its digest.
- `get_url` (traficFines/madridFines.py), which checks a (year, month), fetches the
  listing page and returns `RAIZ + href` of the first entry whose title contains
  `"<year> <Spanish month name>"`.
- `MadridFines` (traficFines/madridFines.py), an accumulator holding `__data` (the
  merged rows) and `__loaded` (the merged `(month, year)` periods). `add(year, month)`
  checks the month, then the year, expands a missing month to 1..12, and for each
  period not yet loaded loads the table through the cache, cleans it, appends its
  rows and only then records the period. The three reports refuse an empty dataset.

Files:

- `outcomes.dfy` — `Option`, `Result`, `Outcome`: the model's stand-ins for raised exceptions.
- `text.dfy` — `str(n)` for a non-negative int, and Python's `sub in s` on strings.
- `cache_url.dfy` — module `UrlCache`: the parent store as a `map<string, string>`,
  the pure specification `FetchOrServe` of `get`, and the class `CacheURL`.
- `madrid_fines.dfy` — module `Madrid`: `get_url` as functions over the listing's
  entries, the specification of `add` (`AddPeriod` for one pass of its loop,
  `AddPeriods` for the loop, `AddOutcome` for the call), lemmas about it, and the
  class `MadridFines` whose `Add` loop is proved equal to `AddOutcome`.

Outside inputs are parameters. The network is a function `net` from URL to
`Response`, a status and body or a transport failure. It is used both for the listing
page and by `CacheURL.Get`. The HTML parser (`listItems`), `pd.read_csv` (`readCsv`)
and `__clean` (`clean`) are functions that may fail. The current year comes in with
them in `Env`. MD5 is the `digest` field of `CacheURL`: any function into 32-character
lower-case hex strings. `CacheURL` keeps a ghost log, `fetched`, of the URLs it
requested from the network. It is used to state that a cache hit or an already-loaded
period makes no request.

Facts about the code that the model keeps:
- `add` checks the month before the year. `get_url` checks the year first.
- `get_url` raises a bare `Exception` on a non-200 listing page (`ListingStatus`).
- `add` catches nothing, so failures propagate as raised (`CacheFailed`, `CleanFailed`, ...).
- `get` raises `CacheError`, modelled as `HttpError` or `RequestFailed`.

## Model

| member | source | states |
|---|---|---|
| `UrlCache.FetchOrServe` | traficFines/cacheURL.py:27-51 | hit: stored content, no request, store unchanged; miss: always requests, succeeds iff the reply is 200, returns its body; HttpError / RequestFailed otherwise; what is returned is what is stored; failure stores nothing; success adds only the URL's key, overwriting nothing |
| `UrlCache.GetTwice` | traficFines/cacheURL.py:38-47 | after a successful get, a second get of the same URL returns the same content from the store, makes no request and changes nothing, whatever the network answers |
| `UrlCache.SharedDigest` | traficFines/cacheURL.py:38-40 | two URLs with the same digest share one entry: the second is served the first one's content |
| `UrlCache.CacheURL.constructor` | traficFines/madridFines.py:96 | a cache over what the cache directory already holds, no requests made |
| `UrlCache.CacheURL.UrlToHash` | traficFines/cacheURL.py:14-25 | the key of a URL is a 32-character lower-case hex string, a function of the URL alone |
| `UrlCache.CacheURL.SetKey` | traficFines/cacheURL.py:46 | the parent's set replaces the key's entry whole and touches no other key |
| `UrlCache.CacheURL.Exists` | traficFines/cacheURL.py:54-67 | exists(url) is the parent's exists on hash(url) |
| `UrlCache.CacheURL.Load` | traficFines/cacheURL.py:69-82 | load(url) is the parent's load on hash(url): the stored content, or a miss on that key |
| `UrlCache.CacheURL.HowOld` | traficFines/cacheURL.py:84-96 | how_old(url) is the parent's age of hash(url), or a miss on that key |
| `UrlCache.CacheURL.Delete` | traficFines/cacheURL.py:98-108 | delete(url) removes exactly hash(url); afterwards exists(url) is false |
| `UrlCache.CacheURL.Get` | traficFines/cacheURL.py:27-51 | result and new store are those of FetchOrServe on hash(url); the URL is logged as requested only on a miss; a hit returns load(url) unchanged; success leaves exists(url) and load(url) equal to the result; failure leaves the store unchanged |
| `Text.DecimalString` | traficFines/madridFines.py:65 | str(year) is a non-empty string of digits with no leading zero |
| `Text.DecimalRoundTrip` | traficFines/madridFines.py:65 | reading back the digits of str(n) gives n |
| `Text.DecimalStringInjective` | traficFines/madridFines.py:65 | different years render differently |
| `Text.IsInfixIff` | traficFines/madridFines.py:70 | `sub in s` holds exactly when sub occurs at some index of s |
| `Madrid.MonthName` | traficFines/madridFines.py:61-62 | the month table gives each of the twelve months its own name |
| `Madrid.DateString` | traficFines/madridFines.py:65 | the date string is the year's decimal digits, one space, then the month's Spanish name (distinct periods give distinct strings: `DateStringInjective`) |
| `Madrid.DateStringInjective` | traficFines/madridFines.py:61-65 | different (year, month) periods are searched for with different date strings |
| `Madrid.LinkOf` | traficFines/madridFines.py:71-73 | a matching entry's link is RAIZ followed by its href, or by "None" when the anchor has no href; an entry without the anchor raises |
| `Madrid.FindLink` | traficFines/madridFines.py:68-74 | NoFileFor exactly when no entry's title contains the date string; otherwise the result is the link of the first entry that does |
| `Madrid.FindLinkFirstWins` | traficFines/madridFines.py:68-73 | entries after the first match do not affect the result |
| `Madrid.GetUrl` | traficFines/madridFines.py:27-74 | year outside [2016, currentYear] rejected first, then month outside 1..12; an unreachable or non-200 listing page raises; on a valid period and a 200 page the result is the search's: the link of the first entry mentioning "<year> <MonthName>", or NoFileFor when none does; its other errors are MadridErrors |
| `Madrid.LoadTable` | traficFines/madridFines.py:102-129 | a get_url failure changes nothing; otherwise the cache step is `get` of get_url's link, so the only request is that link; a cache failure is raised as is; CsvUnreadable exactly when read_csv fails on the served text, and Ok of read_csv's table whenever the get and read_csv succeed; a table is read_csv of what the cache holds under the link's digest; no entry is lost or overwritten |
| `Madrid.LoadFromEmpty` | traficFines/madridFines.py:117-129 | from an empty cache, a loaded table comes from the cache's one request, for get_url's link, whose body becomes the only entry |
| `Madrid.Load` | traficFines/madridFines.py:102-129 | the static loader's result, cache store and request log are those of LoadTable |
| `Madrid.AddPeriod` | traficFines/madridFines.py:203-207 | a loaded period is skipped with no change; otherwise it merges exactly when loading and cleaning succeed, appending the cleaned table to data and the period to loaded; a load failure is raised as is, a clean failure as CleanFailed; a failure commits nothing to data or loaded; the cache is what loading left |
| `Madrid.AddPeriods` | traficFines/madridFines.py:202-207 | the loop over the requested months, only appends to data, loaded and the request log and never loses or overwrites a cache entry (more in `AddPeriodsGrows`, `AddPeriodsCovers`, `AddPeriodsStopsAtFailure`) |
| `Madrid.RequestedMonths` | traficFines/madridFines.py:197-200 | no month means months 1..12 in ascending order; a month means only that month |
| `Madrid.AddOutcome` | traficFines/madridFines.py:190-195 | a bad month is rejected before the year is looked at; then a year outside [2016, currentYear]; both are MadridErrors and a rejected call changes nothing |
| `Madrid.AddPeriodsGrows` | traficFines/madridFines.py:202-207 | data, loaded and the request log only grow by appending; cache entries are kept; rows are added only with a period; new periods are requested ones of that year |
| `Madrid.AddPeriodsWellFormed` | traficFines/madridFines.py:203-207 | loaded never gets a duplicate or an out-of-range period |
| `Madrid.AddPeriodsCovers` | traficFines/madridFines.py:202-207 | after a call that raised nothing, every requested period is in loaded |
| `Madrid.AddPeriodsIdle` | traficFines/madridFines.py:203 | if every requested period is already loaded, the call loads nothing, requests nothing and changes nothing |
| `Madrid.AddPeriodsFailure` | traficFines/madridFines.py:202-207 | a call that raised left some requested period unloaded, every requested period before it being loaded |
| `Madrid.AddPeriodsStopsAtFailure` | traficFines/madridFines.py:202-207 | a call that raised stopped at the period that raised: the months before it passed, and the call's outcome and whole state are those the failing pass left, so no later period is loaded, merged or requested |
| `Madrid.AddPeriodsAscending` | traficFines/madridFines.py:197-207 | walking ascending months appends periods in ascending month order |
| `Madrid.AddTwiceIsNoOp` | traficFines/madridFines.py:179-207 | once add(year, month) succeeded, repeating it (same or later year, any network) changes nothing and requests nothing |
| `Madrid.AddGrows` | traficFines/madridFines.py:179-207 | add never drops rows, unloads a period or loses a cache entry |
| `Madrid.FirstAdd` | traficFines/madridFines.py:179-207 | from an empty cache and dataset, a successful add of one month has the cache make one request, for get_url's link (the listing page's request is not logged); the link's body is the only cache entry, under its digest; data is that body read and cleaned; exactly that period is loaded |
| `Madrid.ConsecutiveMonths` | traficFines/madridFines.py:202-207 | three successful adds of months 1, 2, 3 leave all three periods loaded |
| `Madrid.MadridFines.constructor` | traficFines/madridFines.py:88-98 | a new instance has no rows, no loaded periods, and a fresh cache |
| `Madrid.MadridFines.Add` | traficFines/madridFines.py:179-207 | the outcome and new state (data, loaded, cache store, request log) are AddOutcome of the old state; loaded stays duplicate-free and in range |
| `Madrid.MadridFines.FinesHour` | traficFines/madridFines.py:218-219 | raises NoData exactly when the dataset is empty |
| `Madrid.MadridFines.FinesCalification` | traficFines/madridFines.py:255-256 | raises NoData exactly when the dataset is empty |
| `Madrid.MadridFines.TotalPayment` | traficFines/madridFines.py:280-281 | raises NoData exactly when the dataset is empty |

## Left out

- traficFines/cache.py, the parent class, is a stub. `Cache.__init__` (cache.py:9-12) takes no arguments and stores type objects in its attributes. Every other method body is `pass`. It defines neither `CacheError` nor `CACHE_DIR`.
- `Cache` defines no `load` and no `exists`, only `exist` (cache.py:16), so `super().exists` and `super().load` (cacheURL.py:67,82) cannot resolve as written. The model gives them the evident map meaning.
- `Cache.__init__` takes no arguments, so `CacheURL(app_name, obsolescence)` (madridFines.py:96) cannot construct as written. The model's constructors take these settings and the cache's initial contents.
- The parent is modelled as a map from key to content with set/exists/load/delete. Loading or ageing a missing key is a `Miss` error. No cache directory, `clear`, key sanitising or obsolescence-based expiry is modelled.
- UrlCache.CacheURL.HowOld: the age arithmetic over file modification time and the clock is the parameter `ageOf`; only the key translation and the miss case are stated.
- UrlCache.CacheURL.UrlToHash: MD5 itself is not modelled; it is the uninterpreted field `digest`, so collisions are possible in the model (see `SharedDigest`).
- The 30-second timeout, HTTP itself and BeautifulSoup parsing are replaced by `net` (a function from URL to reply or transport failure) and `listItems` (the `<li>` entries of the listing page). Within one `add` call the network is one fixed function, so the listing page is assumed not to change mid-call.
- The listing-page request made by `get_url` is not recorded in the request log; only requests made by `CacheURL.get` are.
- `pd.read_csv` and `__clean` (column renaming, numeric coercion, building the timestamp index from the float `HORA`) are the opaque, possibly failing functions `readCsv` and `clean`; rows are opaque `Fine` values.
- Madrid.MadridFines.FinesHour: only the empty-data guard is modelled; the hour/month grouping and the matplotlib chart are not.
- Madrid.MadridFines.FinesCalification: only the empty-data guard is modelled; the groupby and pivot table are not.
- Madrid.MadridFines.TotalPayment: only the empty-data guard is modelled; the per-month sum of `IMP_BOL` and the floating-point `* 0.5` are not.
- `datetime.date.today().year` is the parameter `Env.currentYear`.
- Exception messages are not modelled; each exception is a constructor of `FinesError` or `CacheError` carrying the values the message mentions.
- `**kwargs` on the cache methods and the `app_name`/`obsolescence` settings have no effect on the modelled behaviour.
- The live-network scripts (test_load.py, test_total_payment.py, pruebas/test_ciclo_completo.py), the test fixtures and the package's `__init__.py` are not part of this model.
