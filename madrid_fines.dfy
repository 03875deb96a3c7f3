/** traficFines/madridFines.py: locating a month's download link (`get_url`) and the
    `MadridFines` accumulator that loads monthly fine tables through a `CacheURL`
    and merges them into one dataset, one (month, year) period at a time. */
module Madrid {
  import opened Outcomes
  import Text
  import opened UrlCache

  const Raiz := "https://datos.madrid.es/"
  const MadridFinesUrl := "sites/v/index.jsp?vgnextoid=fb9a498a6bdb9410VgnVCM1000000b205a0aRCRD&vgnextchannel=374512b9ace9f310VgnVCM100000171f5a0aRCRD"
  /** The page that lists every monthly file. */
  const ListingUrl := Raiz + MadridFinesUrl
  /** The first year with published data (hard-coded in both range checks). */
  const FirstYear := 2016

  /** The exceptions that can escape `get_url`, `add` and the reports. */
  datatype FinesError =
    | MonthOutOfRange(month: int)          // MadridError
    | YearOutOfRange(year: int)            // MadridError
    | NoFileFor(dateString: string)        // MadridError: no listing entry for the period
    | CsvUnreadable(month: int, year: int) // MadridError: read_csv failed
    | NoData                               // MadridError: a report on an empty dataset
    | ListingStatus(status: int)           // bare Exception: the listing page is not 200
    | ListingUnreachable(reason: string)   // RequestException from fetching the listing page
    | MissingLink                          // AttributeError: a matching entry without a download anchor
    | CacheFailed(cause: CacheError)       // CacheError from CacheURL.get
    | CleanFailed                          // whatever pandas raises inside __clean
  {
    predicate IsMadridError() {
      MonthOutOfRange? || YearOutOfRange? || NoFileFor? || CsvUnreadable? || NoData?
    }
  }

  // ---------------------------------------------------------------------------
  // get_url

  const MonthNames: seq<string> :=
    ["Enero", "Febrero", "Marzo", "Abril", "Mayo", "Junio", "Julio",
     "Agosto", "Septiembre", "Octubre", "Noviembre", "Diciembre"]

  /** `dict_months[month]`: each month has its own Spanish name. */
  function MonthName(month: int): (name: string)
    requires 1 <= month <= 12
    ensures name == MonthNames[month - 1]
    ensures forall i :: 0 <= i < |MonthNames| && MonthNames[i] == name ==> i == month - 1
  {
    MonthNames[month - 1]
  }

  /** `f'{year} {dict_months[month]}'`, the way the listing titles name a month. */
  function DateString(year: nat, month: int): (s: string)
    requires 1 <= month <= 12
    // the year's digits, one space, then the month's name
    ensures var y := Text.DecimalString(year);
            |s| == |y| + 1 + |MonthName(month)| &&
            s[..|y|] == y && Text.AllDigits(s[..|y|]) && s[|y|] == ' ' && s[|y| + 1..] == MonthName(month)
  {
    Text.DecimalString(year) + " " + MonthName(month)
  }

  /** Different periods are searched for with different strings. */
  lemma DateStringInjective(y1: nat, m1: int, y2: nat, m2: int)
    requires 1 <= m1 <= 12 && 1 <= m2 <= 12
    ensures (y1, m1) != (y2, m2) ==> DateString(y1, m1) != DateString(y2, m2)
  {
    var a, b := Text.DecimalString(y1), Text.DecimalString(y2);
    var s1, s2 := DateString(y1, m1), DateString(y2, m2);
    if |a| < |b| {
      assert s1[|a|] == ' ' && Text.IsDigit(s2[|a|]);
    } else if |b| < |a| {
      assert s2[|b|] == ' ' && Text.IsDigit(s1[|b|]);
    } else if a != b {
      assert s1[..|a|] == a && s2[..|a|] == b;
    } else {
      Text.DecimalStringInjective(y1, y2);
      if m1 != m2 {
        assert s1[|a| + 1..] == MonthName(m1) && s2[|a| + 1..] == MonthName(m2);
      }
    }
  }

  /** The `<a class="asociada-link">` of a listing entry; `href` is `None` when the
      anchor has no such attribute. */
  datatype Anchor = Anchor(href: Option<string>)

  /** One `<li>` of the listing page: the text of its `<p class="info-title">`, if it
      has one, and its download anchor, if it has one. */
  datatype Item = Item(title: Option<string>, link: Option<Anchor>)

  /** `titulo and date_string in titulo.text` */
  predicate Mentions(item: Item, dateString: string) {
    item.title.Some? && Text.IsInfix(dateString, item.title.value)
  }

  /** `k` is the first entry that mentions `dateString`. */
  predicate IsFirstMention(items: seq<Item>, dateString: string, k: int) {
    0 <= k < |items| && Mentions(items[k], dateString) &&
    forall j :: 0 <= j < k ==> !Mentions(items[j], dateString)
  }

  /** `h_ref` as an f-string renders it: the attribute's value, or "None". */
  function HrefText(anchor: Anchor): string {
    match anchor.href
    case Some(h) => h
    case None => "None"
  }

  /** `f'{RAIZ}{h_ref}'` for a matching entry; `None` prints as "None", and a missing
      anchor raises. */
  function LinkOf(item: Item): (r: Result<string, FinesError>)
    ensures r.Err? <==> item.link.None?
    ensures r.Err? ==> r.error == MissingLink
    ensures r.Ok? ==> Raiz <= r.value && r.value[|Raiz|..] == HrefText(item.link.value)
    ensures item.link.Some? && item.link.value.href.Some? ==> r == Ok(Raiz + item.link.value.href.value)
    ensures item.link.Some? && item.link.value.href.None? ==> r == Ok(Raiz + "None")
  {
    match item.link
    case None => Err(MissingLink)
    case Some(anchor) => Ok(Raiz + HrefText(anchor))
  }

  /** The search loop of `get_url`: the link of the first entry that mentions the
      date string, or `NoFileFor` when none does. */
  function FindLink(items: seq<Item>, dateString: string): (r: Result<string, FinesError>)
    ensures r == Err(NoFileFor(dateString)) <==> forall i :: 0 <= i < |items| ==> !Mentions(items[i], dateString)
    ensures r != Err(NoFileFor(dateString)) ==> exists k :: IsFirstMention(items, dateString, k) && r == LinkOf(items[k])
  {
    if items == [] then Err(NoFileFor(dateString))
    else if Mentions(items[0], dateString) then
      assert IsFirstMention(items, dateString, 0);
      LinkOf(items[0])
    else
      var r := FindLink(items[1..], dateString);
      assert forall i :: 1 <= i < |items| ==> items[i] == items[1..][i - 1];
      assert r != Err(NoFileFor(dateString)) ==> exists k :: IsFirstMention(items, dateString, k) && r == LinkOf(items[k]) by {
        if r != Err(NoFileFor(dateString)) {
          var k :| IsFirstMention(items[1..], dateString, k) && r == LinkOf(items[1..][k]);
          assert IsFirstMention(items, dateString, k + 1);
        }
      }
      r
  }

  /** Entries after a match are never looked at. */
  lemma {:induction false} FindLinkFirstWins(items: seq<Item>, more: seq<Item>, dateString: string)
    requires exists i :: 0 <= i < |items| && Mentions(items[i], dateString)
    ensures FindLink(items + more, dateString) == FindLink(items, dateString)
  {
    if !Mentions(items[0], dateString) {
      assert (items + more)[1..] == items[1..] + more;
      var i :| 0 <= i < |items| && Mentions(items[i], dateString);
      assert Mentions(items[1..][i - 1], dateString);
      FindLinkFirstWins(items[1..], more, dateString);
    }
  }

  /** `get_url(year, month)`: the year is checked before the month; the listing page
      at `ListingUrl` is then fetched (`net`) and split into its `<li>` entries
      (`listItems`, the HTML parser), and the first entry that mentions
      "<year> <MonthName>" gives the link. */
  function GetUrl(year: int, month: int, currentYear: int, net: string -> Response, listItems: string -> seq<Item>): (r: Result<string, FinesError>)
    ensures !(FirstYear <= year <= currentYear) ==> r == Err(YearOutOfRange(year))
    ensures FirstYear <= year <= currentYear && !(1 <= month <= 12) ==> r == Err(MonthOutOfRange(month))
    ensures FirstYear <= year <= currentYear && 1 <= month <= 12 && net(ListingUrl).Unreachable? ==>
              r == Err(ListingUnreachable(net(ListingUrl).reason))
    ensures FirstYear <= year <= currentYear && 1 <= month <= 12 && net(ListingUrl).Reply? && net(ListingUrl).status != 200 ==>
              r == Err(ListingStatus(net(ListingUrl).status))
    ensures r.Ok? ==>
              (FirstYear <= year <= currentYear && 1 <= month <= 12 &&
               net(ListingUrl).Reply? && net(ListingUrl).status == 200 &&
               Raiz <= r.value &&
               var items := listItems(net(ListingUrl).text);
               exists k :: IsFirstMention(items, DateString(year, month), k) && r == LinkOf(items[k]))
    // a valid period and a 200 listing page: the search decides, so a matching entry
    // gives its link and no matching entry gives NoFileFor
    ensures FirstYear <= year <= currentYear && 1 <= month <= 12 && net(ListingUrl).Reply? && net(ListingUrl).status == 200 ==>
              r == FindLink(listItems(net(ListingUrl).text), DateString(year, month))
    // the only errors besides the listing page's are MadridErrors
    ensures r.Err? && !r.error.ListingUnreachable? && !r.error.ListingStatus? && !r.error.MissingLink? ==> r.error.IsMadridError()
  {
    if !(FirstYear <= year <= currentYear) then Err(YearOutOfRange(year))
    else if !(1 <= month <= 12) then Err(MonthOutOfRange(month))
    else
      match net(ListingUrl)
      case Unreachable(reason) => Err(ListingUnreachable(reason))
      case Reply(status, text) =>
        if status != 200 then Err(ListingStatus(status))
        else FindLink(listItems(text), DateString(year, month))
  }

  // ---------------------------------------------------------------------------
  // The dataset accumulator

  /** A `(month, year)` tuple of `__loaded`. */
  datatype Period = Period(month: int, year: int)

  /** One row of the cleaned fines table, by column name. */
  datatype Fine = Fine(cells: map<string, string>)

  /** What `add` depends on besides the object: the current year, the network, and
      the foreign parsers (BeautifulSoup's `<li>` list, `pd.read_csv`, `__clean`). */
  datatype Env = Env(
    currentYear: int,
    net: string -> Response,
    listItems: string -> seq<Item>,
    readCsv: string -> Option<seq<Fine>>,
    clean: seq<Fine> -> Option<seq<Fine>>)

  /** No period is recorded twice. */
  predicate NoDuplicates(ps: seq<Period>) {
    forall i, j :: 0 <= i < j < |ps| ==> ps[i] != ps[j]
  }

  /** The invariant of `__loaded`: distinct periods, each with a month in 1..12 and a
      year no earlier than 2016. */
  predicate WellFormed(ps: seq<Period>) {
    NoDuplicates(ps) && forall p :: p in ps ==> 1 <= p.month <= 12 && FirstYear <= p.year
  }

  /** Every entry of `before` is still in `after`, with the same content. */
  predicate StoreExtends(before: map<string, string>, after: map<string, string>) {
    forall k :: k in before ==> k in after && after[k] == before[k]
  }

  /** The state `add` changes: `__data`, `__loaded`, and the cache's store and request log. */
  datatype Dataset = Dataset(data: seq<Fine>, loaded: seq<Period>, store: map<string, string>, fetched: seq<string>)

  /** What one call returned or raised, and the state it left. */
  datatype Step = Step(outcome: Outcome<FinesError>, state: Dataset)

  /** What `__load` does: `get_url`, `CacheURL.get`, `read_csv`. */
  datatype Loaded = Loaded(table: Result<seq<Fine>, FinesError>, store: map<string, string>, fetched: seq<string>)

  function LoadTable(p: Period, store: map<string, string>, digest: string -> Digest, env: Env): (l: Loaded)
    ensures StoreExtends(store, l.store) && |l.fetched| <= 1
    // the cache's one request, if any, is get_url's link, and the cache step is CacheURL.get on it
    ensures var u := GetUrl(p.year, p.month, env.currentYear, env.net, env.listItems);
            u.Ok? ==>
              var f := FetchOrServe(store, digest(u.value), u.value, env.net);
              l.store == f.store && l.fetched == (if f.requested then [u.value] else []) &&
              (f.result.Err? ==> l.table == Err(CacheFailed(f.result.error))) &&
              (f.result.Ok? ==> (l.table == Err(CsvUnreadable(p.month, p.year)) <==> env.readCsv(f.result.value).None?)) &&
              (f.result.Ok? && env.readCsv(f.result.value).Some? ==> l.table == Ok(env.readCsv(f.result.value).value))
    // a table is read_csv of what the cache now holds under the link's digest
    ensures var u := GetUrl(p.year, p.month, env.currentYear, env.net, env.listItems);
            l.table.Ok? ==>
              u.Ok? && digest(u.value) in l.store && env.readCsv(l.store[digest(u.value)]) == Some(l.table.value)
    ensures l.table.Ok? ==> GetUrl(p.year, p.month, env.currentYear, env.net, env.listItems).Ok?
    ensures GetUrl(p.year, p.month, env.currentYear, env.net, env.listItems).Err? ==>
              l == Loaded(Err(GetUrl(p.year, p.month, env.currentYear, env.net, env.listItems).error), store, [])
  {
    match GetUrl(p.year, p.month, env.currentYear, env.net, env.listItems)
    case Err(e) => Loaded(Err(e), store, [])
    case Ok(url) =>
      var f := FetchOrServe(store, digest(url), url, env.net);
      var log := if f.requested then [url] else [];
      match f.result
      case Err(e) => Loaded(Err(CacheFailed(e)), f.store, log)
      case Ok(text) =>
        match env.readCsv(text)
        case None => Loaded(Err(CsvUnreadable(p.month, p.year)), f.store, log)
        case Some(table) => Loaded(Ok(table), f.store, log)
  }

  /** One pass of the `for m in months` loop of `add`: a period already in `loaded` is
      skipped; otherwise its table is loaded and cleaned, appended to `data`, and only
      then the period is appended to `loaded`. A failure commits nothing to `data` or
      `loaded`, but keeps whatever the cache stored and requested on the way. */
  function AddPeriod(s: Dataset, p: Period, digest: string -> Digest, env: Env): (r: Step)
    ensures p in s.loaded ==> r == Step(Pass, s)
    ensures p !in s.loaded && r.outcome.Pass? ==>
              r.state.loaded == s.loaded + [p] && s.data <= r.state.data
    // a merge appends exactly the period's cleaned table; it fails exactly when
    // loading or cleaning does, and the cache is what loading left
    ensures p !in s.loaded ==>
              var l := LoadTable(p, s.store, digest, env);
              r.state.store == l.store && r.state.fetched == s.fetched + l.fetched &&
              (r.outcome.Pass? <==> l.table.Ok? && env.clean(l.table.value).Some?) &&
              (r.outcome.Pass? ==> r.state.data == s.data + env.clean(l.table.value).value) &&
              (l.table.Err? ==> r.outcome == Fail(l.table.error)) &&
              (l.table.Ok? && env.clean(l.table.value).None? ==> r.outcome == Fail(CleanFailed))
    ensures r.outcome.Fail? ==> p !in s.loaded && r.state.data == s.data && r.state.loaded == s.loaded
    ensures StoreExtends(s.store, r.state.store) && s.fetched <= r.state.fetched
  {
    if p in s.loaded then Step(Pass, s)
    else
      var l := LoadTable(p, s.store, digest, env);
      var s' := s.(store := l.store, fetched := s.fetched + l.fetched);
      match l.table
      case Err(e) => Step(Fail(e), s')
      case Ok(table) =>
        match env.clean(table)
        case None => Step(Fail(CleanFailed), s')
        case Some(rows) => Step(Pass, s'.(data := s.data + rows, loaded := s.loaded + [p]))
  }

  /** The whole loop: the requested months in order, stopping at the first failure. */
  function AddPeriods(s: Dataset, months: seq<int>, year: int, digest: string -> Digest, env: Env): (r: Step)
    // the loop only appends and never loses a cache entry
    ensures s.data <= r.state.data && s.loaded <= r.state.loaded && s.fetched <= r.state.fetched
    ensures StoreExtends(s.store, r.state.store)
    decreases |months|
  {
    if months == [] then Step(Pass, s)
    else
      var step := AddPeriod(s, Period(months[0], year), digest, env);
      if step.outcome.Fail? then step else AddPeriods(step.state, months[1..], year, digest, env)
  }

  /** The months `add` walks through: all twelve in ascending order, or the one given. */
  function RequestedMonths(month: Option<int>): (ms: seq<int>)
    ensures month.None? ==> |ms| == 12 && forall i :: 0 <= i < 12 ==> ms[i] == i + 1
    ensures month.Some? ==> ms == [month.value]
  {
    match month
    case None => [1, 2, 3, 4, 5, 6, 7, 8, 9, 10, 11, 12]
    case Some(m) => [m]
  }

  /** `add(year, month)`: the month is checked first, then the year against the
      current year; a rejected call changes nothing. */
  function AddOutcome(s: Dataset, year: int, month: Option<int>, digest: string -> Digest, env: Env): (r: Step)
    ensures month.Some? && !(1 <= month.value <= 12) ==> r == Step(Fail(MonthOutOfRange(month.value)), s)
    ensures (month.None? || 1 <= month.value <= 12) && !(FirstYear <= year <= env.currentYear) ==>
              r == Step(Fail(YearOutOfRange(year)), s)
    // a rejected argument is a MadridError
    ensures !((month.None? || 1 <= month.value <= 12) && FirstYear <= year <= env.currentYear) ==>
              r.outcome.Fail? && r.outcome.error.IsMadridError()
  {
    if month.Some? && !(1 <= month.value <= 12) then Step(Fail(MonthOutOfRange(month.value)), s)
    else if !(FirstYear <= year <= env.currentYear) then Step(Fail(YearOutOfRange(year)), s)
    else AddPeriods(s, RequestedMonths(month), year, digest, env)
  }

  // ---------------------------------------------------------------------------
  // Properties of add

  /** `add` only grows the state: `data`, `loaded` and the request log are extended,
      no cache entry is lost or overwritten, rows are added only together with a
      period, and every new period is one of the requested ones. */
  lemma {:induction false} AddPeriodsGrows(s: Dataset, months: seq<int>, year: int, digest: string -> Digest, env: Env)
    ensures var r := AddPeriods(s, months, year, digest, env).state;
            s.data <= r.data && s.loaded <= r.loaded && s.fetched <= r.fetched &&
            StoreExtends(s.store, r.store) &&
            (|r.loaded| == |s.loaded| ==> r.data == s.data) &&
            forall i :: |s.loaded| <= i < |r.loaded| ==> r.loaded[i].year == year && r.loaded[i].month in months
    decreases |months|
  {
    if months != [] {
      var step := AddPeriod(s, Period(months[0], year), digest, env);
      if step.outcome.Pass? {
        var t := step.state;
        AddPeriodsGrows(t, months[1..], year, digest, env);
        var r := AddPeriods(t, months[1..], year, digest, env).state;
        assert forall i :: |t.loaded| <= i < |r.loaded| ==> r.loaded[i].month in months by {
          assert forall m :: m in months[1..] ==> m in months;
        }
      }
    }
  }

  /** `add` keeps `loaded` free of duplicates and of out-of-range periods. */
  lemma {:induction false} AddPeriodsWellFormed(s: Dataset, months: seq<int>, year: int, digest: string -> Digest, env: Env)
    requires WellFormed(s.loaded)
    requires FirstYear <= year && forall m :: m in months ==> 1 <= m <= 12
    ensures WellFormed(AddPeriods(s, months, year, digest, env).state.loaded)
    decreases |months|
  {
    if months != [] {
      var p := Period(months[0], year);
      var step := AddPeriod(s, p, digest, env);
      if step.outcome.Pass? {
        if p !in s.loaded {
          AppendKeepsWellFormed(s.loaded, p);
        }
        assert forall m :: m in months[1..] ==> m in months;
        AddPeriodsWellFormed(step.state, months[1..], year, digest, env);
      }
    }
  }

  lemma AppendKeepsWellFormed(ps: seq<Period>, p: Period)
    requires WellFormed(ps) && p !in ps && 1 <= p.month <= 12 && FirstYear <= p.year
    ensures WellFormed(ps + [p])
  {
  }

  lemma PrefixKeeps(a: seq<Period>, b: seq<Period>, x: Period)
    requires a <= b && x in a
    ensures x in b
  {
  }

  /** After a call that raised nothing, every requested period is loaded. */
  lemma {:induction false} AddPeriodsCovers(s: Dataset, months: seq<int>, year: int, digest: string -> Digest, env: Env)
    requires AddPeriods(s, months, year, digest, env).outcome.Pass?
    ensures forall m :: m in months ==> Period(m, year) in AddPeriods(s, months, year, digest, env).state.loaded
    decreases |months|
  {
    if months != [] {
      var p := Period(months[0], year);
      var t := AddPeriod(s, p, digest, env).state;
      var r := AddPeriods(t, months[1..], year, digest, env).state;
      AddPeriodsCovers(t, months[1..], year, digest, env);
      AddPeriodsGrows(t, months[1..], year, digest, env);
      assert p in t.loaded;
      PrefixKeeps(t.loaded, r.loaded, p);
      assert forall m :: m in months ==> m == months[0] || m in months[1..];
    }
  }

  /** A call whose periods are all loaded already loads nothing, requests nothing
      and changes nothing. */
  lemma {:induction false} AddPeriodsIdle(s: Dataset, months: seq<int>, year: int, digest: string -> Digest, env: Env)
    requires forall m :: m in months ==> Period(m, year) in s.loaded
    ensures AddPeriods(s, months, year, digest, env) == Step(Pass, s)
    decreases |months|
  {
    if months != [] {
      assert months[0] in months;
      assert forall m :: m in months[1..] ==> m in months;
      AddPeriodsIdle(s, months[1..], year, digest, env);
    }
  }

  /** The walk over `months` stopped at index `i`: that period is not in `loaded`,
      every period before it is. */
  predicate StoppedAt(months: seq<int>, year: int, loaded: seq<Period>, i: int) {
    0 <= i < |months| && Period(months[i], year) !in loaded &&
    forall j :: 0 <= j < i ==> Period(months[j], year) in loaded
  }

  lemma StoppedLater(months: seq<int>, year: int, loaded: seq<Period>, i: int)
    requires months != [] && Period(months[0], year) in loaded
    requires StoppedAt(months[1..], year, loaded, i)
    ensures StoppedAt(months, year, loaded, i + 1)
  {
  }

  /** A call that raised stopped at a requested period that is not loaded, every
      requested period before it being loaded: nothing of the failed period was
      committed, and what earlier periods merged stays. */
  lemma {:induction false} AddPeriodsFailure(s: Dataset, months: seq<int>, year: int, digest: string -> Digest, env: Env)
    requires AddPeriods(s, months, year, digest, env).outcome.Fail?
    ensures exists i :: StoppedAt(months, year, AddPeriods(s, months, year, digest, env).state.loaded, i)
    decreases |months|
  {
    var p := Period(months[0], year);
    var step := AddPeriod(s, p, digest, env);
    var r := AddPeriods(s, months, year, digest, env).state;
    if step.outcome.Fail? {
      assert StoppedAt(months, year, r.loaded, 0);
    } else {
      AddPeriodsFailure(step.state, months[1..], year, digest, env);
      AddPeriodsGrows(step.state, months[1..], year, digest, env);
      PrefixKeeps(step.state.loaded, r.loaded, p);
      var i :| StoppedAt(months[1..], year, r.loaded, i);
      StoppedLater(months, year, r.loaded, i);
    }
  }

  /** The walk over `months` raised at index `i`: the months before it passed, the
      pass over `months[i]` raised, and the call's outcome and state are that pass's. */
  predicate FailedAt(s: Dataset, months: seq<int>, year: int, digest: string -> Digest, env: Env, i: int) {
    0 <= i < |months| &&
    var before := AddPeriods(s, months[..i], year, digest, env);
    var step := AddPeriod(before.state, Period(months[i], year), digest, env);
    before.outcome.Pass? && step.outcome.Fail? && AddPeriods(s, months, year, digest, env) == step
  }

  /** A call that raised stopped at the period that raised: the outcome and state are
      those the failing pass left, so no later period is loaded, merged or requested,
      and (by `AddPeriod`) the failing period committed nothing to data or loaded. */
  lemma {:induction false} AddPeriodsStopsAtFailure(s: Dataset, months: seq<int>, year: int, digest: string -> Digest, env: Env)
    requires AddPeriods(s, months, year, digest, env).outcome.Fail?
    ensures exists i :: FailedAt(s, months, year, digest, env, i)
    decreases |months|
  {
    var step := AddPeriod(s, Period(months[0], year), digest, env);
    if step.outcome.Fail? {
      assert months[..0] == [];
      assert FailedAt(s, months, year, digest, env, 0);
    } else {
      AddPeriodsStopsAtFailure(step.state, months[1..], year, digest, env);
      var j :| FailedAt(step.state, months[1..], year, digest, env, j);
      assert months[..j + 1][1..] == months[1..][..j];
      assert months[..j + 1][0] == months[0];
      assert months[1..][j] == months[j + 1];
      assert FailedAt(s, months, year, digest, env, j + 1);
    }
  }

  predicate StrictlyIncreasing(ms: seq<int>) {
    forall i, j :: 0 <= i < j < |ms| ==> ms[i] < ms[j]
  }

  /** When the months are walked in ascending order (a whole year), the periods a
      call appends to `loaded` are in ascending month order. */
  lemma {:induction false} AddPeriodsAscending(s: Dataset, months: seq<int>, year: int, digest: string -> Digest, env: Env)
    requires StrictlyIncreasing(months)
    ensures var r := AddPeriods(s, months, year, digest, env).state;
            forall i, j :: |s.loaded| <= i < j < |r.loaded| ==> r.loaded[i].month < r.loaded[j].month
    decreases |months|
  {
    if months != [] {
      var p := Period(months[0], year);
      var step := AddPeriod(s, p, digest, env);
      if step.outcome.Pass? {
        var t := step.state;
        assert StrictlyIncreasing(months[1..]);
        AddPeriodsAscending(t, months[1..], year, digest, env);
        AddPeriodsGrows(t, months[1..], year, digest, env);
        var r := AddPeriods(t, months[1..], year, digest, env).state;
        forall i, j | |s.loaded| <= i < j < |r.loaded| ensures r.loaded[i].month < r.loaded[j].month {
          if i < |t.loaded| {
            assert t.loaded[i] == p;
            assert r.loaded[i] == p;
            assert r.loaded[j].month in months[1..];
          }
        }
      }
    }
  }

  /** Idempotence: once `add(year, month)` has succeeded, calling it again (in the
      same or a later year, whatever the network now answers) is a no-op. */
  lemma AddTwiceIsNoOp(s: Dataset, year: int, month: Option<int>, digest: string -> Digest, env1: Env, env2: Env)
    requires AddOutcome(s, year, month, digest, env1).outcome.Pass?
    requires env2.currentYear >= env1.currentYear
    ensures var first := AddOutcome(s, year, month, digest, env1).state;
            AddOutcome(first, year, month, digest, env2) == Step(Pass, first)
  {
    AddPeriodsCovers(s, RequestedMonths(month), year, digest, env1);
    var first := AddOutcome(s, year, month, digest, env1).state;
    AddPeriodsIdle(first, RequestedMonths(month), year, digest, env2);
  }

  /** `add` never unloads a period or drops rows. */
  lemma AddGrows(s: Dataset, year: int, month: Option<int>, digest: string -> Digest, env: Env)
    ensures var r := AddOutcome(s, year, month, digest, env).state;
            s.data <= r.data && s.loaded <= r.loaded && StoreExtends(s.store, r.store)
  {
  }

  /** From an empty cache and an empty dataset, a successful `add(year, month)` has
      the cache make exactly one request, for get_url's link of that month, caches that link's body
      under its digest and nothing else, and its rows are that body read and cleaned. */
  lemma FirstAdd(year: int, month: int, digest: string -> Digest, env: Env)
    requires AddOutcome(Dataset([], [], map[], []), year, Some(month), digest, env).outcome.Pass?
    ensures var r := AddOutcome(Dataset([], [], map[], []), year, Some(month), digest, env).state;
            var u := GetUrl(year, month, env.currentYear, env.net, env.listItems);
            u.Ok? && r.loaded == [Period(month, year)] && r.fetched == [u.value] &&
            r.store == map[digest(u.value) := env.net(u.value).text] &&
            env.readCsv(env.net(u.value).text).Some? &&
            env.clean(env.readCsv(env.net(u.value).text).value) == Some(r.data)
  {
    var s := Dataset([], [], map[], []);
    var p := Period(month, year);
    var step := AddPeriod(s, p, digest, env);
    assert 1 <= month <= 12 && FirstYear <= year <= env.currentYear;
    assert AddOutcome(s, year, Some(month), digest, env) == AddPeriods(s, [month], year, digest, env);
    assert [month][1..] == [];
    assert AddPeriods(s, [month], year, digest, env) == step;
    assert step.outcome.Pass? && p !in s.loaded;
    var l := LoadTable(p, map[], digest, env);
    assert l.table.Ok? && env.clean(l.table.value).Some?;
    LoadFromEmpty(p, digest, env);
    assert step.state.data == [] + env.clean(l.table.value).value;
    assert [] + env.clean(l.table.value).value == env.clean(l.table.value).value;
  }

  /** Loading into an empty cache: the cache makes one request, for the link, whose body is the only
      entry and is what read_csv read. */
  lemma LoadFromEmpty(p: Period, digest: string -> Digest, env: Env)
    requires LoadTable(p, map[], digest, env).table.Ok?
    ensures var l := LoadTable(p, map[], digest, env);
            var u := GetUrl(p.year, p.month, env.currentYear, env.net, env.listItems);
            u.Ok? && l.fetched == [u.value] && l.store == map[digest(u.value) := env.net(u.value).text] &&
            env.readCsv(env.net(u.value).text) == Some(l.table.value)
  {
  }

  /** Three successful `add`s of consecutive months leave all three loaded. */
  lemma ConsecutiveMonths(s0: Dataset, year: int, digest: string -> Digest, env: Env)
    requires AddOutcome(s0, year, Some(1), digest, env).outcome.Pass?
    requires AddOutcome(AddOutcome(s0, year, Some(1), digest, env).state, year, Some(2), digest, env).outcome.Pass?
    requires AddOutcome(AddOutcome(AddOutcome(s0, year, Some(1), digest, env).state, year, Some(2), digest, env).state,
                        year, Some(3), digest, env).outcome.Pass?
    ensures var s1 := AddOutcome(s0, year, Some(1), digest, env).state;
            var s2 := AddOutcome(s1, year, Some(2), digest, env).state;
            var s3 := AddOutcome(s2, year, Some(3), digest, env).state;
            Period(1, year) in s3.loaded && Period(2, year) in s3.loaded && Period(3, year) in s3.loaded
  {
  }

  // ---------------------------------------------------------------------------
  // The class

  /** `__load(year, month, cacheurl)`: the month's link, its text through the
      cache, and the text read as a table. */
  method Load(year: int, month: int, cacheurl: CacheURL, env: Env) returns (t: Result<seq<Fine>, FinesError>)
    modifies cacheurl
    ensures var l := LoadTable(Period(month, year), old(cacheurl.store), cacheurl.digest, env);
            t == l.table && cacheurl.store == l.store && cacheurl.fetched == old(cacheurl.fetched) + l.fetched
  {
    var url := GetUrl(year, month, env.currentYear, env.net, env.listItems);
    if url.Err? {
      return Err(url.error);
    }
    var text := cacheurl.Get(url.value, env.net);
    if text.Err? {
      return Err(CacheFailed(text.error));
    }
    match env.readCsv(text.value)
    case None =>
      t := Err(CsvUnreadable(month, year));
    case Some(table) =>
      t := Ok(table);
  }

  class MadridFines {
    const cacheurl: CacheURL
    /** `__data`: the merged rows of every loaded period, in merge order. */
    var data: seq<Fine>
    /** `__loaded`: the periods merged so far, in merge order. */
    var loaded: seq<Period>

    ghost predicate Valid()
      reads this
    {
      WellFormed(loaded)
    }

    ghost function State(): Dataset
      reads this, cacheurl
    {
      Dataset(data, loaded, cacheurl.store, cacheurl.fetched)
    }

    /** A new accumulator: no rows, no periods, and a cache over what `onDisk` holds. */
    constructor (appName: string, obsolescence: int, digest: string -> Digest, onDisk: map<string, string>)
      ensures Valid() && data == [] && loaded == []
      ensures fresh(cacheurl) && cacheurl.appName == appName && cacheurl.obsolescence == obsolescence
      ensures cacheurl.digest == digest && cacheurl.store == onDisk && cacheurl.fetched == []
    {
      cacheurl := new CacheURL(appName, obsolescence, digest, onDisk);
      data := [];
      loaded := [];
    }

    /** `add(year, month)`. */
    method Add(year: int, month: Option<int>, env: Env) returns (r: Outcome<FinesError>)
      requires Valid()
      modifies this, cacheurl
      ensures Valid()
      ensures Step(r, State()) == AddOutcome(old(State()), year, month, cacheurl.digest, env)
    {
      if month.Some? && !(1 <= month.value <= 12) {
        return Fail(MonthOutOfRange(month.value));
      }
      if !(FirstYear <= year <= env.currentYear) {
        return Fail(YearOutOfRange(year));
      }
      var months := RequestedMonths(month);
      ghost var goal := AddPeriods(State(), months, year, cacheurl.digest, env);
      var i := 0;
      while i < |months|
        invariant 0 <= i <= |months|
        invariant Valid()
        invariant AddPeriods(State(), months[i..], year, cacheurl.digest, env) == goal
      {
        var p := Period(months[i], year);
        assert months[i..][1..] == months[i + 1..];
        ghost var step := AddPeriod(State(), p, cacheurl.digest, env);
        if p !in loaded {
          var table := Load(year, months[i], cacheurl, env);
          if table.Err? {
            assert Step(Fail(table.error), State()) == step;
            return Fail(table.error);
          }
          var rows := env.clean(table.value);
          if rows.None? {
            assert Step(Fail(CleanFailed), State()) == step;
            return Fail(CleanFailed);
          }
          AppendKeepsWellFormed(loaded, p);
          data := data + rows.value;
          loaded := loaded + [p];
        }
        assert step == Step(Pass, State());
        i := i + 1;
      }
      r := Pass;
    }

    /** The guard of `fines_hour`: no chart without data. */
    method FinesHour(figName: string) returns (r: Outcome<FinesError>)
      ensures data == [] ==> r == Fail(NoData)
      ensures data != [] ==> r == Pass
    {
      if data == [] {
        return Fail(NoData);
      }
      r := Pass;
    }

    /** The guard of `fines_calification`. */
    method FinesCalification() returns (r: Outcome<FinesError>)
      ensures data == [] ==> r == Fail(NoData)
      ensures data != [] ==> r == Pass
    {
      if data == [] {
        return Fail(NoData);
      }
      r := Pass;
    }

    /** The guard of `total_payment`. */
    method TotalPayment() returns (r: Outcome<FinesError>)
      ensures data == [] ==> r == Fail(NoData)
      ensures data != [] ==> r == Pass
    {
      if data == [] {
        return Fail(NoData);
      }
      r := Pass;
    }
  }
}
