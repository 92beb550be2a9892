/** The Rapras agent: a username/password login with session restore and
    the retry machine, the seller-ranking row filter, and closing the
    browser. The browser is the four handle flags of the agent; what a page
    shows or does is given as observations. */
module RaprasScraper {
  import opened Wrappers
  import opened Text
  import opened Browser
  import opened Retry
  import opened SessionManager
  import opened Agents

  const DefaultRaprasUrl: string := "https://www.rapras.jp/"
  const ServiceName: string := "rapras"
  const DefaultMinPrice: int := 100000
  const NotInitializedMessage: string := "Browser not initialized. Call login() first."

  /** What one login attempt meets, in the order the attempt meets it:
      whether reading the saved session fails; whether adding its cookies
      and opening the site completes; the logout-link lookup on the restored
      page; which handle fails while the restored browser is closed; whether
      opening the site, filling the credentials and clicking the button
      completes; the logout-link lookup after that; the cookies the context
      reports, or the exception reading them raises; and how saving them
      fails. An exception raised anywhere from launching the browser to
      clicking the button is `login`. */
  datatype RaprasAttempt = RaprasAttempt(
    readFails: bool,
    restoreLoad: Step,
    restoredProbe: Probe,
    cleanupFault: Option<Slot>,
    login: Step,
    loginProbe: Probe,
    cookies: Result<seq<Cookie>, Raised>,
    saveFault: SaveFault)

  /** `is_logged_in`: false without a page or when the lookup raises;
      otherwise whether a logout link is on the page. */
  function LoggedInVerdict(h: Handles, logoutLink: Probe): bool {
    h.page && logoutLink == Found
  }

  /** The restore step of an attempt: `_restore_session` runs only when
      the session file exists. */
  function RestoreStep(st: AgentState, dir: string, a: RaprasAttempt): (bool, Handles) {
    if SessionPath(dir, ServiceName) in st.files then RestoreSpec(st.handles, st.files, dir, ServiceName, a.readFails, a.restoreLoad)
    else (false, st.handles)
  }

  /** The attempt ends with the restored session: it was restored and the
      restored page passes the check. */
  predicate RestoredSessionPasses(st: AgentState, dir: string, a: RaprasAttempt) {
    RestoreStep(st, dir, a).0 && LoggedInVerdict(RestoreStep(st, dir, a).1, a.restoredProbe)
  }

  /** One pass of the body of the `login` loop. */
  function AttemptSpec(st: AgentState, dir: string, a: RaprasAttempt): (AttemptOutcome, AgentState) {
    var (restored, h1) := RestoreStep(st, dir, a);
    if RestoredSessionPasses(st, dir, a) then (Validated, AgentState(h1, st.files))
    else
      var h2 := if restored then Close(h1, a.cleanupFault) else h1;
      var h3 := Launch(h2);
      if a.login.Raises? then (AttemptRaised(a.login.error), AgentState(h3, st.files))
      else if LoggedInVerdict(h3, a.loginProbe) then
        match a.cookies
        case Err(e) => (AttemptRaised(e), AgentState(h3, st.files))
        case Ok(cookies) => (Validated, AgentState(h3, SaveEffect(st.files, dir, ServiceName, cookies, a.saveFault)))
      else (NotValidated, AgentState(h3, st.files))
  }

  /** The attempts of one `login` call, as the retry machine runs them. */
  function AttemptStep(dir: string, attempts: nat -> RaprasAttempt): (AgentState, nat) -> (AttemptOutcome, AgentState) {
    (st: AgentState, i: nat) => AttemptSpec(st, dir, attempts(i))
  }

  /** One row of the ranking table: the name cell's text, the price cell's
      text, and the link in the name cell (`None` without an `a` element,
      `Some(None)` when it has no `href`). Reading a cell that raises
      something other than `ValueError` or `AttributeError` aborts the
      whole fetch; such a page is an `AggregationView` whose `navigation`
      raises. */
  datatype Row = Row(nameCell: Option<string>, priceCell: Option<string>, linkCell: Option<Option<string>>)

  /** `{"seller_name": …, "total_price": …, "link": …}`. */
  datatype SellerLink = SellerLink(sellerName: string, totalPrice: int, link: Option<string>)

  /** What the aggregation page gives: the first exception the fetch
      raises, whether opening the page, listing its rows or reading a row's
      cells, or none; and the rows. */
  datatype AggregationView = AggregationView(navigation: Step, rows: seq<Row>)

  datatype FetchError =
    | RuntimeError(message: string)
    | PageError(error: Raised)

  /** `int(price_text.replace(",", "").replace("円", ""))`. */
  function ParsePrice(text: string): Option<int> {
    ParseInt(RemoveChar(RemoveChar(text, ','), '円'))
  }

  /** The entry a row contributes, if any. */
  function KeptRow(row: Row, minPrice: int): Option<SellerLink> {
    if row.nameCell.None? || row.priceCell.None? then None
    else match ParsePrice(row.priceCell.value)
      case None => None
      case Some(price) =>
        if price < minPrice || row.linkCell.None? then None
        else Some(SellerLink(row.nameCell.value, price, row.linkCell.value))
  }

  /** The reference filter: the entries of the kept rows, in row order. */
  function SellerLinks(rows: seq<Row>, minPrice: int): seq<SellerLink> {
    if rows == [] then []
    else
      var last := KeptRow(rows[|rows| - 1], minPrice);
      SellerLinks(rows[..|rows| - 1], minPrice) + (if last.Some? then [last.value] else [])
  }

  /** The ranking page for the period from `startDate` to `endDate`. */
  function AggregationUrl(raprasUrl: string, startDate: string, endDate: string): string {
    raprasUrl + "sum_analyse?target=epsum&updown=down&genre=all&sdate=" + startDate + "&edate=" + endDate
  }

  /** `RaprasScraper`. */
  class RaprasAgent {
    const sessions: SessionStore
    const raprasUrl: string
    /** `[2**i for i in range(1, 4)]`. */
    const retryDelays: seq<int> := BackoffSchedule(MaxRetries)
    var playwright: bool
    var browser: bool
    var context: bool
    var page: bool

    function Handles(): Handles
      reads this
    {
      Browser.Handles(playwright, browser, context, page)
    }

    function State(): AgentState
      reads this, sessions
    {
      AgentState(Handles(), sessions.files)
    }

    /** A new agent holds no browser handle. */
    constructor (sessions: SessionStore, raprasUrl: string)
      ensures this.sessions == sessions && this.raprasUrl == raprasUrl
      ensures Handles() == NoHandles
    {
      this.sessions := sessions;
      this.raprasUrl := raprasUrl;
      playwright, browser, context, page := false, false, false, false;
    }

    /** `_launch_browser`: creates each missing handle. */
    method LaunchBrowser()
      modifies this
      ensures Handles() == Launch(old(Handles()))
    {
      if !playwright { playwright := true; }
      if !browser { browser := true; }
      if !context { context := true; }
      if !page { page := true; }
    }

    /** `_restore_session`. */
    method RestoreSession(readFails: bool, restoreLoad: Step) returns (restored: bool)
      modifies this
      ensures (restored, Handles()) == RestoreSpec(old(Handles()), sessions.files, sessions.sessionDir, ServiceName, readFails, restoreLoad)
    {
      var cookies := sessions.LoadSession(ServiceName, readFails);
      if cookies.None? || cookies.value == [] {
        return false;
      }
      LaunchBrowser();
      restored := restoreLoad.Completes?;
    }

    /** `is_logged_in`: true exactly when there is a page and the lookup of
        the logout link finds one. */
    method IsLoggedIn(logoutLink: Probe) returns (loggedIn: bool)
      ensures loggedIn <==> page && logoutLink == Found
    {
      if !page {
        return false;
      }
      match logoutLink
      case ProbeRaises => loggedIn := false;
      case Found => loggedIn := true;
      case NotFound => loggedIn := false;
    }

    /** `close`: releases page, context, browser, Playwright in that order;
        the exception of the handle `fault` names is swallowed and ends the
        release there. */
    method Close(fault: Option<Slot>)
      modifies this
      ensures Handles() == Browser.Close(old(Handles()), fault)
    {
      if page {
        if fault == Some(PageSlot) { return; }
        page := false;
      }
      if context {
        if fault == Some(ContextSlot) { return; }
        context := false;
      }
      if browser {
        if fault == Some(BrowserSlot) { return; }
        browser := false;
      }
      if playwright {
        if fault == Some(PlaywrightSlot) { return; }
        playwright := false;
      }
    }

    /** One pass of the `login` loop body. */
    method RunAttempt(a: RaprasAttempt) returns (outcome: AttemptOutcome)
      modifies this, sessions
      ensures (outcome, State()) == AttemptSpec(old(State()), sessions.sessionDir, a)
    {
      var sessionFound := sessions.SessionExists(ServiceName);
      if sessionFound {
        var restored := RestoreSession(a.readFails, a.restoreLoad);
        if restored {
          var valid := IsLoggedIn(a.restoredProbe);
          if valid {
            return Validated;
          }
          Close(a.cleanupFault);
        }
      }
      LaunchBrowser();
      if a.login.Raises? {
        return AttemptRaised(a.login.error);
      }
      var valid := IsLoggedIn(a.loginProbe);
      if valid {
        if a.cookies.Err? {
          return AttemptRaised(a.cookies.error);
        }
        sessions.SaveSession(ServiceName, a.cookies.value, a.saveFault);
        return Validated;
      }
      outcome := NotValidated;
    }

    /** `login`: the retry machine over the given attempts. The run, with
        its sleeps, and the state it leaves are those of the reference
        machine. */
    method Login(attempts: nat -> RaprasAttempt) returns (run: LoginRun)
      modifies this, sessions
      ensures (run, State()) == RunFrom(old(State()), AttemptStep(sessions.sessionDir, attempts), retryDelays, 0)
    {
      ghost var start := State();
      ghost var step := AttemptStep(sessions.sessionDir, attempts);
      var attempt: nat := 0;
      var sleeps: seq<int> := [];
      PrefixedStart(start, step, retryDelays);
      while attempt < MaxRetries
        invariant attempt <= MaxRetries
        invariant RunFrom(start, step, retryDelays, 0)
                  == Prefixed(attempt, sleeps, RunFrom(State(), step, retryDelays, attempt))
      {
        ghost var before := State();
        var outcome := RunAttempt(attempts(attempt));
        assert step(before, attempt) == (outcome, State());
        if Stops(attempt, outcome) {
          PrefixedStop(before, step, retryDelays, attempt, sleeps);
          return LoginRun(Terminal(outcome), attempt + 1, sleeps);
        }
        PrefixedContinue(before, step, retryDelays, attempt, sleeps);
        // `_retry_with_backoff`, only before another attempt
        sleeps := sleeps + Backoff(attempt, retryDelays);
        attempt := attempt + 1;
      }
      PrefixedExhausted(State(), step, retryDelays, sleeps);
      run := LoginRun(Terminal(NotValidated), MaxRetries, sleeps);
    }

    /** `fetch_seller_links`: without a page a `RuntimeError`; an exception
        opening the ranking page, listing its rows or reading a row's cells
        is raised again as it is; otherwise the entries of the kept rows in
        row order. `pageAt`
        is what the browser shows at a URL. */
    method FetchSellerLinks(startDate: string, endDate: string, minPrice: int,
                            pageAt: string -> AggregationView)
      returns (r: Result<seq<SellerLink>, FetchError>)
      ensures !page ==> r == Err(RuntimeError(NotInitializedMessage))
      ensures page ==>
                var view := pageAt(AggregationUrl(raprasUrl, startDate, endDate));
                r == if view.navigation.Raises? then Err(PageError(view.navigation.error))
                     else Ok(SellerLinks(view.rows, minPrice))
    {
      if !page {
        return Err(RuntimeError(NotInitializedMessage));
      }
      var url := AggregationUrl(raprasUrl, startDate, endDate);
      var view := pageAt(url);
      if view.navigation.Raises? {
        return Err(PageError(view.navigation.error));
      }
      var rows := view.rows;
      var sellers: seq<SellerLink> := [];
      for i := 0 to |rows|
        invariant sellers == SellerLinks(rows[..i], minPrice)
      {
        assert rows[..i + 1][..i] == rows[..i];
        var row := rows[i];
        if row.nameCell.None? {
          continue;
        }
        var sellerName := row.nameCell.value;
        if row.priceCell.None? {
          continue;
        }
        var priceValue := ParsePrice(row.priceCell.value);
        if priceValue.None? {
          // the `ValueError` of `int` skips the row
          continue;
        }
        if priceValue.value < minPrice {
          continue;
        }
        if row.linkCell.None? {
          continue;
        }
        sellers := sellers + [SellerLink(sellerName, priceValue.value, row.linkCell.value)];
      }
      assert rows[..|rows|] == rows;
      r := Ok(sellers);
    }
  }

  /** A new agent's schedule is 2, 4, 8 seconds. */
  lemma RetryDelaysValues(agent: RaprasAgent)
    ensures agent.retryDelays == [2, 4, 8]
  {
    BackoffScheduleValues();
  }

  /** A row is kept exactly when it has a name cell and a price cell, the
      price parses after dropping `,` and `円`, it is at least the floor,
      and there is a link cell; the entry holds the name, the parsed price
      and the link. */
  lemma KeptRowIff(row: Row, minPrice: int)
    ensures KeptRow(row, minPrice).Some?
            <==> && row.nameCell.Some? && row.priceCell.Some?
                 && ParsePrice(row.priceCell.value).Some?
                 && ParsePrice(row.priceCell.value).value >= minPrice
                 && row.linkCell.Some?
    ensures KeptRow(row, minPrice).Some? ==>
              KeptRow(row, minPrice).value
              == SellerLink(row.nameCell.value, ParsePrice(row.priceCell.value).value, row.linkCell.value)
  {
  }

  /** The filter works row by row: the entries of two runs of rows are the
      entries of the first followed by those of the second. */
  lemma {:induction false} SellerLinksAppend(a: seq<Row>, b: seq<Row>, minPrice: int)
    ensures SellerLinks(a + b, minPrice) == SellerLinks(a, minPrice) + SellerLinks(b, minPrice)
    decreases |b|
  {
    if b == [] {
      assert a + b == a;
    } else {
      var front := b[..|b| - 1];
      assert (a + b)[..|a + b| - 1] == a + front;
      assert (a + b)[|a + b| - 1] == b[|b| - 1];
      SellerLinksAppend(a, front, minPrice);
    }
  }

  /** Every entry clears the floor and comes from a row that has a link
      cell; there are never more entries than rows. */
  lemma {:induction false} SellerLinksBounds(rows: seq<Row>, minPrice: int)
    ensures |SellerLinks(rows, minPrice)| <= |rows|
    ensures forall l :: l in SellerLinks(rows, minPrice) ==> l.totalPrice >= minPrice
  {
    if rows != [] {
      SellerLinksBounds(rows[..|rows| - 1], minPrice);
    }
  }

  /** `str(n)` is made of digits and at most a leading `-`. */
  lemma IntStringChars(n: int)
    ensures forall i :: 0 <= i < |IntString(n)| ==> IsDigit(IntString(n)[i]) || IntString(n)[i] == '-'
  {
    if n < 0 {
      var d := DecimalString(-n);
      assert forall i :: 1 <= i < |IntString(n)| ==> IntString(n)[i] == d[i - 1];
    }
  }

  /** Dropping `,` and `円` from a text without either, followed by `円`,
      gives the text back. */
  lemma DropSeparators(s: string)
    requires forall i :: 0 <= i < |s| ==> s[i] != ',' && s[i] != '円'
    ensures RemoveChar(RemoveChar(s + "円", ','), '円') == s
  {
    var t := s + "円";
    assert forall i :: 0 <= i < |t| ==> t[i] != ',' by {
      forall i | 0 <= i < |t| ensures t[i] != ',' {
        if i < |s| { assert t[i] == s[i]; }
      }
    }
    RemoveCharAbsent(t, ',');
    RemoveCharAppend(s, "円", '円');
    RemoveCharAbsent(s, '円');
    assert RemoveChar("円", '円') == "";
  }

  /** A price written as `str(n)` followed by `円` parses to `n`. */
  lemma ParsePriceOfYen(n: int)
    ensures ParsePrice(IntString(n) + "円") == Some(n)
  {
    var s := IntString(n);
    IntStringChars(n);
    DropSeparators(s);
    ParseIntString(n);
  }

  /** The floor is inclusive: a row priced exactly at it is kept. */
  lemma PriceFloorInclusive(name: string, link: Option<string>, minPrice: int)
    ensures KeptRow(Row(Some(name), Some(IntString(minPrice) + "円"), Some(link)), minPrice)
            == Some(SellerLink(name, minPrice, link))
    ensures KeptRow(Row(Some(name), Some(IntString(minPrice - 1) + "円"), Some(link)), minPrice) == None
  {
    ParsePriceOfYen(minPrice);
    ParsePriceOfYen(minPrice - 1);
  }

  /** The ranking URL starts at the site and ends with the end date. */
  lemma AggregationUrlParts(raprasUrl: string, startDate: string, endDate: string)
    ensures var url := AggregationUrl(raprasUrl, startDate, endDate);
            && url[..|raprasUrl|] == raprasUrl
            && url[|url| - |endDate|..] == endDate
  {
  }

  /** A restored session that passes the check ends the attempt as a
      success without touching the session file and whatever the login
      page would have done. */
  lemma RestoredSessionSkipsLogin(st: AgentState, dir: string, a: RaprasAttempt, b: RaprasAttempt)
    requires SessionPath(dir, ServiceName) in st.files
    requires LoadResult(st.files, dir, ServiceName, a.readFails).Some?
    requires LoadResult(st.files, dir, ServiceName, a.readFails).value != []
    requires a.restoreLoad == Completes && a.restoredProbe == Found
    requires b == a.(login := b.login, loginProbe := b.loginProbe, cookies := b.cookies, saveFault := b.saveFault)
    ensures AttemptSpec(st, dir, a) == (Validated, AgentState(Launch(st.handles), st.files))
    ensures AttemptSpec(st, dir, b) == AttemptSpec(st, dir, a)
  {
  }

  /** A fresh login that passes the check saves the context's cookies
      under `rapras`, whether there was no session file or the saved
      session failed to restore or to pass the check; when the save goes
      through, the next restore loads them. When reading the cookies
      raises, the attempt raises that exception and writes nothing. */
  lemma FreshLoginSavesSession(st: AgentState, dir: string, a: RaprasAttempt)
    requires !RestoredSessionPasses(st, dir, a)
    requires a.login == Completes && a.loginProbe == Found && a.saveFault == NoFault
    ensures var (o, st2) := AttemptSpec(st, dir, a);
            && (a.cookies.Ok? ==>
                  && o == Validated
                  && st2.files == st.files[SessionPath(dir, ServiceName) := Valid(a.cookies.value)]
                  && LoadResult(st2.files, dir, ServiceName, false) == Some(a.cookies.value))
            && (a.cookies.Err? ==> o == AttemptRaised(a.cookies.error) && st2.files == st.files)
  {
  }

  /** An attempt that does not pass the check leaves the session files as
      they were. */
  lemma FailedAttemptKeepsFiles(st: AgentState, dir: string, a: RaprasAttempt)
    ensures AttemptSpec(st, dir, a).0 != Validated ==> AttemptSpec(st, dir, a).1.files == st.files
  {
  }

  /** Every attempt ends with every handle set: a restored session is
      launched, and a fresh login launches again after closing it. */
  lemma AttemptLeavesBrowserOpen(st: AgentState, dir: string, a: RaprasAttempt)
    ensures AttemptSpec(st, dir, a).1.handles == Launch(st.handles)
  {
  }

  /** A login call from a new agent makes at most three attempts and
      sleeps 2 then 4 seconds at most; on failure it made all three and
      slept both. */
  lemma LoginSchedule(st: AgentState, dir: string, attempts: nat -> RaprasAttempt)
    ensures var run := RunFrom(st, AttemptStep(dir, attempts), BackoffSchedule(MaxRetries), 0).0;
            && 1 <= run.attempts <= 3
            && run.sleeps == [2, 4][..run.attempts - 1]
            && (run.result.LoginFailed? ==> run.sleeps == [2, 4])
  {
    BackoffScheduleValues();
    var delays := BackoffSchedule(MaxRetries);
    LoginRunBounds(st, AttemptStep(dir, attempts), delays);
    LoginFailureKinds(st, AttemptStep(dir, attempts), delays);
    assert delays[..2] == [2, 4];
    var run := RunFrom(st, AttemptStep(dir, attempts), delays, 0).0;
    assert delays[..run.attempts - 1] == [2, 4][..run.attempts - 1];
  }
}
