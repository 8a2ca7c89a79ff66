/** The `PlaywrightDriver` class: the handles it keeps in its fields, the
    page-switching bookkeeping over them, the retry loop, and the page
    actions that run an engine call under that loop.

    Every engine call is opaque; how it settles is a parameter of the method
    that issues it. The process-wide logger is modelled as the `log` field,
    which each method extends, and the engine calls the driver issues are
    recorded in `calls`. */
module Driver {
  import opened Engine
  import opened RetryPolicy

  /** The four handle fields of a driver. */
  datatype Session = Session(
    browser: Option<Browser>,
    context: Option<Context>,
    page: Option<Page>,
    previousPage: Option<Page>)

  /** A driver as its constructor leaves it: every field `null`. */
  function FreshSession(): Session
  {
    Session(None, None, None, None)
  }

  /** `switchToNewPage` once the page event arrived: the current page moves
      into the single previous-page slot and the delivered page, even an
      absent one, becomes current. */
  function AfterSwitchToNewPage(s: Session, delivered: Option<Page>): Session
  {
    s.(previousPage := s.page, page := delivered)
  }

  /** `switchBack`: a present previous page becomes current and the slot is
      cleared; with the slot empty nothing changes. */
  function AfterSwitchBack(s: Session): Session
  {
    if s.previousPage.Some? then s.(page := s.previousPage, previousPage := None) else s
  }

  /** The attempts of a page action: the engine's own outcomes when a page
      is current, a TypeError on every attempt when `page` is `null`. */
  function PageAttempts(page: Option<Page>, outcomes: seq<Outcome>): seq<Outcome>
  {
    if page.Some? then outcomes else seq(|outcomes|, _ => Failed(NullReceiver))
  }

  /** What a page action adds when run: how it settles, the lines it logs,
      the engine calls it issues. */
  datatype ActionEffect = ActionEffect(result: Outcome, logged: seq<LogEntry>, issued: seq<EngineCall>)

  /** `retry` with its default bound around one engine call on the current
      page, which logs `success` once the call returns. */
  function PageActionEffect(page: Option<Page>, call: EngineCall, success: Message, outcomes: seq<Outcome>): ActionEffect
    requires DefaultRetries <= |outcomes|
  {
    var report := RetryReportFor(PageAttempts(page, outcomes), DefaultRetries);
    ActionEffect(
      report.result,
      report.trace + (if report.result.Done? then [LogEntry(Info, success)] else []),
      if page.Some? then seq(report.invocations, _ => call) else [])
  }

  class PlaywrightDriver {
    var browser: Option<Browser>
    var context: Option<Context>
    var page: Option<Page>
    var previousPage: Option<Page>
    var log: seq<LogEntry>
    var calls: seq<EngineCall>

    function State(): Session
      reads this
    {
      Session(browser, context, page, previousPage)
    }

    constructor ()
      ensures State() == FreshSession()
      ensures log == [] && calls == []
    {
      browser := None;
      page := None;
      context := None;
      previousPage := None;
      log := [];
      calls := [];
    }

    /** `init(headless = true)`: launch, create a context, open a page, each
        awaited in turn; the first that rejects is rethrown and leaves the
        later fields as they were. */
    method Init(launched: Result<Browser>, created: Result<Context>, pageOpened: Result<Page>, headless: bool := true)
      returns (r: Outcome)
      modifies this`browser, this`context, this`page, this`log, this`calls
      ensures r == (if launched.Err? then Failed(Thrown(launched.error))
                    else if created.Err? then Failed(Thrown(created.error))
                    else if pageOpened.Err? then Failed(Thrown(pageOpened.error))
                    else Done)
      ensures browser == (if launched.Ok? then Some(launched.value) else old(browser))
      ensures context == (if launched.Ok? && created.Ok? then Some(created.value) else old(context))
      ensures page == (if r.Done? then Some(pageOpened.value) else old(page))
      ensures previousPage == old(previousPage)
      ensures calls == old(calls) + [Launch(headless)]
                     + (if launched.Ok? then [NewContext] else [])
                     + (if launched.Ok? && created.Ok? then [NewPage] else [])
      ensures log == old(log) + (if r.Done? then [LogEntry(Info, Initialized)] else [])
    {
      calls := calls + [Launch(headless)];
      if launched.Err? {
        return Failed(Thrown(launched.error));
      }
      browser := Some(launched.value);
      calls := calls + [NewContext];
      if created.Err? {
        return Failed(Thrown(created.error));
      }
      context := Some(created.value);
      calls := calls + [NewPage];
      if pageOpened.Err? {
        return Failed(Thrown(pageOpened.error));
      }
      page := Some(pageOpened.value);
      log := log + [LogEntry(Info, Initialized)];
      r := Done;
    }

    /** `wait(ms)`: logs the wait; the delay itself is not modelled. */
    method Wait(ms: int)
      modifies this`log
      ensures log == old(log) + [LogEntry(Info, Waiting(ms))]
    {
      log := log + [LogEntry(Info, Waiting(ms))];
    }

    /** `retry(action, retries = 3)`: invokes the action until an invocation
        returns, at most `retries` times; the result, the number of
        invocations and the lines logged are those `RetryReportFor` gives. */
    static method Retry(outcomes: seq<Outcome>, retries: int := DefaultRetries) returns (result: Outcome, invocations: nat, trace: seq<LogEntry>)
      requires retries <= |outcomes|
      ensures RetryReport(result, invocations, trace) == RetryReportFor(outcomes, retries)
    {
      result, invocations, trace := Done, 0, [];
      var attempt := 1;
      while attempt <= retries
        invariant attempt == 1 || attempt <= retries
        invariant invocations == attempt - 1
        invariant forall j :: 0 <= j < attempt - 1 ==> outcomes[j].Failed?
        invariant trace == FailureWarnings(attempt - 1)
        decreases retries - attempt
      {
        var outcome := outcomes[attempt - 1];
        invocations := invocations + 1;
        if outcome.Done? {
          assert FirstDone(outcomes, retries) == attempt - 1;
          return;
        }
        FailureWarningsSnoc(attempt - 1);
        trace := trace + [LogEntry(Warn, AttemptFailed(attempt))];
        if attempt == retries {
          assert FirstDone(outcomes, retries) == retries;
          trace := trace + [LogEntry(Error, MaxRetriesReached), LogEntry(Info, Waiting(ExhaustionWaitMs))];
          result := outcome;
          return;
        }
        attempt := attempt + 1;
      }
    }

    /** The body shared by `goTo`, `click`, `fill` and `hover`: `retry` with
        its default bound around `call` on the current page. */
    method RetryOnPage(call: EngineCall, success: Message, outcomes: seq<Outcome>) returns (r: Outcome)
      requires DefaultRetries <= |outcomes|
      modifies this`log, this`calls
      ensures var e := PageActionEffect(old(page), call, success, outcomes);
        r == e.result && log == old(log) + e.logged && calls == old(calls) + e.issued
      ensures State() == old(State())
    {
      var attempts := PageAttempts(page, outcomes);
      var invocations, trace;
      r, invocations, trace := Retry(attempts);
      log := log + trace + (if r.Done? then [LogEntry(Info, success)] else []);
      if page.Some? {
        calls := calls + seq(invocations, _ => call);
      }
    }

    method GoTo(url: string, outcomes: seq<Outcome>) returns (r: Outcome)
      requires DefaultRetries <= |outcomes|
      modifies this`log, this`calls
      ensures var e := PageActionEffect(old(page), Goto(url), Navigated(url), outcomes);
        r == e.result && log == old(log) + e.logged && calls == old(calls) + e.issued
      ensures State() == old(State())
    {
      r := RetryOnPage(Goto(url), Navigated(url), outcomes);
    }

    method Click(selector: string, outcomes: seq<Outcome>) returns (r: Outcome)
      requires DefaultRetries <= |outcomes|
      modifies this`log, this`calls
      ensures var e := PageActionEffect(old(page), Engine.Click(selector), Clicked(selector), outcomes);
        r == e.result && log == old(log) + e.logged && calls == old(calls) + e.issued
      ensures State() == old(State())
    {
      r := RetryOnPage(Engine.Click(selector), Clicked(selector), outcomes);
    }

    method Fill(selector: string, value: string, outcomes: seq<Outcome>) returns (r: Outcome)
      requires DefaultRetries <= |outcomes|
      modifies this`log, this`calls
      ensures var e := PageActionEffect(old(page), Engine.Fill(selector, value), Filled(selector, value), outcomes);
        r == e.result && log == old(log) + e.logged && calls == old(calls) + e.issued
      ensures State() == old(State())
    {
      r := RetryOnPage(Engine.Fill(selector, value), Filled(selector, value), outcomes);
    }

    method Hover(selector: string, outcomes: seq<Outcome>) returns (r: Outcome)
      requires DefaultRetries <= |outcomes|
      modifies this`log, this`calls
      ensures var e := PageActionEffect(old(page), Engine.Hover(selector), Hovered(selector), outcomes);
        r == e.result && log == old(log) + e.logged && calls == old(calls) + e.issued
      ensures State() == old(State())
    {
      r := RetryOnPage(Engine.Hover(selector), Hovered(selector), outcomes);
    }

    /** `switchToNewPage()`: waits for the context's next page event, whose
        settlement is `delivered`. A `null` context throws before anything
        is issued; a rejected wait is rethrown with no field changed. */
    method SwitchToNewPage(delivered: Result<Option<Page>>) returns (r: Outcome)
      modifies this`page, this`previousPage, this`log, this`calls
      ensures old(context).None? ==>
        r == Failed(NullReceiver) && State() == old(State()) && log == old(log) && calls == old(calls)
      ensures old(context).Some? ==> calls == old(calls) + [WaitForPageEvent]
      ensures old(context).Some? && delivered.Err? ==>
        r == Failed(Thrown(delivered.error)) && State() == old(State()) && log == old(log)
      ensures old(context).Some? && delivered.Ok? ==>
        && r == Done
        && State() == AfterSwitchToNewPage(old(State()), delivered.value)
        && log == old(log) + (if delivered.value.None? then [LogEntry(Error, NoNewWindow)] else [])
                           + [LogEntry(Info, SwitchedToNewPage)]
    {
      if context.None? {
        return Failed(NullReceiver);
      }
      calls := calls + [WaitForPageEvent];
      if delivered.Err? {
        return Failed(Thrown(delivered.error));
      }
      var newPage := delivered.value;
      if newPage.None? {
        log := log + [LogEntry(Error, NoNewWindow)];
      }
      previousPage := page;
      page := newPage;
      log := log + [LogEntry(Info, SwitchedToNewPage)];
      r := Done;
    }

    /** `switchBack()`: never throws; with no previous page it only warns. */
    method SwitchBack()
      modifies this`page, this`previousPage, this`log
      ensures State() == AfterSwitchBack(old(State()))
      ensures log == old(log) + [if old(previousPage).Some? then LogEntry(Info, SwitchedBack)
                                 else LogEntry(Warn, NoPreviousPage)]
    {
      if previousPage.Some? {
        page := previousPage;
        previousPage := None;
        log := log + [LogEntry(Info, SwitchedBack)];
      } else {
        log := log + [LogEntry(Warn, NoPreviousPage)];
      }
    }

    /** `close()`: closes the browser when there is one, as `closing` says
        the engine's close settles; no field is reset, so a second call
        closes again. */
    method Close(closing: Outcome) returns (r: Outcome)
      modifies this`log, this`calls
      ensures State() == old(State())
      ensures old(browser).None? ==> r == Done && log == old(log) && calls == old(calls)
      ensures old(browser).Some? ==>
        && r == closing
        && calls == old(calls) + [CloseBrowser]
        && log == old(log) + (if closing.Done? then [LogEntry(Info, BrowserClosed)] else [])
    {
      r := Done;
      if browser.Some? {
        calls := calls + [CloseBrowser];
        r := closing;
        if closing.Done? {
          log := log + [LogEntry(Info, BrowserClosed)];
        }
      }
    }
  }

  /** Switching to a new page and straight back restores the page that was
      current and empties the previous-page slot, provided a page was current
      (a `null` page is falsy, so the slot stays empty and no switch back
      happens). */
  lemma SwitchBackRestores(s: Session, delivered: Option<Page>)
    requires s.page.Some?
    ensures AfterSwitchBack(AfterSwitchToNewPage(s, delivered)) == s.(previousPage := None)
  {
  }

  lemma SwitchBackFromNoPageKeepsNewPage(s: Session, delivered: Option<Page>)
    requires s.page.None?
    ensures AfterSwitchBack(AfterSwitchToNewPage(s, delivered)) == s.(page := delivered, previousPage := None)
  {
  }

  /** Only one previous page is kept: after two switches, switching back
      reaches the first switched-to page, and a second switch back finds the
      slot empty, so the page current before both switches is lost. */
  lemma SecondSwitchOverwritesPrevious(s: Session, first: Page, second: Option<Page>)
    ensures AfterSwitchToNewPage(AfterSwitchToNewPage(s, Some(first)), second).previousPage == Some(first)
    ensures AfterSwitchBack(AfterSwitchBack(AfterSwitchToNewPage(AfterSwitchToNewPage(s, Some(first)), second))).page == Some(first)
  {
  }

  /** Switching back with an empty slot changes nothing, so switching back is
      idempotent. */
  lemma SwitchBackIdempotent(s: Session)
    ensures s.previousPage.None? ==> AfterSwitchBack(s) == s
    ensures AfterSwitchBack(AfterSwitchBack(s)) == AfterSwitchBack(s)
  {
  }

  /** A page action whose engine call first returns on attempt `k` issues
      that call `k` times, returns normally, and logs a warning for each of
      the `k - 1` failed attempts and then its success line. */
  lemma PageActionSucceedsOnAttempt(page: Page, call: EngineCall, success: Message, outcomes: seq<Outcome>, k: int)
    requires DefaultRetries <= |outcomes|
    requires 1 <= k <= DefaultRetries
    requires forall j :: 0 <= j < k - 1 ==> outcomes[j].Failed?
    requires outcomes[k - 1].Done?
    ensures PageActionEffect(Some(page), call, success, outcomes)
         == ActionEffect(Done, FailureWarnings(k - 1) + [LogEntry(Info, success)], seq(k, _ => call))
  {
    RetrySucceedsOnAttempt(outcomes, DefaultRetries, k);
  }

  /** A page action whose engine call keeps failing issues it three times,
      rethrows the third failure, and logs three warnings and one error. */
  lemma PageActionAlwaysFailing(page: Page, call: EngineCall, success: Message, outcomes: seq<Outcome>)
    requires DefaultRetries <= |outcomes|
    requires forall j :: 0 <= j < DefaultRetries ==> outcomes[j].Failed?
    ensures var e := PageActionEffect(Some(page), call, success, outcomes);
      && e.result == outcomes[DefaultRetries - 1]
      && e.issued == [call, call, call]
      && CountLevel(e.logged, Warn) == 3
      && CountLevel(e.logged, Error) == 1
  {
    RetryExhausts(outcomes, DefaultRetries);
    RetryLogsPerFailure(outcomes, DefaultRetries);
    assert outcomes[..DefaultRetries][..DefaultRetries] == outcomes[..DefaultRetries];
    CountFailedAllFailed(outcomes[..DefaultRetries]);
    var e := PageActionEffect(Some(page), call, success, outcomes);
    assert e.logged == RetryReportFor(outcomes, DefaultRetries).trace;
  }

  /** With no current page every attempt throws a TypeError: no engine call
      is issued and that TypeError is what the caller receives. */
  lemma PageActionWithoutPage(call: EngineCall, success: Message, outcomes: seq<Outcome>)
    requires DefaultRetries <= |outcomes|
    ensures var e := PageActionEffect(None, call, success, outcomes);
      && e.result == Failed(NullReceiver)
      && e.issued == []
      && CountLevel(e.logged, Warn) == DefaultRetries
  {
    var attempts := PageAttempts(None, outcomes);
    RetryExhausts(attempts, DefaultRetries);
    RetryLogsPerFailure(attempts, DefaultRetries);
    CountFailedAllFailed(attempts[..DefaultRetries]);
    var e := PageActionEffect(None, call, success, outcomes);
    assert e.logged == RetryReportFor(attempts, DefaultRetries).trace;
  }
}
