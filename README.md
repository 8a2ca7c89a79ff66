# PlaywrightDriver: retry loop and page bookkeeping

A Dafny model of `PlaywrightDriver`, the one class of the playwright-base
helper that has logic of its own. Everything else the class does is a call
into the Playwright browser-automation engine, and the model treats those
calls as opaque. What is modelled:

- **`retry(action, retries = 3)`**, a bounded loop. It invokes an action
  until one invocation returns, at most `retries` times. Every failed
  invocation logs a warning. When the last permitted invocation fails, it
  logs an error, starts `wait(500)` and rethrows that invocation's error
  unchanged.
- **The page bookkeeping** over the fields `browser`, `context`, `page` and
  `previousPage`: the constructor, `init`, `switchToNewPage`, `switchBack`
  and `close`.
- **`goTo`, `click`, `fill` and `hover`**, each `retry` around one engine
  call on the current page.

Files:

- `engine.dfy` (module `Engine`) holds the shared vocabulary. It has the
  opaque handle types, the way an awaited call settles (`Outcome`,
  `Result`), log entries as (level, message kind) and the engine calls the
  driver issues.
- `retry_policy.dfy` (module `RetryPolicy`) gives `retry` a loop-free
  specification, `RetryReportFor`, with the lemmas that state its promises.
- `driver.dfy` (module `Driver`) holds the class `PlaywrightDriver`, whose
  methods update the fields in place. The loop `Retry` is proved equal to
  `RetryReportFor`. The pure functions `AfterSwitchToNewPage` and
  `AfterSwitchBack` give the new handles, and lemmas about them cover the
  switch/switch-back round trip.

Modelling choices:

- An action is the sequence of outcomes its successive invocations would
  have: `outcomes[i]` is how invocation `i + 1` settles. The caller supplies
  at least `retries` of them.
- A handle field that may be `null` is an `Option`. The source tests these
  fields for truthiness, and a handle is truthy exactly when it is present.
- Calling a method on a `null` field throws a TypeError, here
  `Failure.NullReceiver`. In `goTo`/`click`/`fill`/`hover` that throw happens
  inside the retried action, so with no current page every attempt fails
  and is retried, and the TypeError is rethrown (`PageAttempts`).
- The process-wide logger is the driver's `log` field, which each method
  extends. The engine calls the driver issues are recorded in its `calls`
  field. `Retry` changes no field: it returns the lines it would log, and
  its callers append them.
- How the engine answers is always a parameter: the launch, context and
  page results of `init`, the page event of `switchToNewPage`, the outcomes
  of a page action, and how `browser.close()` settles.

Behaviour of the code worth noting:

- Every failed attempt logs one warning, the last one included, before the
  error line (app/playwright-driver/playwright-driver.js:117-119). Three
  failed attempts therefore log three warnings and then the error line.
- The final error is rethrown exactly as it was caught, not wrapped
  (app/playwright-driver/playwright-driver.js:121).
- `this.wait(500)` is called but not awaited. Its info line is logged, and
  then the error is thrown at once, with no delay before it.
- `close()` does not reset `browser`. Calling it again closes the browser
  again (`Close` states this), so it is not idempotent.
- `init` defaults `headless` to `true` and `retry` defaults `retries` to 3;
  `Init` and `Retry` take the same defaults.

## Model

| member | source | states |
|---|---|---|
| `Driver.PlaywrightDriver.constructor` | app/playwright-driver/playwright-driver.js:5-10 | a new driver has all four handle fields `null`, and nothing is logged or issued |
| `Driver.PlaywrightDriver.Init` | app/playwright-driver/playwright-driver.js:16-21 | launch, new context and new page run in order and stop at the first rejection, which is rethrown; the fields already set stay set and the later ones are unchanged; the ready line is logged only on success |
| `Driver.PlaywrightDriver.Wait` | app/playwright-driver/playwright-driver.js:27-30 | `wait(ms)` logs one info line naming `ms` and changes no handle |
| `Driver.PlaywrightDriver.Retry` | app/playwright-driver/playwright-driver.js:111-125 | the loop's result, invocation count and logged lines are exactly those of the loop-free specification `RetryReportFor` |
| `RetryPolicy.FirstDone` | app/playwright-driver/playwright-driver.js:112-115 | the index of the first invocation that returns: every earlier one threw, and the one at that index returned unless the bound was reached |
| `RetryPolicy.RetryNonPositive` | app/playwright-driver/playwright-driver.js:112 | with `retries <= 0` the action is never invoked, nothing is logged and `retry` returns normally |
| `RetryPolicy.RetrySucceedsOnAttempt` | app/playwright-driver/playwright-driver.js:112-117 | if invocation `k <= retries` is the first to return, the action is invoked exactly `k` times, `retry` returns normally and logs exactly the warnings for attempts 1 to `k - 1` |
| `RetryPolicy.RetryExhausts` | app/playwright-driver/playwright-driver.js:116-122 | if all `retries >= 1` invocations throw, the action is invoked exactly `retries` times and the last invocation's failure is rethrown unchanged, after one warning per attempt, the error line and the info line of `wait(500)` |
| `RetryPolicy.RetryStopsAtFirstSuccess` | app/playwright-driver/playwright-driver.js:111-125 | for any action: at most `retries` invocations, and at least one when `retries >= 1`; every invocation but the last threw; `retry` settles as its last invocation did; it throws if and only if `retries >= 1` and all `retries` invocations threw |
| `RetryPolicy.RetryLogsPerFailure` | app/playwright-driver/playwright-driver.js:117-119 | the warnings logged equal the failed invocations in number, and the error line is logged once exactly when `retry` throws, and never otherwise |
| `RetryPolicy.CountFailedAllFailed` | app/playwright-driver/playwright-driver.js:116-117 | a run of invocations that all threw counts as that many failures |
| `RetryPolicy.FailureWarningsCount` | app/playwright-driver/playwright-driver.js:117 | the warnings for `n` failed attempts are `n` warning lines and no error or info line |
| `Driver.PlaywrightDriver.RetryOnPage` | app/playwright-driver/playwright-driver.js:37-40 | a page action runs `retry` with bound 3 around the engine call; it logs the success line only if the call returned, issues one call per attempt when a page is current and none otherwise, and leaves every handle unchanged |
| `Driver.PlaywrightDriver.GoTo` | app/playwright-driver/playwright-driver.js:36-41 | `goTo(url)` is `retry` around `page.goto(url)` and leaves `browser`, `context`, `page` and `previousPage` unchanged |
| `Driver.PlaywrightDriver.Click` | app/playwright-driver/playwright-driver.js:47-52 | `click(selector)` is `retry` around `page.click(selector)` and leaves every handle unchanged |
| `Driver.PlaywrightDriver.Fill` | app/playwright-driver/playwright-driver.js:59-64 | `fill(selector, value)` is `retry` around `page.fill(selector, value)` and leaves every handle unchanged |
| `Driver.PlaywrightDriver.Hover` | app/playwright-driver/playwright-driver.js:70-75 | `hover(selector)` is `retry` around `page.hover(selector)` and leaves every handle unchanged |
| `Driver.PageActionSucceedsOnAttempt` | app/playwright-driver/playwright-driver.js:36-41 | when the engine call first returns on attempt `k <= 3`, the action issues the call `k` times, returns normally, and logs the warnings for attempts 1 to `k - 1` followed by its success line |
| `Driver.PageActionAlwaysFailing` | app/playwright-driver/playwright-driver.js:47-52 | when the engine call always fails, it is issued three times and the third failure is rethrown, after three warnings and one error line |
| `Driver.PageActionWithoutPage` | app/playwright-driver/playwright-driver.js:36-41 | with no current page, no engine call is issued; three warning lines are logged, one per failed attempt, and the TypeError is rethrown |
| `Driver.PlaywrightDriver.SwitchToNewPage` | app/playwright-driver/playwright-driver.js:81-91 | with a context, the page event is awaited; once a page is delivered, `previousPage` becomes the old `page` and `page` the delivered one, even an absent page, which also logs an error; a rejected wait or a null context throws and changes no field |
| `Driver.PlaywrightDriver.SwitchBack` | app/playwright-driver/playwright-driver.js:96-104 | a present previous page becomes current and the slot is cleared; with the slot empty no handle changes, only a warning is logged, and it never throws |
| `Driver.PlaywrightDriver.Close` | app/playwright-driver/playwright-driver.js:130-135 | the browser's close is issued only when `browser` is present, and its failure is rethrown; with no browser, as on a fresh driver, it returns normally; no field is reset, so a second call closes again |
| `Driver.SwitchBackRestores` | app/playwright-driver/playwright-driver.js:88-99 | switching to a new page and then back restores exactly the page that was current and leaves `previousPage` empty, provided a page was current |
| `Driver.SwitchBackFromNoPageKeepsNewPage` | app/playwright-driver/playwright-driver.js:88-97 | if no page was current, the previous-page slot stays empty after the switch, so switching back keeps the new page current |
| `Driver.SecondSwitchOverwritesPrevious` | app/playwright-driver/playwright-driver.js:88-89 | a second switch overwrites `previousPage` with the first new page, so the page current before both switches can no longer be reached |
| `Driver.SwitchBackIdempotent` | app/playwright-driver/playwright-driver.js:96-104 | switching back with an empty slot changes nothing, and a second switch back changes nothing more |

## Left out

- Promise scheduling and timing: every `await` is modelled as settling
  before the next statement runs. The delay of `wait` is not modelled, only
  its info line.
- How Playwright behaves: `chromium.launch`, `newContext`, `newPage`,
  `waitForEvent('page')`, `goto`/`click`/`fill`/`hover` and `browser.close`
  become parameters giving how each settles. `headless` is recorded in the
  `Launch` call and has no other effect.
- The retried action as a JavaScript closure: it is a sequence of
  per-invocation outcomes. A closure with side effects beyond the one engine
  call and its success line is not modelled.
- `retries` is a JavaScript number, modelled as an integer. Non-integer or
  NaN bounds are not modelled.
- The text of log lines and the logger's configuration
  (app/logger/logger-config.js): a line is its level and message kind, with
  the values it interpolates.
- app/main.js, a fixed demo sequence with no logic of its own.
- Concurrent calls on one driver: the source assumes they are sequential.
