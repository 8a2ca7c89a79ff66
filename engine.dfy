/** The vocabulary shared by the retry policy and the driver: the opaque
    handles of the browser-automation engine, what an engine call can
    produce, and the leveled log lines the driver emits. Nothing here says
    how the engine behaves; its answers are always supplied from outside. */
module Engine {

  /** Opaque engine handles: a browser process, a browsing context, a page. */
  type Browser
  type Context
  type Page

  /** Whatever value an engine call rejects with. */
  type EngineError

  /** A JavaScript object slot that may hold `null`; the driver tests its
      fields for truthiness, which for handles means `Some`. */
  datatype Option<T> = None | Some(value: T)

  /** Why an action threw: the engine rejected, or a method was called on a
      field that still holds `null` (a TypeError in the source). */
  datatype Failure = Thrown(error: EngineError) | NullReceiver

  /** How one awaited call settled: it returned, or it threw. */
  datatype Outcome = Done | Failed(failure: Failure)

  /** An engine call that yields a value. */
  datatype Result<T> = Ok(value: T) | Err(error: EngineError)

  datatype Level = Info | Warn | Error

  /** The kinds of line the driver logs; the free text is left out and only
      what varies in it (an attempt number, a URL, a selector) is kept. */
  datatype Message =
    | Initialized
    | Waiting(ms: int)
    | Navigated(url: string)
    | Clicked(selector: string)
    | Filled(selector: string, value: string)
    | Hovered(selector: string)
    | NoNewWindow
    | SwitchedToNewPage
    | SwitchedBack
    | NoPreviousPage
    | AttemptFailed(attempt: int)
    | MaxRetriesReached
    | BrowserClosed

  datatype LogEntry = LogEntry(level: Level, message: Message)

  /** The calls the driver issues to the engine, in the order it issues them. */
  datatype EngineCall =
    | Launch(headless: bool)
    | NewContext
    | NewPage
    | WaitForPageEvent
    | Goto(url: string)
    | Click(selector: string)
    | Fill(selector: string, value: string)
    | Hover(selector: string)
    | CloseBrowser

  /** Number of entries of `trace` logged at `level`. */
  function CountLevel(trace: seq<LogEntry>, level: Level): (n: nat)
    ensures n <= |trace|
    ensures n == 0 <==> forall i :: 0 <= i < |trace| ==> trace[i].level != level
  {
    if trace == [] then 0
    else CountLevel(trace[..|trace| - 1], level) + (if trace[|trace| - 1].level == level then 1 else 0)
  }

  lemma CountLevelSnoc(trace: seq<LogEntry>, entry: LogEntry, level: Level)
    ensures CountLevel(trace + [entry], level)
         == CountLevel(trace, level) + (if entry.level == level then 1 else 0)
  {
  }
}
