# Element retry policy and per-thread driver registry

A Dafny model of the two parts of the UI-test automation framework that make
decisions of their own rather than delegating to Selenium:

- **`ElementActions`** resolves a `By` locator to a live element with a bounded
  retry loop: at most three attempts, each one an explicit wait for visibility
  followed by highlighting the element with a script. A stale element reference
  is retried, unless it happened on the last attempt, where it becomes an
  `ElementNotVisibleException` ("remained stale after retries"). A timeout or a
  missing element fails at once as an `ElementNotVisibleException` ("could not
  be found"). Any other exception is rethrown unchanged. The user actions
  `click`, `sendKeys`, `isDisplayed`, `getText` and the three `select*` helpers
  are fixed call sequences over this loop. `isDisplayed` never throws.
- **`DriverManager`** keeps one `WebDriver` per thread, which the code stores in
  a `ThreadLocal`. `launchBrowser` builds a driver on the first call and returns
  the bound one after that. Which browser it builds, and with which startup
  arguments, depends on the `browser`, `platform` and `headless` properties.
  `getDriver` refuses a thread that has no driver, and so does `navigate`,
  which goes through it.

How the engine is represented:

- Every answer the engine gives is an input. `polls: nat -> Attempt` gives what
  attempt `i` of one resolution produces: the wait throws, or the wait yields an
  element and the highlighting script throws, or both succeed. Each element
  command's answer is a separate `reply` parameter, and so is the answer to
  each session command (deleting cookies, maximising the window, setting the
  page-load timeout, opening a URL).
- Every element-action method returns the `Command`s it issued to the engine, in
  order. These traces are what the "resolves once, clicks once" and "no step
  after a failure" properties are stated over.
- A `WebDriver` is a class holding its capabilities (browser kind and startup
  arguments) and a log of the session commands it received. Starting a browser
  is the allocation of a fresh `WebDriver`. The registry is a class whose field
  is a `map<ThreadId, WebDriver>`.
- Configuration is an input `map<string, string>`. A missing key takes the
  default the code passes to the property lookup: `browser` is "CHROME",
  `platform` is "local", `headless` is "false".

Files: `Selenium.dfy` holds the engine's types and the `WebDriver` class.
`Strings.dfy` holds `toUpperCase`, `equalsIgnoreCase` and
`Boolean.parseBoolean` over ASCII. `ElementActions.dfy` and `DriverManager.dfy`
model the two source files.

Three behaviours of the code that one might expect otherwise, and that the model keeps as written:

- The remote path of `DriverManager` reads no grid URL, cannot fail on a
  malformed one, and builds no remote session. It starts the same Chrome or
  Firefox driver, with the same options, as the local path. Only its error
  message differs ("Invalid remote browser: ").
- A staleness on the third attempt becomes an `ElementNotVisibleException`
  (`ElementNotVisible` here) with the "remained stale" message. A timeout or a
  missing element becomes the same exception class with the "could not be
  found" message. There are no separate exception types for an unstable element
  and an absent one.
- `sendKeys` resolves the locator twice. It clears the first element and types
  into the second. The model keeps both resolutions.

## Model

| member | source | states |
|---|---|---|
| `ElementActions.ResolveFrom` | src/main/java/com/framework/utils/ElementActions.java:25-46 | started inside the loop, a resolution makes between 1 and 3 attempts; every attempt before the deciding one was stale; a stale attempt decides only as the third; the result is the verdict of the deciding attempt, so the throw after the loop is never reached |
| `ElementActions.SettlesAt` | src/main/java/com/framework/utils/ElementActions.java:26-41 | k stale attempts followed by a non-stale one (k < 3) end with that attempt's verdict after exactly k+1 attempts |
| `ElementActions.FoundFirst` | src/main/java/com/framework/utils/ElementActions.java:26-30 | an element found and highlighted on the first attempt is returned after one attempt |
| `ElementActions.StaleThenFound` | src/main/java/com/framework/utils/ElementActions.java:26-35 | k < 3 stale attempts and then a found element return that element after k+1 attempts |
| `ElementActions.AllStale` | src/main/java/com/framework/utils/ElementActions.java:31-35 | three stale attempts fail with ElementNotVisible("Element remained stale after retries: " + locator), wrapping the third staleness, after exactly 3 attempts |
| `ElementActions.AbsentFailsFast` | src/main/java/com/framework/utils/ElementActions.java:36-38 | a timeout or a missing element on attempt k fails at once with ElementNotVisible("Element could not be found: " + locator), wrapping it, after k+1 attempts |
| `ElementActions.OtherRethrown` | src/main/java/com/framework/utils/ElementActions.java:28-41 | any other failure on attempt k, from the wait or from the highlighting script, is rethrown unchanged after k+1 attempts |
| `ElementActions.NoRawLookupFailure` | src/main/java/com/framework/utils/ElementActions.java:31-41 | a failed resolution never throws a raw staleness, timeout or missing-element exception; what escapes is the deciding (last) attempt's own failure, or the stale or not-found wrapper carrying that failure as its cause, and that attempt did not locate the element |
| `ElementActions.NoFurtherAttempts` | src/main/java/com/framework/utils/ElementActions.java:26-45 | the resolution is the same whatever the engine would answer after the deciding attempt, so no later attempt is made |
| `ElementActions.CommandsCounts` | src/main/java/com/framework/utils/ElementActions.java:28-29 | n attempts issue exactly n waits and no user action |
| `ElementActions.ElementActions.constructor` | src/main/java/com/framework/utils/ElementActions.java:19-23 | the helpers are bound to the given driver with an 8-second wait |
| `ElementActions.ElementActions.GetElement` | src/main/java/com/framework/utils/ElementActions.java:25-46 | the loop returns exactly the resolution `Resolve` specifies, 1 to 3 attempts, and the commands of exactly those attempts |
| `ElementActions.ElementActions.Click` | src/main/java/com/framework/utils/ElementActions.java:52-55 | one resolution and, only if it succeeds, one click on the resolved element; a failed resolution's exception propagates; the waits issued equal the attempts made |
| `ElementActions.ElementActions.SendKeys` | src/main/java/com/framework/utils/ElementActions.java:57-62 | resolve, clear the first element, resolve again, type into the second element; each failure stops every later step and propagates; the trace holds exactly the waits of the resolutions that ran |
| `ElementActions.ElementActions.IsDisplayed` | src/main/java/com/framework/utils/ElementActions.java:64-78 | never fails; true exactly when the resolution succeeds and the element reports itself displayed; every failure answers false |
| `ElementActions.ElementActions.GetText` | src/main/java/com/framework/utils/ElementActions.java:80-82 | the element's text after one resolution, or the resolution's or the engine's exception |
| `ElementActions.ElementActions.SelectByValue` | src/main/java/com/framework/utils/ElementActions.java:84-88 | the trace is exactly the resolution's commands, followed by one select-by-value on the resolved element only if the resolution succeeded; a resolution error is returned, otherwise the engine's answer; one visibility wait per attempt |
| `ElementActions.ElementActions.SelectByVisibleText` | src/main/java/com/framework/utils/ElementActions.java:90-94 | the trace is exactly the resolution's commands, followed by one select-by-visible-text on the resolved element only if the resolution succeeded; a resolution error is returned, otherwise the engine's answer; one visibility wait per attempt |
| `ElementActions.ElementActions.SelectByIndex` | src/main/java/com/framework/utils/ElementActions.java:96-100 | the trace is exactly the resolution's commands, followed by one select-by-index on the resolved element only if the resolution succeeded; a resolution error is returned, otherwise the engine's answer; one visibility wait per attempt |
| `Strings.ToUpper` | src/main/java/com/framework/driver/DriverManager.java:42-43 | upper-casing keeps the length and upper-cases every character |
| `Strings.EqualsIgnoreCaseIffSameUpper` | src/main/java/com/framework/driver/DriverManager.java:45 | two strings are equal ignoring case exactly when their upper-cased forms are equal |
| `DriverManager.PlatformRouting` | src/main/java/com/framework/driver/DriverManager.java:43-49 | the local path is taken exactly when the upper-cased platform is LOCAL; every other value takes the remote path |
| `DriverManager.SupportedBrowsers` | src/main/java/com/framework/driver/DriverManager.java:62-107 | a launch plan succeeds exactly when the upper-cased browser is CHROME or FIREFOX, with the matching kind; otherwise it fails with "Invalid browser: " or "Invalid remote browser: " plus the upper-cased name, following the platform |
| `DriverManager.RemoteMatchesLocal` | src/main/java/com/framework/driver/DriverManager.java:85-107 | the remote path accepts the same browsers and builds the same kind and arguments as the local path; only the error message differs |
| `DriverManager.HeadlessDecidesArguments` | src/main/java/com/framework/driver/DriverManager.java:66-81 | without headless the options carry no arguments; with headless, Chrome gets --headless=new, --disable-gpu and Firefox gets --headless, --disable-gpu |
| `DriverManager.BrowserCaseInsensitive` | src/main/java/com/framework/driver/DriverManager.java:42 | browser names equal ignoring case produce the same launch plan |
| `DriverManager.DefaultsToChrome` | src/main/java/com/framework/driver/DriverManager.java:42-43 | with nothing configured the plan is a local Chrome with no arguments |
| `DriverManager.HeadlessLocalChrome` | src/main/java/com/framework/driver/DriverManager.java:62-74 | browser CHROME, platform local and headless true give Chrome with --headless=new and --disable-gpu |
| `DriverManager.SafariRejected` | src/main/java/com/framework/driver/DriverManager.java:80-81 | browser "safari" is rejected with "Invalid browser: SAFARI" before any driver is built |
| `DriverManager.DriverManager.constructor` | src/main/java/com/framework/driver/DriverManager.java:21 | the registry starts with no thread bound |
| `DriverManager.DriverManager.GetDriver` | src/main/java/com/framework/driver/DriverManager.java:28-34 | succeeds exactly when the thread is bound, returning its driver; otherwise an IllegalStateException with the "not initialized" message |
| `DriverManager.DriverManager.LaunchBrowser` | src/main/java/com/framework/driver/DriverManager.java:36-55 | a bound thread gets its driver back and nothing changes; on an unbound thread a failed plan, or a failure of deleting cookies or of maximising (which is then not issued), fails with that error and leaves the registry unchanged; otherwise it binds a fresh driver with the planned capabilities whose log is exactly delete-cookies then maximise; only this thread's slot changes, and no two threads share a driver |
| `DriverManager.DriverManager.StartBrowser` | src/main/java/com/framework/driver/DriverManager.java:42-49 | the construction step yields a fresh driver with the planned capabilities, or the plan's error |
| `DriverManager.DriverManager.Navigate` | src/main/java/com/framework/driver/DriverManager.java:57-61 | an unbound thread gets the getDriver error; a bound one gets the page-load timeout of 30 seconds set, and a failure there is returned with no navigation issued; otherwise the navigation request follows and its answer is returned; no other thread's driver is touched |
| `DriverManager.DriverManager.LocalWebdriver` | src/main/java/com/framework/driver/DriverManager.java:62-83 | a supported name yields a fresh driver with the local options; any other name yields "Invalid browser: " plus the name and builds nothing |
| `DriverManager.DriverManager.RemoteWebDriver` | src/main/java/com/framework/driver/DriverManager.java:85-107 | a supported name yields a fresh driver with the same options as the local path; any other name yields "Invalid remote browser: " plus the name and builds nothing |

## Left out

- The explicit wait's polling, `ExpectedConditions` and the 8-second and 30-second timeouts as time. Each wait is one oracle answer, and the timeouts are constants.
- The highlighting script's effect on the page. It is a command in the trace whose failure is part of the attempt's answer.
- Option matching inside `Select`. Wrapping the element and selecting are one engine answer together.
- Logging. None of the slf4j calls has observable behaviour.
- Driver-binary setup (`WebDriverManager.*().setup()`) and real browser start-up. These are I/O; starting a browser is the allocation of a fresh `WebDriver`.
- `ConfigReader` is not part of this model. It loads a properties file on every lookup. The model takes configuration as an input map with the code's defaults.
- `JsonReader` is not part of this model. It wraps Jackson deserialisation and file access.
- The unused `configReader` instance field of `DriverManager`. It has no behaviour.
- Real concurrency. Thread isolation is the per-key separation of the registry map. Interleavings are not modelled.
- Exceptions that are not `Exception`s (Java `Error`s). They would escape even `isDisplayed`; the model has none.
- Strings.ToUpper: upper-cases ASCII letters only. Java's `toUpperCase` is Unicode- and locale-aware: under a Turkish locale "firefox" becomes "FİREFOX" and is rejected, and "ı" becomes "I".
- Strings.EqualsIgnoreCaseIffSameUpper: holds for the ASCII case mapping of the model; Java's `equalsIgnoreCase` also folds non-ASCII letters.
