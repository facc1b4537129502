/** The browser-automation engine as the framework sees it: exceptions it can
    raise, locators and element handles, the scripted outcome of one wait for
    an element, the commands the framework issues, and the WebDriver session
    handle. The engine's own behaviour is not modelled; its answers are inputs. */
module Selenium {

  /** A `By` locator: a strategy such as "id" or "xpath" and its selector. */
  datatype Locator = Locator(strategy: string, selector: string)

  /** How a locator prints (By.toString), e.g. "By.id: username". */
  function Describe(l: Locator): string {
    "By." + l.strategy + ": " + l.selector
  }

  /** The exceptions the modelled code raises or catches. Any other engine
      failure is `Unexpected`, identified by its class name. */
  datatype Exception =
    | StaleElementReference
    | Timeout
    | NoSuchElement
    | ElementNotVisible(message: string, cause: Exception)
    | IllegalState(message: string)
    | Runtime(message: string)
    | Unexpected(name: string)

  datatype Result<+T> = Ok(value: T) | Err(error: Exception)

  /** A live WebElement reference. */
  datatype Element = Element(id: nat)

  /** What one attempt to resolve a locator produces: the wait throws, or the
      wait yields an element and the highlighting script then throws, or both
      succeed. */
  datatype Attempt =
    | WaitFails(failure: Exception)
    | HighlightFails(element: Element, failure: Exception)
    | Located(element: Element)

  /** The three strategies of the Select helper. */
  datatype Choice = ByValue(value: string) | ByVisibleText(text: string) | ByIndex(index: int)

  /** Element-level commands issued to the engine, in the order issued. */
  datatype Command =
    | AwaitVisible(locator: Locator)
    | Highlight(element: Element)
    | Click(element: Element)
    | Clear(element: Element)
    | SendKeys(element: Element, keys: seq<string>)
    | GetText(element: Element)
    | IsDisplayed(element: Element)
    | SelectOption(element: Element, choice: Choice)

  datatype BrowserKind = Chrome | Firefox

  /** The browser kind and the startup arguments put into its options object. */
  datatype Capabilities = Capabilities(kind: BrowserKind, arguments: seq<string>)

  /** Session-level commands issued to a driver. */
  datatype DriverCommand =
    | DeleteAllCookies
    | MaximizeWindow
    | SetPageLoadTimeout(seconds: nat)
    | Get(url: string)

  /** One browser session. Construction stands for starting the browser. */
  class WebDriver {
    const capabilities: Capabilities
    var log: seq<DriverCommand>

    constructor (capabilities: Capabilities)
      ensures this.capabilities == capabilities && log == []
    {
      this.capabilities := capabilities;
      log := [];
    }

    /** Each session command is logged as issued; `reply` is the engine's
        answer to it. */
    method DeleteAllCookies(reply: Result<()>) returns (r: Result<()>)
      modifies this
      ensures log == old(log) + [DriverCommand.DeleteAllCookies]
      ensures r == reply
    {
      log := log + [DriverCommand.DeleteAllCookies];
      r := reply;
    }

    method MaximizeWindow(reply: Result<()>) returns (r: Result<()>)
      modifies this
      ensures log == old(log) + [DriverCommand.MaximizeWindow]
      ensures r == reply
    {
      log := log + [DriverCommand.MaximizeWindow];
      r := reply;
    }

    method SetPageLoadTimeout(seconds: nat, reply: Result<()>) returns (r: Result<()>)
      modifies this
      ensures log == old(log) + [DriverCommand.SetPageLoadTimeout(seconds)]
      ensures r == reply
    {
      log := log + [DriverCommand.SetPageLoadTimeout(seconds)];
      r := reply;
    }

    /** Requests navigation; `reply` is the engine's answer to the request. */
    method Get(url: string, reply: Result<()>) returns (r: Result<()>)
      modifies this
      ensures log == old(log) + [DriverCommand.Get(url)]
      ensures r == reply
    {
      log := log + [DriverCommand.Get(url)];
      r := reply;
    }
  }
}
