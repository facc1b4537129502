/** The per-thread session registry: one WebDriver per thread, created on the
    first launch from configuration and handed out afterwards.

    Configuration is an input map from property name to value; a missing key
    takes the default the code passes to the property lookup. Starting a
    browser is the allocation of a fresh WebDriver carrying its capabilities. */
module DriverManager {
  import opened Selenium
  import opened Strings

  /** Identity of the calling thread. */
  type ThreadId = nat

  type Config = map<string, string>

  const BrowserKey := "browser"
  const PlatformKey := "platform"
  const HeadlessKey := "headless"
  const BrowserDefault := "CHROME"
  const PlatformDefault := "local"
  const HeadlessDefault := "false"

  const PageLoadTimeoutSeconds: nat := 30

  const NotInitializedMessage :=
    "WebDriver is not initialized. Please initialize the WebDriver before launching the browser."

  /** A property lookup with a default. */
  function GetProperty(config: Config, key: string, default: string): string {
    if key in config then config[key] else default
  }

  /** The browser name the launch dispatches on: the configured one, upper-cased. */
  function BrowserSetting(config: Config): string {
    ToUpper(GetProperty(config, BrowserKey, BrowserDefault))
  }

  /** The platform the launch dispatches on: the configured one, upper-cased. */
  function PlatformSetting(config: Config): string {
    ToUpper(GetProperty(config, PlatformKey, PlatformDefault))
  }

  predicate Headless(config: Config) {
    ParseBoolean(GetProperty(config, HeadlessKey, HeadlessDefault))
  }

  /** The startup arguments each kind receives in headless mode. */
  function HeadlessArguments(kind: BrowserKind): seq<string> {
    match kind
    case Chrome => ["--headless=new", "--disable-gpu"]
    case Firefox => ["--headless", "--disable-gpu"]
  }

  /** The options object built for `kind`: empty unless headless is configured. */
  function OptionsFor(kind: BrowserKind, config: Config): Capabilities {
    Capabilities(kind, if Headless(config) then HeadlessArguments(kind) else [])
  }

  /** The browser switch of the local path, on an already upper-cased name. */
  function LocalOptions(browser: string, config: Config): Result<Capabilities> {
    match browser
    case "CHROME" => Ok(OptionsFor(Chrome, config))
    case "FIREFOX" => Ok(OptionsFor(Firefox, config))
    case _ => Err(Runtime("Invalid browser: " + browser))
  }

  /** The browser switch of the remote path, on an already upper-cased name. */
  function RemoteOptions(browser: string, config: Config): Result<Capabilities> {
    match browser
    case "CHROME" => Ok(OptionsFor(Chrome, config))
    case "FIREFOX" => Ok(OptionsFor(Firefox, config))
    case _ => Err(Runtime("Invalid remote browser: " + browser))
  }

  /** What a launch on an unbound thread builds under `config`, or why it fails. */
  function Plan(config: Config): Result<Capabilities> {
    if EqualsIgnoreCase(PlatformSetting(config), "local") then LocalOptions(BrowserSetting(config), config)
    else RemoteOptions(BrowserSetting(config), config)
  }

  /** The remote path accepts exactly the browsers the local path accepts and
      builds the same options; only the error message differs. */
  lemma RemoteMatchesLocal(browser: string, config: Config)
    ensures RemoteOptions(browser, config).Ok? == LocalOptions(browser, config).Ok?
    ensures LocalOptions(browser, config).Ok? ==>
      RemoteOptions(browser, config).value == LocalOptions(browser, config).value
    ensures LocalOptions(browser, config).Err? ==>
      LocalOptions(browser, config).error == Runtime("Invalid browser: " + browser) &&
      RemoteOptions(browser, config).error == Runtime("Invalid remote browser: " + browser)
  {
  }

  /** The local path is taken exactly when the upper-cased platform is LOCAL. */
  lemma PlatformRouting(config: Config)
    ensures Plan(config) == if PlatformSetting(config) == "LOCAL"
                            then LocalOptions(BrowserSetting(config), config)
                            else RemoteOptions(BrowserSetting(config), config)
  {
    EqualsIgnoreCaseIffSameUpper(PlatformSetting(config), "local");
    ToUpperIdempotent(GetProperty(config, PlatformKey, PlatformDefault));
    assert ToUpper("local") == "LOCAL";
  }

  /** Only CHROME and FIREFOX, in any letter case, are accepted; the kind
      follows the name, and anything else is rejected with the upper-cased
      name on whichever path the platform selects. */
  lemma SupportedBrowsers(config: Config)
    ensures Plan(config).Ok? <==> BrowserSetting(config) in {"CHROME", "FIREFOX"}
    ensures Plan(config).Ok? ==>
      Plan(config).value.kind == if BrowserSetting(config) == "CHROME" then Chrome else Firefox
    ensures Plan(config).Err? ==>
      Plan(config).error == Runtime((if PlatformSetting(config) == "LOCAL" then "Invalid browser: "
                                     else "Invalid remote browser: ") + BrowserSetting(config))
  {
    PlatformRouting(config);
  }

  /** The headless flag alone decides the startup arguments: none when it is
      false, the kind's headless arguments when it is true. */
  lemma HeadlessDecidesArguments(config: Config)
    requires Plan(config).Ok?
    ensures !Headless(config) ==> Plan(config).value.arguments == []
    ensures Headless(config) ==>
      Plan(config).value.arguments == (if Plan(config).value.kind == Chrome then ["--headless=new", "--disable-gpu"]
                                       else ["--headless", "--disable-gpu"])
  {
  }

  /** Browser names that differ only in letter case launch the same thing. */
  lemma BrowserCaseInsensitive(config: Config, a: string, b: string)
    requires EqualsIgnoreCase(a, b)
    ensures Plan(config[BrowserKey := a]) == Plan(config[BrowserKey := b])
  {
    EqualsIgnoreCaseIffSameUpper(a, b);
    assert BrowserSetting(config[BrowserKey := a]) == BrowserSetting(config[BrowserKey := b]);
    assert PlatformSetting(config[BrowserKey := a]) == PlatformSetting(config[BrowserKey := b]);
    assert Headless(config[BrowserKey := a]) == Headless(config[BrowserKey := b]);
  }

  /** With nothing configured, a launch builds a local Chrome with no arguments. */
  lemma DefaultsToChrome()
    ensures Plan(map[]) == Ok(Capabilities(Chrome, []))
  {
    assert BrowserSetting(map[]) == "CHROME";
    assert PlatformSetting(map[]) == "LOCAL";
    PlatformRouting(map[]);
    assert !ParseBoolean("false") by {
      assert !CharsMatchIgnoringCase("false"[0], "true"[0]);
    }
  }

  /** Headless local Chrome. */
  lemma HeadlessLocalChrome()
    ensures Plan(map[BrowserKey := "CHROME", PlatformKey := "local", HeadlessKey := "true"])
         == Ok(Capabilities(Chrome, ["--headless=new", "--disable-gpu"]))
  {
    var config := map[BrowserKey := "CHROME", PlatformKey := "local", HeadlessKey := "true"];
    assert GetProperty(config, BrowserKey, BrowserDefault) == "CHROME";
    assert GetProperty(config, PlatformKey, PlatformDefault) == "local";
    assert GetProperty(config, HeadlessKey, HeadlessDefault) == "true";
    assert BrowserSetting(config) == "CHROME";
    PlatformRouting(config);
    assert PlatformSetting(config) == "LOCAL";
    assert ParseBoolean("true");
  }

  /** An unsupported browser such as Safari is rejected with its upper-cased name. */
  lemma SafariRejected()
    ensures Plan(map[BrowserKey := "safari"]) == Err(Runtime("Invalid browser: SAFARI"))
  {
    var config := map[BrowserKey := "safari"];
    assert GetProperty(config, BrowserKey, BrowserDefault) == "safari";
    assert BrowserSetting(config) == "SAFARI";
    assert PlatformSetting(config) == "LOCAL";
    PlatformRouting(config);
    assert "SAFARI" != "CHROME" by { assert "SAFARI"[0] != "CHROME"[0]; }
    assert "Invalid browser: " + "SAFARI" == "Invalid browser: SAFARI";
  }

  /** No two threads are bound to the same driver. */
  ghost predicate Distinct(drivers: map<ThreadId, WebDriver>) {
    forall t, u :: t in drivers && u in drivers && t != u ==> drivers[t] != drivers[u]
  }

  /** Binding an unbound thread to a driver no thread holds keeps drivers distinct. */
  lemma BindKeepsDistinct(drivers: map<ThreadId, WebDriver>, t: ThreadId, d: WebDriver)
    requires Distinct(drivers) && t !in drivers && d !in drivers.Values
    ensures Distinct(drivers[t := d])
  {
    forall u | u in drivers ensures drivers[u] != d {
      assert drivers[u] in drivers.Values;
    }
  }

  /** The process-wide registry: the thread-local driver slot of every thread. */
  class DriverManager {
    var drivers: map<ThreadId, WebDriver>

    /** No two threads share a driver. */
    ghost predicate Valid()
      reads this
    {
      Distinct(drivers)
    }

    constructor ()
      ensures Valid() && drivers == map[]
    {
      drivers := map[];
    }

    /** The calling thread's driver; an error when none was launched on it. */
    method GetDriver(t: ThreadId) returns (r: Result<WebDriver>)
      ensures r.Ok? <==> t in drivers
      ensures r.Ok? ==> r.value == drivers[t]
      ensures r.Err? ==> r.error == IllegalState(NotInitializedMessage)
    {
      if t !in drivers {
        r := Err(IllegalState(NotInitializedMessage));
        return;
      }
      r := Ok(drivers[t]);
    }

    /** The calling thread's driver, starting and binding one first when the
        thread has none. A new driver has its cookies deleted and its window
        maximised before it is bound; `cookiesReply` and `maximizeReply` are the
        engine's answers to those two commands. A failed start, or a failure of
        either command, leaves the thread unbound and issues nothing after it. */
    method LaunchBrowser(t: ThreadId, config: Config, cookiesReply: Result<()>, maximizeReply: Result<()>)
      returns (r: Result<WebDriver>)
      requires Valid()
      modifies this
      ensures Valid()
      ensures t in old(drivers) ==> r == Ok(old(drivers)[t]) && drivers == old(drivers)
      ensures t !in old(drivers) && Plan(config).Err? ==>
        r == Err(Plan(config).error) && drivers == old(drivers)
      ensures t !in old(drivers) && Plan(config).Ok? && cookiesReply.Err? ==>
        r == Err(cookiesReply.error) && drivers == old(drivers)
      ensures t !in old(drivers) && Plan(config).Ok? && cookiesReply.Ok? && maximizeReply.Err? ==>
        r == Err(maximizeReply.error) && drivers == old(drivers)
      ensures t !in old(drivers) && Plan(config).Ok? && cookiesReply.Ok? && maximizeReply.Ok? ==>
        r.Ok? && fresh(r.value) &&
        r.value.capabilities == Plan(config).value &&
        r.value.log == [DriverCommand.DeleteAllCookies, DriverCommand.MaximizeWindow] &&
        drivers == old(drivers)[t := r.value]
    {
      if t in drivers {
        r := Ok(drivers[t]);
        return;
      }
      var made := StartBrowser(config);
      if made.Err? {
        r := Err(made.error);
        return;
      }
      var driver := made.value;
      var cleared := driver.DeleteAllCookies(cookiesReply);
      if cleared.Err? {
        r := Err(cleared.error);
        return;
      }
      var maximized := driver.MaximizeWindow(maximizeReply);
      if maximized.Err? {
        r := Err(maximized.error);
        return;
      }
      assert driver !in drivers.Values;
      BindKeepsDistinct(drivers, t, driver);
      drivers := drivers[t := driver];
      r := Ok(driver);
    }

    /** Sets the page-load timeout of the calling thread's driver and opens
        `url`; `timeoutReply` and `loadReply` are the engine's answers to the
        two commands. A failed timeout setting stops before the navigation. */
    method Navigate(t: ThreadId, url: string, timeoutReply: Result<()>, loadReply: Result<()>)
      returns (r: Result<()>)
      requires Valid()
      modifies if t in drivers then {drivers[t]} else {}
      ensures t !in drivers ==> r == Err(IllegalState(NotInitializedMessage))
      ensures t in drivers && timeoutReply.Err? ==>
        r == timeoutReply &&
        drivers[t].log == old(drivers[t].log) + [DriverCommand.SetPageLoadTimeout(PageLoadTimeoutSeconds)]
      ensures t in drivers && timeoutReply.Ok? ==>
        r == loadReply &&
        drivers[t].log == old(drivers[t].log)
          + [DriverCommand.SetPageLoadTimeout(PageLoadTimeoutSeconds), DriverCommand.Get(url)]
      ensures forall u :: u in drivers && u != t ==> drivers[u].log == old(drivers[u].log)
    {
      var d := GetDriver(t);
      if d.Err? {
        r := Err(d.error);
        return;
      }
      var timed := d.value.SetPageLoadTimeout(PageLoadTimeoutSeconds, timeoutReply);
      if timed.Err? {
        r := timed;
        return;
      }
      var again := GetDriver(t);
      r := again.value.Get(url, loadReply);
    }

    /** The construction step of a launch: reads browser and platform and
        dispatches to the local or the remote path. */
    static method StartBrowser(config: Config) returns (r: Result<WebDriver>)
      ensures Plan(config).Err? ==> r == Err(Plan(config).error)
      ensures Plan(config).Ok? ==>
        r.Ok? && fresh(r.value) && r.value.log == [] && r.value.capabilities == Plan(config).value
    {
      var browser := BrowserSetting(config);
      var platform := PlatformSetting(config);
      if EqualsIgnoreCase(platform, "local") {
        r := LocalWebdriver(browser, config);
      } else {
        r := RemoteWebDriver(browser, config);
      }
    }

    /** Starts a local browser of the named kind. */
    static method LocalWebdriver(browser: string, config: Config) returns (r: Result<WebDriver>)
      ensures LocalOptions(browser, config).Err? ==> r == Err(LocalOptions(browser, config).error)
      ensures LocalOptions(browser, config).Ok? ==>
        r.Ok? && fresh(r.value) && r.value.log == [] &&
        r.value.capabilities == LocalOptions(browser, config).value
    {
      var options := LocalOptions(browser, config);
      if options.Err? {
        r := Err(options.error);
        return;
      }
      var driver := new WebDriver(options.value);
      r := Ok(driver);
    }

    /** The remote path: it starts the same local browsers as LocalWebdriver. */
    static method RemoteWebDriver(browser: string, config: Config) returns (r: Result<WebDriver>)
      ensures RemoteOptions(browser, config).Err? ==> r == Err(RemoteOptions(browser, config).error)
      ensures RemoteOptions(browser, config).Ok? ==>
        r.Ok? && fresh(r.value) && r.value.log == [] &&
        r.value.capabilities == RemoteOptions(browser, config).value
    {
      var options := RemoteOptions(browser, config);
      if options.Err? {
        r := Err(options.error);
        return;
      }
      var driver := new WebDriver(options.value);
      r := Ok(driver);
    }
  }
}
