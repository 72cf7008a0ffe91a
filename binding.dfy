/** selenide/binding.py: `Browser.launch`, which turns five flags into the
    command-line arguments of the browser options and picks a local or a
    remote driver by browser name and grid URL. */
module Binding {
  import opened Runtime

  /** `BrowserType`, an enumeration with unique values. */
  datatype BrowserType = Chrome | Firefox | Ie

  /** `BrowserType.<member>.value`. */
  function Value(b: BrowserType): (v: string)
    ensures v == "chrome" || v == "firefox" || v == "ie"
  {
    match b
    case Chrome => "chrome"
    case Firefox => "firefox"
    case Ie => "ie"
  }

  /** The values are pairwise distinct, as `@unique` demands. */
  lemma ValuesDistinct(a: BrowserType, b: BrowserType)
    ensures Value(a) == Value(b) ==> a == b
  {
  }

  /** The flags `launch` passes to `get_options`. `windowSize` is "" for
      every falsy `window_size` (None or ""). */
  datatype Flags = Flags(headless: bool, sandbox: bool, windowSize: string, incognito: bool, infobars: bool)

  /** The defaults in the signature of `launch`. */
  const DEFAULT_FLAGS: Flags := Flags(false, false, "1366x768", false, false)

  const HEADLESS: string := "--headless"
  const NO_SANDBOX: string := "--no-sandbox"
  const WINDOW_SIZE: string := "--window-size="
  const INCOGNITO: string := "--incognito"
  const DISABLE_INFOBARS: string := "--disable-infobars"

  /** The argument `arg` when its condition `on` holds, nothing otherwise. */
  function Flag(on: bool, arg: string): (r: seq<string>)
    ensures |r| <= 1
  {
    if on then [arg] else []
  }

  /** The reference list of arguments for the flags `f`: each of the five
      candidates in the fixed order, kept when its condition holds. */
  function Arguments(f: Flags): (r: seq<string>)
    ensures |r| <= 5
  {
    Flag(!f.headless, HEADLESS) + Flag(!f.sandbox, NO_SANDBOX) +
    Flag(f.windowSize != "", WINDOW_SIZE + f.windowSize) +
    Flag(!f.incognito, INCOGNITO) + Flag(!f.infobars, DISABLE_INFOBARS)
  }

  /** A browser options object (`ChromeOptions`, `FirefoxOptions` or
      `IeOptions`); only its argument list is modelled. */
  class Options {
    var arguments: seq<string>

    constructor ()
      ensures arguments == []
    {
      arguments := [];
    }

    /** `add_argument(arg)`: appends one argument. */
    method AddArgument(arg: string)
      modifies this
      ensures arguments == old(arguments) + [arg]
    {
      arguments := arguments + [arg];
    }
  }

  /** `get_options(options)`: appends to `options` exactly the reference
      arguments for `f`, in their fixed order. */
  method GetOptions(options: Options, f: Flags)
    modifies options
    ensures options.arguments == old(options.arguments) + Arguments(f)
  {
    ghost var start := options.arguments;
    if !f.headless {
      options.AddArgument(HEADLESS);
    }
    ghost var added := Flag(!f.headless, HEADLESS);
    assert options.arguments == start + added;
    if !f.sandbox {
      options.AddArgument(NO_SANDBOX);
    }
    Associative(start, added, Flag(!f.sandbox, NO_SANDBOX));
    added := added + Flag(!f.sandbox, NO_SANDBOX);
    assert options.arguments == start + added;
    if f.windowSize != "" {
      options.AddArgument(WINDOW_SIZE + f.windowSize);
    }
    Associative(start, added, Flag(f.windowSize != "", WINDOW_SIZE + f.windowSize));
    added := added + Flag(f.windowSize != "", WINDOW_SIZE + f.windowSize);
    assert options.arguments == start + added;
    if !f.incognito {
      options.AddArgument(INCOGNITO);
    }
    Associative(start, added, Flag(!f.incognito, INCOGNITO));
    added := added + Flag(!f.incognito, INCOGNITO);
    assert options.arguments == start + added;
    if !f.infobars {
      options.AddArgument(DISABLE_INFOBARS);
    }
    Associative(start, added, Flag(!f.infobars, DISABLE_INFOBARS));
    added := added + Flag(!f.infobars, DISABLE_INFOBARS);
  }

  /** Appending in two steps is appending the two parts at once. */
  lemma Associative(a: seq<string>, b: seq<string>, c: seq<string>)
    ensures a + b + c == a + (b + c)
  {
  }

  /** Where an argument stands in the fixed order; -1 for anything
      `get_options` never adds. */
  function Rank(a: string): (r: int)
    ensures -1 <= r <= 4
  {
    if a == HEADLESS then 0
    else if a == NO_SANDBOX then 1
    else if WINDOW_SIZE <= a then 2
    else if a == INCOGNITO then 3
    else if a == DISABLE_INFOBARS then 4
    else -1
  }

  /** The window-size argument is told apart from the other four by its
      third character. */
  lemma WindowSizeDistinct(w: string)
    ensures WINDOW_SIZE + w != HEADLESS && WINDOW_SIZE + w != NO_SANDBOX
    ensures WINDOW_SIZE + w != INCOGNITO && WINDOW_SIZE + w != DISABLE_INFOBARS
    ensures Rank(WINDOW_SIZE + w) == 2
  {
    var a := WINDOW_SIZE + w;
    assert a[2] == 'w';
    assert a[..|WINDOW_SIZE|] == WINDOW_SIZE;
  }

  /** The four fixed arguments do not start with the window-size prefix and
      stand at ranks 0, 1, 3 and 4. */
  lemma FixedArguments()
    ensures !(WINDOW_SIZE <= HEADLESS) && !(WINDOW_SIZE <= NO_SANDBOX)
    ensures !(WINDOW_SIZE <= INCOGNITO) && !(WINDOW_SIZE <= DISABLE_INFOBARS)
    ensures Rank(HEADLESS) == 0 && Rank(NO_SANDBOX) == 1 && Rank(INCOGNITO) == 3 && Rank(DISABLE_INFOBARS) == 4
  {
    assert |HEADLESS| == 10 && |NO_SANDBOX| == 12 && |INCOGNITO| == 11 && |DISABLE_INFOBARS| == 18;
    assert |WINDOW_SIZE| == 14;
    assert DISABLE_INFOBARS[2] == 'd' && WINDOW_SIZE[2] == 'w';
  }

  /** Arguments listed in strictly increasing rank. */
  predicate InOrder(args: seq<string>)
  {
    forall i, j :: 0 <= i < j < |args| ==> Rank(args[i]) < Rank(args[j])
  }

  /** An ordered list of ranks in [0, k) followed by an argument of rank
      `k`, or by nothing, stays ordered and within [0, k + 1). */
  lemma OrderedExtend(a: seq<string>, on: bool, arg: string, k: int)
    requires InOrder(a) && forall x :: x in a ==> 0 <= Rank(x) < k
    requires 0 <= k && Rank(arg) == k
    ensures InOrder(a + Flag(on, arg)) && forall x :: x in a + Flag(on, arg) ==> 0 <= Rank(x) < k + 1
  {
  }

  /** What `get_options` adds, flag by flag: `--headless` exactly when
      `headless` is False, `--no-sandbox` exactly when `sandbox` is False,
      `--window-size=<w>` with `<w>` copied verbatim exactly when
      `window_size` is truthy, `--incognito` exactly when `incognito` is
      False, `--disable-infobars` exactly when `infobars` is False. */
  lemma ArgumentFlags(f: Flags)
    ensures HEADLESS in Arguments(f) <==> !f.headless
    ensures NO_SANDBOX in Arguments(f) <==> !f.sandbox
    ensures WINDOW_SIZE + f.windowSize in Arguments(f) <==> f.windowSize != ""
    ensures forall a :: a in Arguments(f) && WINDOW_SIZE <= a ==> a == WINDOW_SIZE + f.windowSize
    ensures INCOGNITO in Arguments(f) <==> !f.incognito
    ensures DISABLE_INFOBARS in Arguments(f) <==> !f.infobars
  {
    WindowSizeDistinct(f.windowSize);
    FixedArguments();
  }

  /** Nothing but the five arguments is ever added, each at most once and in
      the fixed order headless, sandbox, window size, incognito, infobars. */
  lemma ArgumentsOrdered(f: Flags)
    ensures forall a :: a in Arguments(f) ==> 0 <= Rank(a) <= 4
    ensures InOrder(Arguments(f))
  {
    WindowSizeDistinct(f.windowSize);
    FixedArguments();
    var a0 := Flag(!f.headless, HEADLESS);
    var a1 := a0 + Flag(!f.sandbox, NO_SANDBOX);
    var a2 := a1 + Flag(f.windowSize != "", WINDOW_SIZE + f.windowSize);
    var a3 := a2 + Flag(!f.incognito, INCOGNITO);
    OrderedExtend([], !f.headless, HEADLESS, 0);
    assert [] + a0 == a0;
    OrderedExtend(a0, !f.sandbox, NO_SANDBOX, 1);
    OrderedExtend(a1, f.windowSize != "", WINDOW_SIZE + f.windowSize, 2);
    OrderedExtend(a2, !f.incognito, INCOGNITO, 3);
    OrderedExtend(a3, !f.infobars, DISABLE_INFOBARS, 4);
  }

  /** With the default flags the list is the five arguments in order. */
  lemma DefaultArguments()
    ensures Arguments(DEFAULT_FLAGS) ==
              ["--headless", "--no-sandbox", "--window-size=1366x768", "--incognito", "--disable-infobars"]
  {
    assert WINDOW_SIZE + "1366x768" == "--window-size=1366x768";
  }

  // ---------------------------------------------------------------------------
  // Driver selection
  // ---------------------------------------------------------------------------

  /** Where the local driver binary comes from: the `executable_path` given,
      or one the driver manager installs. */
  datatype DriverPath = Given(path: string) | Installed

  /** The driver `launch` constructs: `webdriver.Remote(command_executor =
      grid, desired capabilities of browser)` when `grid` is Some, otherwise
      the local driver of `browser` started from `driverPath`. The driver
      manager runs whenever `driverPath` is Installed, remote or not. */
  datatype Session = Session(browser: BrowserType, driverPath: DriverPath, grid: Option<string>, arguments: seq<string>)

  /** `Browser.launch(name, executable_path, grid_url, ...flags)`:
      `executablePath` and `gridUrl` are "" for every falsy value. A name
      that is no `BrowserType` value falls through every branch and yields
      None. */
  method Launch(name: string, executablePath: string, gridUrl: string, f: Flags) returns (s: Option<Session>)
    ensures s.None? <==> forall b: BrowserType :: Value(b) != name
    ensures s.Some? ==> Value(s.value.browser) == name
    ensures s.Some? ==> s.value.driverPath == if executablePath != "" then Given(executablePath) else Installed
    ensures s.Some? ==> (s.value.grid.Some? <==> gridUrl != "")
    ensures s.Some? && s.value.grid.Some? ==> s.value.grid.value == gridUrl
    ensures s.Some? ==> s.value.arguments == Arguments(f)
  {
    var browser: BrowserType;
    if name == Value(Chrome) {
      browser := Chrome;
    } else if name == Value(Firefox) {
      browser := Firefox;
    } else if name == Value(Ie) {
      browser := Ie;
    } else {
      assert forall b: BrowserType :: Value(b) != name by {
        forall b: BrowserType ensures Value(b) != name {
          match b
          case Chrome =>
          case Firefox =>
          case Ie =>
        }
      }
      return None;
    }
    var options := new Options();
    GetOptions(options, f);
    var path := if executablePath != "" then Given(executablePath) else Installed;
    var grid := if gridUrl != "" then Some(gridUrl) else None;
    return Some(Session(browser, path, grid, options.arguments));
  }
}
