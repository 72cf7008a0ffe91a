/** The parts of the Python and Selenium runtime that the three modelled files
    lean on: optional values, raised exceptions, Selenium locators, the outcome
    of a call into the browser, and the one rule of `WebDriverWait.until` that
    decides what a collection query can return. */
module Runtime {

  datatype Option<+T> = None | Some(value: T)

  /** A Selenium locator: the tuple `(By.<strategy>, expression)`. */
  datatype Locator = Locator(strategy: string, expression: string)

  /** Values of Selenium's `By.XPATH` and `By.CSS_SELECTOR`. */
  const XPATH: string := "xpath"
  const CSS_SELECTOR: string := "css selector"

  /** The exceptions the modelled code raises, catches or lets through. */
  datatype Exception =
    | TypeError
    | PermissionError(message: string)
    | TimeoutException
    | NoSuchElementException(describe: Option<string>, locator: Locator)
    | InvalidElementStateException
    | ElementNotInteractableException  // the three subclasses of
    | ElementNotVisibleException       // InvalidElementStateException
    | ElementNotSelectableException
    | OtherWebDriverException  // a WebDriverException outside the classes above
    | OtherException           // any exception outside that hierarchy

  /** `except InvalidElementStateException` catches the class itself and its
      subclasses ElementNotInteractableException, ElementNotVisibleException
      and ElementNotSelectableException. */
  predicate IsInvalidElementState(e: Exception)
  {
    e.InvalidElementStateException? || e.ElementNotInteractableException? ||
    e.ElementNotVisibleException? || e.ElementNotSelectableException?
  }

  /** In Selenium, TimeoutException, NoSuchElementException and
      InvalidElementStateException with its subclasses all derive from
      WebDriverException. */
  predicate IsWebDriverException(e: Exception)
  {
    e.TimeoutException? || e.NoSuchElementException? ||
    IsInvalidElementState(e) || e.OtherWebDriverException?
  }

  /** A Python call that either returns a value or raises. */
  datatype Result<+T> = Ok(value: T) | Err(error: Exception)

  /** How a call into the browser finished, when its value is not used. */
  datatype Outcome = Done | Raised(error: Exception)

  /** A handle of a live document node. */
  type Node = nat

  /** A browser session, as held by a page object's `driver` attribute. */
  datatype Driver = Driver(session: nat)

  /** The page object that owns element descriptors. */
  datatype Page = Page(driver: Driver)

  /** Python truthiness of an optional string: neither None nor "". */
  predicate Truthy(s: Option<string>)
  {
    s.Some? && s.value != ""
  }

  /** Messages of the two PermissionErrors the descriptors raise. */
  const NOT_IN_PAGE: string := "Element should be in page."
  const NOT_INPUTTABLE: string := "Element should be support input."

  /** `WebDriverWait(driver, timeout).until(condition)` when the condition
      yields the list of all matching nodes: `until` returns only a truthy
      value, so an empty list never ends the wait and it times out. `live` is
      the list of matches seen when the wait ends. */
  function AwaitAll(live: seq<Node>): (r: Result<seq<Node>>)
    ensures r.Ok? ==> r.value == live && r.value != []
    ensures r.Err? ==> live == [] && r.error == TimeoutException
  {
    if live == [] then Err(TimeoutException) else Ok(live)
  }

  /** What a descriptor's `__set__` reports once its call to `input` has
      finished: a WebDriverException becomes PermissionError, anything else
      is passed on unchanged. */
  function AfterInput(input: Outcome): (o: Outcome)
    ensures input.Done? ==> o.Done?
    ensures input.Raised? && IsWebDriverException(input.error) ==>
              o == Raised(PermissionError(NOT_INPUTTABLE))
    ensures input.Raised? && !IsWebDriverException(input.error) ==> o == input
  {
    match input
    case Done => Done
    case Raised(e) =>
      if IsWebDriverException(e) then Raised(PermissionError(NOT_INPUTTABLE)) else input
  }
}
