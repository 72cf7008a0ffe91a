/** selenide/entity.py: locator normalisation (`by2locator`), the element
    descriptor bound through the module-global configuration `cf`, and the
    count queries of `Collection`. */
module Entity {
  import opened Runtime

  // ---------------------------------------------------------------------------
  // Locator normalisation
  // ---------------------------------------------------------------------------

  /** The value passed as `location`. */
  datatype Location =
    | Tuple(locator: Locator)  // already a Selenium (By, expression) pair
    | Str(text: string)
    | Absent                   // None, the default
    | Other(truthy: bool)      // any other value: a number, a list, ...

  /** The prefixes that make a string an XPath expression. */
  const XPATH_MARKERS: seq<string> := ["/", "./", "..", "("]

  /** `any(location.startswith(m) for m in markers)`. */
  function StartsWithAny(s: string, markers: seq<string>): (r: bool)
    ensures r <==> exists i :: 0 <= i < |markers| && markers[i] <= s
  {
    if markers == [] then false
    else if markers[0] <= s then true
    else StartsWithAny(s, markers[1..])
  }

  /** The XPath test, stated on the first characters of the string. */
  predicate PathLike(s: string)
  {
    |s| > 0 && (s[0] == '/' || s[0] == '(' || (|s| > 1 && s[0] == '.' && (s[1] == '/' || s[1] == '.')))
  }

  /** `by2locator(describe, location)`, with `by_text` passed in as `byText`. */
  function By2Locator(describe: Option<string>, location: Location, byText: string -> string): (r: Result<Locator>)
    ensures r.Err? ==> r.error == TypeError
    ensures r.Ok? && !location.Tuple? ==> r.value.strategy == XPATH || r.value.strategy == CSS_SELECTOR
  {
    match location
    case Tuple(l) => Ok(l)
    case Str(s) =>
      if StartsWithAny(s, XPATH_MARKERS) then Ok(Locator(XPATH, s)) else Ok(Locator(CSS_SELECTOR, s))
    case Absent => if Truthy(describe) then Ok(Locator(XPATH, byText(describe.value))) else Err(TypeError)
    case Other(truthy) =>
      if !truthy && Truthy(describe) then Ok(Locator(XPATH, byText(describe.value))) else Err(TypeError)
  }

  lemma {:induction false} MarkersArePathLike(s: string)
    ensures StartsWithAny(s, XPATH_MARKERS) <==> PathLike(s)
  {
    var m := XPATH_MARKERS;
    assert m[0] <= s <==> |s| > 0 && s[0] == '/' by {
      if |s| > 0 && s[0] == '/' { assert s[..1] == m[0]; }
    }
    assert m[1] <= s <==> |s| > 1 && s[0] == '.' && s[1] == '/' by {
      if |s| > 1 && s[0] == '.' && s[1] == '/' { assert s[..2] == m[1]; }
    }
    assert m[2] <= s <==> |s| > 1 && s[0] == '.' && s[1] == '.' by {
      if |s| > 1 && s[0] == '.' && s[1] == '.' { assert s[..2] == m[2]; }
    }
    assert m[3] <= s <==> |s| > 0 && s[0] == '(' by {
      if |s| > 0 && s[0] == '(' { assert s[..1] == m[3]; }
    }
    if PathLike(s) {
      if s[0] == '/' { assert m[0] <= s; }
      else if s[0] == '(' { assert m[3] <= s; }
      else if s[1] == '/' { assert m[1] <= s; }
      else { assert m[2] <= s; }
    }
  }

  /** A tuple is returned unchanged, whatever the description. */
  lemma TuplePassesThrough(describe: Option<string>, l: Locator, byText: string -> string)
    ensures By2Locator(describe, Tuple(l), byText) == Ok(l)
  {
  }

  /** Every string is classified on its prefix alone: XPath when it starts
      with "/", "./", ".." or "(", CSS otherwise (the empty string included);
      the expression is kept verbatim and the description is ignored. */
  lemma StringClassification(describe: Option<string>, s: string, byText: string -> string)
    ensures PathLike(s) ==> By2Locator(describe, Str(s), byText) == Ok(Locator(XPATH, s))
    ensures !PathLike(s) ==> By2Locator(describe, Str(s), byText) == Ok(Locator(CSS_SELECTOR, s))
  {
    MarkersArePathLike(s);
  }

  /** The empty string is a `str`: it is CSS, never the text-derived branch. */
  lemma EmptyStringIsCss(describe: Option<string>, byText: string -> string)
    ensures By2Locator(describe, Str(""), byText) == Ok(Locator(CSS_SELECTOR, ""))
  {
    StringClassification(describe, "", byText);
  }

  /** Sample strings: ".foo" and "#kw" are CSS; "//input", "./a", "../b" and
      "(//li)[2]" are XPath. */
  lemma SampleClassifications(describe: Option<string>, byText: string -> string)
    ensures By2Locator(describe, Str(".foo"), byText) == Ok(Locator(CSS_SELECTOR, ".foo"))
    ensures By2Locator(describe, Str("#kw"), byText) == Ok(Locator(CSS_SELECTOR, "#kw"))
    ensures By2Locator(describe, Str("//input"), byText) == Ok(Locator(XPATH, "//input"))
    ensures By2Locator(describe, Str("./a"), byText) == Ok(Locator(XPATH, "./a"))
    ensures By2Locator(describe, Str("../b"), byText) == Ok(Locator(XPATH, "../b"))
    ensures By2Locator(describe, Str("(//li)[2]"), byText) == Ok(Locator(XPATH, "(//li)[2]"))
  {
    StringClassification(describe, ".foo", byText);
    StringClassification(describe, "#kw", byText);
    StringClassification(describe, "//input", byText);
    StringClassification(describe, "./a", byText);
    StringClassification(describe, "../b", byText);
    StringClassification(describe, "(//li)[2]", byText);
  }

  /** A falsy non-string location with a truthy description is looked up by
      the description's visible text. */
  lemma TextBranch(describe: Option<string>, location: Location, byText: string -> string)
    requires location == Absent || location == Other(false)
    requires Truthy(describe)
    ensures By2Locator(describe, location, byText) == Ok(Locator(XPATH, byText(describe.value)))
  {
  }

  /** `by2locator` raises TypeError exactly when the location is a falsy
      non-string and the description is falsy, or the location is a truthy
      value that is neither a string nor a tuple. */
  lemma TypeErrorExactly(describe: Option<string>, location: Location, byText: string -> string)
    ensures By2Locator(describe, location, byText) == Err(TypeError) <==>
              ((location == Absent || location == Other(false)) && !Truthy(describe)) ||
              location == Other(true)
  {
  }

  /** Normalising an already normalised locator changes nothing. */
  lemma NormalisationIdempotent(describe: Option<string>, describe': Option<string>, location: Location, byText: string -> string)
    requires By2Locator(describe, location, byText).Ok?
    ensures By2Locator(describe', Tuple(By2Locator(describe, location, byText).value), byText)
              == By2Locator(describe, location, byText)
  {
  }

  // ---------------------------------------------------------------------------
  // Element descriptor
  // ---------------------------------------------------------------------------

  /** An `Element`: its description and its normalised locator. Neither is
      reassigned after construction. */
  datatype Element = Element(describe: Option<string>, locator: Locator)

  /** `Element(describe, locator)`: the constructor raises whatever
      `by2locator` raises. */
  function NewElement(describe: Option<string>, location: Location, byText: string -> string): (r: Result<Element>)
    ensures r.Ok? <==> By2Locator(describe, location, byText).Ok?
    ensures r.Ok? ==> r.value.describe == describe && r.value.locator == By2Locator(describe, location, byText).value
    ensures r.Err? ==> r.error == TypeError
  {
    match By2Locator(describe, location, byText)
    case Ok(l) => Ok(Element(describe, l))
    case Err(e) => Err(e)
  }

  /** Constructing an element with neither a location nor a description
      fails with TypeError; with a string location it always succeeds. */
  lemma ElementConstruction(describe: Option<string>, location: Location, byText: string -> string)
    ensures location == Absent && !Truthy(describe) ==> NewElement(describe, location, byText) == Err(TypeError)
    ensures location.Str? ==> NewElement(describe, location, byText).Ok?
    ensures location.Tuple? ==> NewElement(describe, location, byText) == Ok(Element(describe, location.locator))
  {
  }

  /** The module-global configuration object `cf`; only its `DRIVER`
      attribute is modelled. */
  class Config {
    /** `cf.DRIVER`: the session every element acts through. */
    var driver: Option<Driver>

    constructor (driver: Option<Driver>)
      ensures this.driver == driver
    {
      this.driver := driver;
    }
  }

  /** `Element.__get__(instance, owner)`: without an owning instance it
      raises PermissionError and leaves `cf` alone; otherwise it points
      `cf.DRIVER` at the owner's driver and returns the descriptor itself. */
  method Get(cf: Config, e: Element, instance: Option<Page>) returns (r: Result<Element>)
    modifies cf
    ensures instance.None? ==> r == Err(PermissionError(NOT_IN_PAGE)) && cf.driver == old(cf.driver)
    ensures instance.Some? ==> r == Ok(e) && cf.driver == Some(instance.value.driver)
  {
    if instance.None? {
      return Err(PermissionError(NOT_IN_PAGE));
    }
    cf.driver := Some(instance.value.driver);
    return Ok(e);
  }

  /** `Element.__set__(instance, value)`: binds as `__get__` does, then runs
      `input(value)`, whose outcome is `input`; a WebDriverException from it
      is re-raised as PermissionError. `typed` is the value handed to
      `input`, None when the binding raised first. */
  method Set(cf: Config, e: Element, instance: Option<Page>, value: string, input: Outcome)
    returns (o: Outcome, typed: Option<string>)
    modifies cf
    ensures instance.None? ==> o == Raised(PermissionError(NOT_IN_PAGE)) && cf.driver == old(cf.driver)
    ensures instance.None? ==> typed == None
    ensures instance.Some? ==> cf.driver == Some(instance.value.driver) && typed == Some(value)
    ensures instance.Some? && input.Done? ==> o == Done
    ensures instance.Some? && input.Raised? && IsWebDriverException(input.error) ==>
              o == Raised(PermissionError(NOT_INPUTTABLE))
    ensures instance.Some? && input.Raised? && !IsWebDriverException(input.error) ==> o == input
  {
    var bound := Get(cf, e, instance);
    if bound.Err? {
      return Raised(bound.error), None;
    }
    typed := Some(value);
    o := AfterInput(input);
  }

  // ---------------------------------------------------------------------------
  // Collection
  // ---------------------------------------------------------------------------
  //
  // `live` is the list of nodes matching the collection's locator when the
  // wait in `locate` ends; every query awaits it afresh, nothing is cached.

  /** `Collection.present`: the awaited match list; a wait that times out
      is reported as NoSuchElementException with the description and the
      locator. */
  function Present(e: Element, live: seq<Node>): (r: Result<seq<Node>>)
    ensures r.Ok? <==> live != []
    ensures r.Ok? ==> r.value == live
    ensures r.Err? ==> r.error == NoSuchElementException(e.describe, e.locator)
  {
    match AwaitAll(live)
    case Ok(nodes) => Ok(nodes)
    case Err(_) => Err(NoSuchElementException(e.describe, e.locator))
  }

  /** `Collection.first`: `present[0]`. */
  function First(e: Element, live: seq<Node>): (r: Result<Node>)
    ensures r.Ok? <==> live != []
    ensures r.Ok? ==> r.value == live[0]
  {
    match Present(e, live)
    case Ok(nodes) => Ok(nodes[0])
    case Err(x) => Err(x)
  }

  /** `Collection.last`: `present[-1]`. */
  function Last(e: Element, live: seq<Node>): (r: Result<Node>)
    ensures r.Ok? <==> live != []
    ensures r.Ok? ==> r.value == live[|live| - 1]
  {
    match Present(e, live)
    case Ok(nodes) => Ok(nodes[|nodes| - 1])
    case Err(x) => Err(x)
  }

  /** `Collection.empty`: despite its `bool` annotation it returns the match
      list itself, which is never empty when it returns at all. */
  function Empty(e: Element, live: seq<Node>): (r: Result<seq<Node>>)
    ensures r.Ok? ==> r.value == live && |r.value| > 0
    ensures r.Err? ==> live == [] && r.error == NoSuchElementException(e.describe, e.locator)
  {
    Present(e, live)
  }

  /** `Collection.size`: `len(present)`. */
  function Size(e: Element, live: seq<Node>): (r: Result<nat>)
    ensures r.Ok? <==> live != []
    ensures r.Ok? ==> r.value == |live| && r.value >= 1
    ensures r.Err? ==> r.error == NoSuchElementException(e.describe, e.locator)
  {
    match Present(e, live)
    case Ok(nodes) => Ok(|nodes|)
    case Err(x) => Err(x)
  }

  /** `size_equal(n)`: `n == size`. */
  function SizeEqual(e: Element, live: seq<Node>, n: int): (r: Result<bool>)
    ensures r.Ok? <==> live != []
    ensures r.Ok? ==> (r.value <==> n == |live|)
  {
    match Size(e, live)
    case Ok(k) => Ok(n == k)
    case Err(x) => Err(x)
  }

  /** `size_greater(n)`: `n > size`, the argument first. */
  function SizeGreater(e: Element, live: seq<Node>, n: int): (r: Result<bool>)
    ensures r.Ok? <==> live != []
    ensures r.Ok? ==> (r.value <==> n > |live|)
  {
    match Size(e, live)
    case Ok(k) => Ok(n > k)
    case Err(x) => Err(x)
  }

  /** `size_less(n)`: `n < size`, the argument first. */
  function SizeLess(e: Element, live: seq<Node>, n: int): (r: Result<bool>)
    ensures r.Ok? <==> live != []
    ensures r.Ok? ==> (r.value <==> n < |live|)
  {
    match Size(e, live)
    case Ok(k) => Ok(n < k)
    case Err(x) => Err(x)
  }

  /** `size_not_equal(n)`: `n != size`. */
  function SizeNotEqual(e: Element, live: seq<Node>, n: int): (r: Result<bool>)
    ensures r.Ok? <==> live != []
    ensures r.Ok? ==> (r.value <==> n != |live|)
  {
    match Size(e, live)
    case Ok(k) => Ok(n != k)
    case Err(x) => Err(x)
  }

  /** `size_not_equal(n)` is the negation of `size_equal(n)`, and both fail
      alike. */
  lemma SizeNotEqualNegates(e: Element, live: seq<Node>, n: int)
    ensures SizeNotEqual(e, live, n).Ok? == SizeEqual(e, live, n).Ok?
    ensures SizeNotEqual(e, live, n).Ok? ==> SizeNotEqual(e, live, n).value == !SizeEqual(e, live, n).value
    ensures SizeNotEqual(e, live, n).Err? ==> SizeNotEqual(e, live, n).error == SizeEqual(e, live, n).error
  {
  }

  /** On a collection that is found, exactly one of `size_equal(n)`,
      `size_greater(n)` and `size_less(n)` holds. */
  lemma SizeTrichotomy(e: Element, live: seq<Node>, n: int)
    requires live != []
    ensures SizeEqual(e, live, n).value || SizeGreater(e, live, n).value || SizeLess(e, live, n).value
    ensures !(SizeEqual(e, live, n).value && SizeGreater(e, live, n).value)
    ensures !(SizeEqual(e, live, n).value && SizeLess(e, live, n).value)
    ensures !(SizeGreater(e, live, n).value && SizeLess(e, live, n).value)
  {
  }

  /** Because the wait only ends on a non-empty list, `size_equal(0)` and
      `size_greater(1)` never return True, and `size_less(0)` never returns
      False. */
  lemma NoEmptyCollection(e: Element, live: seq<Node>)
    ensures SizeEqual(e, live, 0) != Ok(true)
    ensures SizeGreater(e, live, 1) != Ok(true)
    ensures SizeLess(e, live, 0) != Ok(false)
  {
  }

  /** With a single match, `first` and `last` are that node and `size` is 1. */
  lemma SingleMatch(e: Element, live: seq<Node>)
    requires |live| == 1
    ensures First(e, live) == Last(e, live) == Ok(live[0])
    ensures Size(e, live) == Ok(1)
  {
  }
}
