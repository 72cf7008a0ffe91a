# selenide-2: locator normalisation, descriptor binding, collection counts, browser options

This project models in Dafny the core of a page-object helper layer over Selenium:

- **Locator normalisation** (`by2locator` in `selenide/entity.py`). It turns a
  description and a location into a Selenium `(By, expression)` pair. A tuple
  passes through unchanged. A string starting with `/`, `./`, `..` or `(` becomes
  XPath. Every other string becomes CSS, and that includes the empty string. A falsy
  non-string location with a truthy description becomes the XPath that `by_text`
  derives from the description. Anything else raises `TypeError`.
- **Element descriptors.** `selenide/entity.py` binds a descriptor by writing the
  module-global `cf.DRIVER`. It is modelled as a class `Config` with a `driver`
  field. `src/element.py` instead writes the descriptor's own field `self.driver`.
  There it is a class `SrcElement.Element` with that field plus a `calls` field. The
  `calls` field logs the keyboard calls attempted, so the fallback of `enter`/`tab`
  can be seen: a direct key first, then `input(key)` only if the element is in an
  invalid state.
- **Collection queries** (`first`, `last`, `empty`, `size`, `size_equal`,
  `size_greater`, `size_less`, `size_not_equal`) in both files. They are pure
  functions over `live`, the list of nodes matching the locator when the wait ends.
  `WebDriverWait.until` only returns a truthy value, so an empty match list ends in
  a timeout. `selenide/entity.py` reports that timeout as
  `NoSuchElementException(describe, locator)`. In `src/element.py` the
  `TimeoutException` itself propagates. So `empty` returns the match list itself,
  which is never empty, and `size_equal(0)` can never return True. Comparisons put
  the argument first: `size_greater(n)` is `n > size`.
- **Browser launch** (`selenide/binding.py`). `get_options` is a method that
  appends to the argument list of an `Options` object. It is proved equal to the
  reference list `Binding.Arguments(flags)`. Lemmas prove, for that list: which flag
  adds which argument (note the inverted conditions, e.g. `--headless` when
  `headless` is False); that the window size is copied verbatim; that nothing else
  is added; and that the order is fixed. `Launch` models the name and grid-URL
  dispatch. It returns the session it would start: browser, driver path, grid URL
  and arguments. An unknown name gives `None`.

Calls into the browser (sending keys, typing, dragging) are not executed. Each
becomes an `Outcome` parameter: it finished, or it raised a given exception.
`by_text` is a parameter `byText: string -> string` and stays uninterpreted.

Two behaviours that might look unintended are kept exactly as the code has them:

- Every `str`, including `""`, is classified as CSS. The empty string never takes the text-derived branch.
- `empty` returns the match list, not a boolean.

## Model

| member | source | states |
|---|---|---|
| Entity.StartsWithAny | selenide/entity.py:36-37 | true exactly when some marker is a prefix of the string |
| Entity.By2Locator | selenide/entity.py:23-44 | the only error is TypeError; any locator not passed through as a tuple is XPath or CSS |
| Entity.MarkersArePathLike | selenide/entity.py:35-38 | a string starts with one of "/", "./", "..", "(" exactly when its first one or two characters are '/', '(', "./" or ".." |
| Entity.TuplePassesThrough | selenide/entity.py:32-34 | a tuple location is returned unchanged, whatever the description |
| Entity.StringClassification | selenide/entity.py:35-40 | a string is XPath if path-like, otherwise CSS; the expression is kept verbatim and the description ignored |
| Entity.EmptyStringIsCss | selenide/entity.py:35-40 | "" is classified as CSS even when the description is truthy |
| Entity.SampleClassifications | selenide/entity.py:35-40 | ".foo" and "#kw" are CSS; "//input", "./a", "../b" and "(//li)[2]" are XPath |
| Entity.TextBranch | selenide/entity.py:41-43 | None or another falsy non-string with a truthy description yields (XPATH, by_text(describe)) |
| Entity.TypeErrorExactly | selenide/entity.py:32-44 | TypeError exactly when (falsy non-string location and falsy description) or a truthy non-string non-tuple location |
| Entity.NormalisationIdempotent | selenide/entity.py:32-34 | feeding a normalised locator back in returns it unchanged |
| Entity.NewElement | selenide/entity.py:50-54 | construction succeeds exactly when by2locator does; the element keeps the description and the normalised locator |
| Entity.ElementConstruction | selenide/entity.py:50-54 | no location and no description fails with TypeError; a string location always succeeds; a tuple is stored as is |
| Entity.Get | selenide/entity.py:56-60 | no instance: PermissionError("Element should be in page.") and cf unchanged; otherwise cf.DRIVER becomes the owner's driver and the descriptor is returned |
| Entity.Set | selenide/entity.py:62-68 | binds as Get; then hands the assigned value to input, and a WebDriverException from input becomes PermissionError("Element should be support input."), other exceptions pass through; no instance: PermissionError and input is not reached |
| Entity.Present | selenide/entity.py:244-247 | succeeds exactly on a non-empty match list and returns it; a timeout is NoSuchElementException carrying description and locator (locate, lines 103-106) |
| Entity.First | selenide/entity.py:254-256 | the first matching node, or the wait's failure |
| Entity.Last | selenide/entity.py:258-260 | the last matching node, or the wait's failure |
| Entity.Empty | selenide/entity.py:262-264 | returns the match list itself, which is non-empty whenever it returns |
| Entity.Size | selenide/entity.py:266-268 | the number of matches, at least 1; fails exactly on an empty match list |
| Entity.SizeEqual | selenide/entity.py:270-271 | True exactly when n equals the number of matches |
| Entity.SizeGreater | selenide/entity.py:273-274 | True exactly when n is greater than the number of matches |
| Entity.SizeLess | selenide/entity.py:276-277 | True exactly when n is less than the number of matches |
| Entity.SizeNotEqual | selenide/entity.py:279-280 | True exactly when n differs from the number of matches |
| Entity.SizeNotEqualNegates | selenide/entity.py:270-280 | size_not_equal(n) is the negation of size_equal(n) and fails with the same error |
| Entity.SizeTrichotomy | selenide/entity.py:270-277 | on a found collection exactly one of size_equal, size_greater, size_less holds |
| Entity.NoEmptyCollection | selenide/entity.py:244-277 | size_equal(0) and size_greater(1) never return True; size_less(0) never returns False |
| Entity.SingleMatch | selenide/entity.py:254-268 | with one match, first and last are that node and size is 1 |
| Runtime.AwaitAll | src/element.py:36-40 | a wait over all matches returns the list only when it is non-empty, else TimeoutException |
| Runtime.AfterInput | src/element.py:31-34 | a WebDriverException from input becomes PermissionError("Element should be support input."); success and other exceptions are unchanged |
| SrcElement.Element.constructor | src/element.py:19-21 | keeps the description and the normalised locator; no driver bound, no calls made |
| SrcElement.Element.Get | src/element.py:23-27 | no instance: PermissionError and nothing changes; otherwise self.driver becomes the owner's driver, self is returned, and only driver changes |
| SrcElement.Element.Input | src/element.py:104-108 | logs one attempted typing of value and returns self unless the browser raised |
| SrcElement.Element.Set | src/element.py:29-34 | binds as Get, then types value; a WebDriverException is re-raised as PermissionError; a missing instance types nothing |
| SrcElement.Element.PressKey | src/element.py:152-166 | sends the key; types it through input only after InvalidElementStateException or one of its subclasses; returns self or the exception that escaped |
| SrcElement.FallbackTriggers | src/element.py:154-158 | InvalidElementStateException and its subclasses ElementNotInteractable, ElementNotVisible and ElementNotSelectable take the fallback; a timeout, another WebDriverException or any other exception does not |
| SrcElement.Element.Enter | src/element.py:152-158 | ENTER is sent directly, and typed through input only when the element is in an invalid state; returns self unless a call raised |
| SrcElement.Element.Tab | src/element.py:160-166 | the same fallback for TAB |
| SrcElement.Element.DragAndDrop | src/element.py:146-150 | returns the target element, not self, when the gesture succeeds |
| SrcElement.Present | src/element.py:177-180 | succeeds exactly on a non-empty match list and returns it; otherwise TimeoutException |
| SrcElement.Empty | src/element.py:187-189 | returns the match list itself, never an empty one |
| SrcElement.Size | src/element.py:191-193 | the number of matches, at least 1; TimeoutException on an empty match list |
| SrcElement.SizeEqual | src/element.py:195-196 | True exactly when n equals the number of matches |
| SrcElement.SizeGreater | src/element.py:198-199 | True exactly when n is greater than the number of matches |
| SrcElement.SizeLess | src/element.py:201-202 | True exactly when n is less than the number of matches |
| SrcElement.SizeNotEqual | src/element.py:204-205 | True exactly when n differs from the number of matches |
| SrcElement.SizeComparisonsAgree | src/element.py:195-205 | size_not_equal is the negation of size_equal; size_greater(n) with size_less(m) forces m < n; size_equal holds for at most one n |
| SrcElement.NoEmptyCollection | src/element.py:177-205 | size_equal(0) is never True; on an empty match list every count query raises TimeoutException |
| Binding.Value | selenide/binding.py:14-18 | a BrowserType's value is "chrome", "firefox" or "ie" |
| Binding.ValuesDistinct | selenide/binding.py:14-18 | distinct BrowserType members have distinct values |
| Binding.Options.constructor | selenide/binding.py:50 | a fresh options object has no arguments |
| Binding.Options.AddArgument | selenide/binding.py:38 | appends exactly the one argument |
| Binding.GetOptions | selenide/binding.py:34-47 | appends exactly the reference argument list for the flags to what the options already held |
| Binding.ArgumentFlags | selenide/binding.py:37-46 | --headless iff headless is False; --no-sandbox iff sandbox is False; --window-size=w iff window_size is truthy, w verbatim; --incognito iff incognito is False; --disable-infobars iff infobars is False |
| Binding.ArgumentsOrdered | selenide/binding.py:37-47 | only the five arguments occur, each at most once, in the order headless, sandbox, window size, incognito, infobars |
| Binding.DefaultArguments | selenide/binding.py:23-47 | the default flags give [--headless, --no-sandbox, --window-size=1366x768, --incognito, --disable-infobars] |
| Binding.Launch | selenide/binding.py:49-89 | None exactly for an unknown name; otherwise the named browser, remote iff grid_url is truthy (with that URL), the given or an installed driver path, and the reference arguments |

## Left out

- Waiting itself is left out: `locate`/`conditions`, polling, `POLL_TIMEOUT`/`Config.timeout`, the loading-spinner wait at the start of `locate`, and `time.sleep`. A query is modelled by the match list seen when its wait ends, so timing is not modelled. `locate` waits twice; the model collapses the two waits into one list.
- The collection condition `Collection.visible` and the single-element conditions (`present`, `visible`, `invisible`, `clickable`, `staleness`, `has_text`, `has_value`, `has_attr`) are left out. They are polling against a live document.
- Reads and script actions are left out: `text`, `value`, `attr`, `set_value`, `set_attr`, `input_by_js`, `click`, `click_by_js`, `hover`, `double_click`, `context_click`, `hold_click` and `switch2frame`. They are foreign calls into the browser. The `enter`/`tab` of `selenide/entity.py` are left out too: they send keys through `ActionChains` and have no fallback logic.
- Highlighting is left out: the scroll and border scripts in `locate`, and `element_mark` (src/helper). src/helper is not part of this model.
- Selenium's exception hierarchy is reduced to the classes the modelled code raises or catches. InvalidElementStateException keeps its three subclasses, which the `enter`/`tab` fallback also catches. Every other WebDriverException is one constructor. Selenium itself is not part of this model.
- Step reporting is left out: the `allure.step` labels are a reporting side channel.
- `to_by` (src/helper) is not part of this model. `SrcElement.Element.constructor` takes the already-normalised locator.
- `by_text` (selenide/selectors) is not part of this model. It is passed in as an uninterpreted function.
- Driver installation (`ChromeDriverManager().install()` and the others), the construction of `webdriver.Chrome/Firefox/Ie/Remote`, and `**kwargs` are left out. They are process and network I/O. `Launch` records only which driver would be started, from which path, with which arguments.
- Browser options are one `Options` class for Chrome, Firefox and IE. All three option classes keep an ordered argument list.
- Python's dynamic values are narrowed. A tuple location is a (strategy, expression) pair. A description is `None` or a string. `window_size`, `grid_url` and `executable_path` are strings, with `""` standing for every falsy value. A page instance is present or absent, so a page object that is itself falsy is not modelled.
- `cf` is always a configuration object. The module-level `cf = None` can make `cf.DRIVER = …` fail, and that failure is not modelled.
- The `driver` property of `selenide/entity.py` (it returns `cf.DRIVER`) is not a separate member. It is the `driver` field of `Entity.Config`.
- test/test_element.py drives a real browser and has no logic of its own.
