/** src/element.py: the element descriptor that keeps its own `driver`
    field, its keyboard actions with their fallback to `input`, and the count
    queries of `Collection`. */
module SrcElement {
  import opened Runtime

  /** Selenium's `Keys.ENTER` and `Keys.TAB`. */
  const ENTER: string := "\U{E007}"
  const TAB: string := "\U{E004}"

  /** A keyboard call the descriptor attempts. It is logged when it is made,
      even if the wait for the present or visible element then fails before
      anything reaches the browser. */
  datatype Call =
    | KeysSent(key: string)  // `self.present.send_keys(key)`
    | Typed(value: string)   // `self.input(value)`: clear, then send_keys

  /** The `except InvalidElementStateException` clause of `enter` and `tab`
      catches what the direct key raised. */
  predicate FallsBack(direct: Outcome)
  {
    direct.Raised? && IsInvalidElementState(direct.error)
  }

  /** A key refused as not interactable, not visible or not selectable takes
      the fallback like InvalidElementStateException itself; a timeout of the
      presence wait, or any other exception, escapes. */
  lemma FallbackTriggers()
    ensures FallsBack(Raised(InvalidElementStateException))
    ensures FallsBack(Raised(ElementNotInteractableException))
    ensures FallsBack(Raised(ElementNotVisibleException))
    ensures FallsBack(Raised(ElementNotSelectableException))
    ensures !FallsBack(Raised(TimeoutException)) && !FallsBack(Raised(OtherWebDriverException))
    ensures !FallsBack(Raised(OtherException)) && !FallsBack(Done)
  {
  }

  class Element {
    const describe: Option<string>
    /** The result of `to_by(locator)`, taken as given. */
    const locator: Locator
    /** `self.driver`, absent until the first `__get__`. */
    var driver: Option<Driver>
    /** The keyboard calls attempted so far, oldest first. */
    var calls: seq<Call>

    constructor (describe: Option<string>, locator: Locator)
      ensures this.describe == describe && this.locator == locator
      ensures driver == None && calls == []
    {
      this.describe := describe;
      this.locator := locator;
      driver := None;
      calls := [];
    }

    /** `__get__(instance, owner)`: without an owning instance it raises
        PermissionError and changes nothing; otherwise it sets `self.driver`
        to the owner's driver and returns `self`. */
    method Get(instance: Option<Page>) returns (r: Result<Element>)
      modifies this`driver
      ensures instance.None? ==> r == Err(PermissionError(NOT_IN_PAGE)) && driver == old(driver)
      ensures instance.Some? ==> r == Ok(this) && driver == Some(instance.value.driver)
    {
      if instance.None? {
        return Err(PermissionError(NOT_IN_PAGE));
      }
      driver := Some(instance.value.driver);
      return Ok(this);
    }

    /** `input(value)`, whose browser side finishes as `outcome`; it returns
        `self`. */
    method Input(value: string, outcome: Outcome) returns (r: Result<Element>)
      modifies this`calls
      ensures calls == old(calls) + [Typed(value)]
      ensures outcome.Done? ==> r == Ok(this)
      ensures outcome.Raised? ==> r == Err(outcome.error)
    {
      calls := calls + [Typed(value)];
      if outcome.Raised? {
        return Err(outcome.error);
      }
      return Ok(this);
    }

    /** `__set__(instance, value)`: binds as `__get__` does, then calls
        `input(value)`; a WebDriverException from `input` is re-raised as
        PermissionError. */
    method Set(instance: Option<Page>, value: string, input: Outcome) returns (o: Outcome)
      modifies this`driver, this`calls
      ensures instance.None? ==> o == Raised(PermissionError(NOT_IN_PAGE))
      ensures instance.None? ==> driver == old(driver) && calls == old(calls)
      ensures instance.Some? ==> driver == Some(instance.value.driver) && calls == old(calls) + [Typed(value)]
      ensures instance.Some? && input.Done? ==> o == Done
      ensures instance.Some? && input.Raised? && IsWebDriverException(input.error) ==>
                o == Raised(PermissionError(NOT_INPUTTABLE))
      ensures instance.Some? && input.Raised? && !IsWebDriverException(input.error) ==> o == input
    {
      var bound := Get(instance);
      if bound.Err? {
        return Raised(bound.error);
      }
      var typed := Input(value, input);
      o := AfterInput(input);
    }

    /** Shared body of `enter` and `tab`: send `key` to the present element
        (finishing as `direct`); only when that raises InvalidElementStateException
        or one of its subclasses fall back to `input(key)` (finishing as
        `fallback`). */
    method PressKey(key: string, direct: Outcome, fallback: Outcome) returns (r: Result<Element>)
      modifies this`calls
      ensures !FallsBack(direct) ==> calls == old(calls) + [KeysSent(key)]
      ensures FallsBack(direct) ==> calls == old(calls) + [KeysSent(key), Typed(key)]
      ensures direct.Done? ==> r == Ok(this)
      ensures direct.Raised? && !FallsBack(direct) ==> r == Err(direct.error)
      ensures FallsBack(direct) ==> r == if fallback.Done? then Ok(this) else Err(fallback.error)
    {
      calls := calls + [KeysSent(key)];
      if FallsBack(direct) {
        r := Input(key, fallback);
      } else if direct.Raised? {
        r := Err(direct.error);
      } else {
        r := Ok(this);
      }
    }

    /** `enter()`: ENTER to the present element, falling back to
        `input(Keys.ENTER)` only when the element is in an invalid state;
        returns `self` unless a call it makes raises. */
    method Enter(direct: Outcome, fallback: Outcome) returns (r: Result<Element>)
      modifies this`calls
      ensures !FallsBack(direct) ==> calls == old(calls) + [KeysSent(ENTER)]
      ensures FallsBack(direct) ==> calls == old(calls) + [KeysSent(ENTER), Typed(ENTER)]
      ensures direct.Done? ==> r == Ok(this)
      ensures direct.Raised? && !FallsBack(direct) ==> r == Err(direct.error)
      ensures FallsBack(direct) ==> r == if fallback.Done? then Ok(this) else Err(fallback.error)
    {
      r := PressKey(ENTER, direct, fallback);
    }

    /** `tab()`: the same fallback with `Keys.TAB`. */
    method Tab(direct: Outcome, fallback: Outcome) returns (r: Result<Element>)
      modifies this`calls
      ensures !FallsBack(direct) ==> calls == old(calls) + [KeysSent(TAB)]
      ensures FallsBack(direct) ==> calls == old(calls) + [KeysSent(TAB), Typed(TAB)]
      ensures direct.Done? ==> r == Ok(this)
      ensures direct.Raised? && !FallsBack(direct) ==> r == Err(direct.error)
      ensures FallsBack(direct) ==> r == if fallback.Done? then Ok(this) else Err(fallback.error)
    {
      r := PressKey(TAB, direct, fallback);
    }

    /** `drag_and_drop(target)`, whose gesture finishes as `gesture`: it
        returns the target, not `self`. */
    method DragAndDrop(target: Element, gesture: Outcome) returns (r: Result<Element>)
      ensures gesture.Done? ==> r == Ok(target)
      ensures gesture.Raised? ==> r == Err(gesture.error)
    {
      if gesture.Raised? {
        return Err(gesture.error);
      }
      return Ok(target);
    }
  }

  // ---------------------------------------------------------------------------
  // Collection
  // ---------------------------------------------------------------------------
  //
  // `live` is the list of matching nodes when the wait in `conditions` ends;
  // every query waits afresh. A timeout is not converted here: the
  // TimeoutException itself propagates.

  /** `Collection.present`. */
  function Present(live: seq<Node>): (r: Result<seq<Node>>)
    ensures r.Ok? <==> live != []
    ensures r.Ok? ==> r.value == live
    ensures r.Err? ==> r.error == TimeoutException
  {
    AwaitAll(live)
  }

  /** `Collection.empty`: the match list itself, not a boolean; it is never
      empty when it returns. */
  function Empty(live: seq<Node>): (r: Result<seq<Node>>)
    ensures r.Ok? ==> r.value == live && |r.value| > 0
    ensures r.Err? ==> live == [] && r.error == TimeoutException
  {
    Present(live)
  }

  /** `Collection.size`: `len(present)`. */
  function Size(live: seq<Node>): (r: Result<nat>)
    ensures r.Ok? <==> live != []
    ensures r.Ok? ==> r.value == |live| && r.value >= 1
    ensures r.Err? ==> r.error == TimeoutException
  {
    match Present(live)
    case Ok(nodes) => Ok(|nodes|)
    case Err(x) => Err(x)
  }

  /** `size_equal(n)`: `n == size`. */
  function SizeEqual(live: seq<Node>, n: int): (r: Result<bool>)
    ensures r.Ok? <==> live != []
    ensures r.Ok? ==> (r.value <==> n == |live|)
  {
    match Size(live)
    case Ok(k) => Ok(n == k)
    case Err(x) => Err(x)
  }

  /** `size_greater(n)`: `n > size`, the argument first. */
  function SizeGreater(live: seq<Node>, n: int): (r: Result<bool>)
    ensures r.Ok? <==> live != []
    ensures r.Ok? ==> (r.value <==> n > |live|)
  {
    match Size(live)
    case Ok(k) => Ok(n > k)
    case Err(x) => Err(x)
  }

  /** `size_less(n)`: `n < size`, the argument first. */
  function SizeLess(live: seq<Node>, n: int): (r: Result<bool>)
    ensures r.Ok? <==> live != []
    ensures r.Ok? ==> (r.value <==> n < |live|)
  {
    match Size(live)
    case Ok(k) => Ok(n < k)
    case Err(x) => Err(x)
  }

  /** `size_not_equal(n)`: `n != size`. */
  function SizeNotEqual(live: seq<Node>, n: int): (r: Result<bool>)
    ensures r.Ok? <==> live != []
    ensures r.Ok? ==> (r.value <==> n != |live|)
  {
    match Size(live)
    case Ok(k) => Ok(n != k)
    case Err(x) => Err(x)
  }

  /** `size_greater(n)` and `size_less(n)` are `size_less` and
      `size_greater` with the roles swapped: `n > size` is `size < n`. */
  lemma SizeComparisonsAgree(live: seq<Node>, n: int, m: int)
    requires live != []
    ensures SizeGreater(live, n).value && SizeLess(live, m).value ==> m < n
    ensures SizeNotEqual(live, n).value == !SizeEqual(live, n).value
    ensures SizeEqual(live, n).value && SizeEqual(live, m).value ==> n == m
  {
  }

  /** No wait ends on an empty list, so `size_equal(0)` is never True and
      every query on an empty match list raises TimeoutException. */
  lemma NoEmptyCollection(live: seq<Node>, n: int)
    ensures SizeEqual(live, 0) != Ok(true)
    ensures live == [] ==> SizeEqual(live, n) == SizeGreater(live, n) == SizeLess(live, n)
                             == SizeNotEqual(live, n) == Err(TimeoutException)
  {
  }
}
