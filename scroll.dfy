/**
 * The Scroll controller: construction (argument check, option merge, initial
 * style, listener registration) and the event-dispatch switch.
 */
module ScrollController {
  import opened Wrappers
  import opened JsValues
  import opened Selector
  import opened Options

  /** The `TypeError` the constructor throws. */
  datatype TypeError = TypeError(message: string)

  /** Where a listener is registered: on an element or on the window. */
  datatype Target = OnElement(e: Element) | OnWindow

  /** One `addEventListener(eventType, handler, useCapture)` call. */
  datatype Listener = Listener(target: Target, eventType: string, handler: Scroll, useCapture: bool)

  /** A DOM event, as far as the dispatch switch looks at it. */
  datatype Event = Event(eventType: string)

  /** The controller's gesture and layout handlers that each case of the switch stands for. */
  datatype Handler = StartEvent | MoveEvent | EndEvent | Refresh

  /** An element's inline style, property name to value; values are opaque strings. */
  type Style = map<string, string>

  /** The four style properties the constructor writes on its element. */
  const InitialStyle: Style := map[
    "webkitTransitionProperty" := "-webkit-transform",
    "webkitTransitionTimingFunction" := "cubic-bezier(0, 0, 0.25, 1)",
    "webkitTransitionDuration" := "0",
    "webkitTransform" := "translate(0px, 0px)"]

  /** Writing the four properties one after another amounts to overlaying `InitialStyle`. */
  lemma InitialStyleWrites(st: Style)
    ensures st["webkitTransitionProperty" := "-webkit-transform"]
              ["webkitTransitionTimingFunction" := "cubic-bezier(0, 0, 0.25, 1)"]
              ["webkitTransitionDuration" := "0"]
              ["webkitTransform" := "translate(0px, 0px)"]
            == st + InitialStyle
  {
  }

  /** The mouse events registered on the element, in order. */
  const MouseEvents: seq<string> := ["mousedown", "mousemove", "mouseup"]

  /** The host page: its document, the inline styles of its elements and all listener registrations. */
  class Page {
    const document: Document
    var styles: map<Element, Style>
    var listeners: seq<Listener>

    constructor (document: Document)
      ensures this.document == document && styles == map[] && listeners == []
    {
      this.document := document;
      styles := map[];
      listeners := [];
    }

    /** `e.style`: an element nothing was written to has an empty inline style. */
    function StyleOf(e: Element): Style
      reads this
    {
      if e in styles then styles[e] else map[]
    }

    /** `target.addEventListener(eventType, handler, useCapture)`. */
    method AddEventListener(target: Target, eventType: string, handler: Scroll, useCapture: bool)
      modifies this`listeners
      ensures listeners == old(listeners) + [Listener(target, eventType, handler, useCapture)]
    {
      listeners := listeners + [Listener(target, eventType, handler, useCapture)];
    }

    /** `e.style[property] = value`. */
    method SetStyle(e: Element, property: string, value: string)
      modifies this`styles
      ensures StyleOf(e) == old(StyleOf(e))[property := value]
      ensures styles == old(styles)[e := StyleOf(e)]
    {
      styles := styles[e := StyleOf(e)[property := value]];
    }
  }

  /**
   * The registrations a controller makes, in order: the three mouse events on its
   * element, `DOMSubtreeModified` on its element exactly when `checkDOMChanges` is
   * set, and `resize` on the window; all in the bubbling phase, all handled by the
   * controller itself.
   */
  function Registrations(e: Element, checkDOMChanges: bool, handler: Scroll): (r: seq<Listener>)
    ensures |r| == if checkDOMChanges then 5 else 4
    ensures forall i :: 0 <= i < |r| ==> r[i].handler == handler && !r[i].useCapture
    ensures forall i :: 0 <= i < 3 ==> r[i].target == OnElement(e) && r[i].eventType == MouseEvents[i]
    ensures r[|r| - 1].target == OnWindow && r[|r| - 1].eventType == "resize"
    ensures checkDOMChanges <==> exists i :: 0 <= i < |r| && r[i].eventType == "DOMSubtreeModified"
    ensures checkDOMChanges ==> r[3] == Listener(OnElement(e), "DOMSubtreeModified", handler, false)
  {
    var r :=
      [Listener(OnElement(e), "mousedown", handler, false),
       Listener(OnElement(e), "mousemove", handler, false),
       Listener(OnElement(e), "mouseup", handler, false)]
      + (if checkDOMChanges then [Listener(OnElement(e), "DOMSubtreeModified", handler, false)] else [])
      + [Listener(OnWindow, "resize", handler, false)];
    assert checkDOMChanges ==> r[3].eventType == "DOMSubtreeModified";
    r
  }

  /**
   * The constructor's guard: it throws exactly when the element argument resolves
   * to nothing, or when `options` is truthy but not an `Object`; otherwise it goes
   * on with the resolved element.
   */
  function CheckArguments(doc: Document, element: Value, options: Value): (r: Result<Element, TypeError>)
    ensures r.Failure? <==> GetElement(doc, element).None? || (Truthy(options) && !InstanceOfObject(options))
    ensures r.Success? ==> GetElement(doc, element) == Some(r.value)
    ensures r.Failure? ==> r.error == TypeError("Arguments are not valid")
  {
    var resolved := GetElement(doc, element);
    if resolved.None? || (Truthy(options) && !InstanceOfObject(options)) then
      Failure(TypeError("Arguments are not valid"))
    else
      Success(resolved.value)
  }

  /** A controller bound to one element. */
  class Scroll {
    var element: Element
    var options: map<string, Value>
    var onScrollEnd: Value
    var isScroll: bool
    var isEnable: bool

    /**
     * The constructor past its guard: merge the options, move `onScrollEnd` out of
     * them, write the initial style and register the listeners.
     */
    constructor (page: Page, element: Element, options: Value)
      requires !Truthy(options) || InstanceOfObject(options)
      modifies page
      ensures this.element == element
      ensures this.options == StoredOptions(options)
      ensures onScrollEnd == ScrollEndCallback(options)
      ensures !isScroll && isEnable
      ensures page.styles == old(page.styles)[element := old(page.StyleOf(element)) + InitialStyle]
      ensures page.listeners == old(page.listeners) + Registrations(element, ListensForSubtree(options), this)
    {
      this.element := element;
      var merged := CopyOwnProperties(Defaults, options);
      onScrollEnd := merged["onScrollEnd"];
      this.options := merged - {"onScrollEnd"};
      new;
      WriteInitialStyle(page);
      assert "checkDOMChanges" in Defaults;
      var checkDOMChanges := Truthy(this.options["checkDOMChanges"]);
      assert checkDOMChanges == ListensForSubtree(options);
      RegisterListeners(page, checkDOMChanges);
      isScroll := false;
      isEnable := true;
    }

    /** The four writes to `this.element.style`. */
    method WriteInitialStyle(page: Page)
      modifies page`styles
      ensures page.styles == old(page.styles)[element := old(page.StyleOf(element)) + InitialStyle]
    {
      ghost var before := page.StyleOf(element);
      page.SetStyle(element, "webkitTransitionProperty", "-webkit-transform");
      page.SetStyle(element, "webkitTransitionTimingFunction", "cubic-bezier(0, 0, 0.25, 1)");
      page.SetStyle(element, "webkitTransitionDuration", "0");
      page.SetStyle(element, "webkitTransform", "translate(0px, 0px)");
      InitialStyleWrites(before);
    }

    /** The `forEach` over the mouse events, then `DOMSubtreeModified` if asked for, then `resize`. */
    method RegisterListeners(page: Page, checkDOMChanges: bool)
      modifies page`listeners
      ensures page.listeners == old(page.listeners) + Registrations(element, checkDOMChanges, this)
    {
      for i := 0 to |MouseEvents|
        invariant page.listeners == old(page.listeners) + Registrations(element, false, this)[..i]
      {
        page.AddEventListener(OnElement(element), MouseEvents[i], this, false);
      }
      if checkDOMChanges {
        page.AddEventListener(OnElement(element), "DOMSubtreeModified", this, false);
      }
      page.AddEventListener(OnWindow, "resize", this, false);
    }

    /**
     * `handleEvent`: selects the case for the event's type. Every case body is a
     * commented-out call, so the answer is the handler the case stands for, and no
     * state is changed (the method may modify nothing).
     */
    method HandleEvent(event: Event) returns (reached: Option<Handler>)
      ensures reached == Some(StartEvent) <==> event.eventType == "mousedown" && isEnable
      ensures reached == Some(MoveEvent) <==> event.eventType == "mousemove" && isScroll
      ensures reached == Some(EndEvent) <==> event.eventType == "mouseup"
      ensures reached == Some(Refresh) <==> event.eventType == "DOMSubtreeModified" || event.eventType == "resize"
    {
      reached := None;
      var t := event.eventType;
      if t == "mousedown" {
        if isEnable {
          reached := Some(StartEvent);
        }
      } else if t == "mousemove" {
        if isScroll {
          reached := Some(MoveEvent);
        }
      } else if t == "mouseup" {
        reached := Some(EndEvent);
      } else if t == "DOMSubtreeModified" || t == "resize" {
        reached := Some(Refresh);
      }
    }
  }

  /**
   * The host delivering `events` to a controller one after another. A controller
   * that is not scrolling, as every freshly constructed one is, never reaches
   * `moveEvent`, and dispatch changes nothing, so this holds for the whole sequence.
   */
  method Dispatch(s: Scroll, events: seq<Event>) returns (reached: seq<Option<Handler>>)
    requires !s.isScroll
    ensures !s.isScroll
    ensures |reached| == |events|
    ensures forall i :: 0 <= i < |events| ==> reached[i] != Some(MoveEvent)
    ensures forall i :: 0 <= i < |events| ==>
      (reached[i] == Some(StartEvent) <==> events[i].eventType == "mousedown" && s.isEnable)
  {
    reached := [];
    for i := 0 to |events|
      invariant |reached| == i
      invariant forall j :: 0 <= j < i ==> reached[j] != Some(MoveEvent)
      invariant forall j :: 0 <= j < i ==>
        (reached[j] == Some(StartEvent) <==> events[j].eventType == "mousedown" && s.isEnable)
    {
      var r := s.HandleEvent(events[i]);
      reached := reached + [r];
    }
  }

  /**
   * `new Scroll(element, options)`: resolve the element, check the arguments and,
   * if they pass, run the constructor. A throw happens before any style is written
   * or any listener registered.
   */
  method Construct(page: Page, element: Value, options: Value) returns (outcome: Result<Scroll, TypeError>)
    modifies page
    ensures outcome.Failure? <==> CheckArguments(page.document, element, options).Failure?
    ensures outcome.Failure? ==> outcome.error == TypeError("Arguments are not valid")
    ensures outcome.Failure? ==> page.styles == old(page.styles) && page.listeners == old(page.listeners)
    ensures outcome.Success? ==>
      var s := outcome.value;
      var e := CheckArguments(page.document, element, options).value;
      && fresh(s)
      && s.element == e
      && s.options == StoredOptions(options)
      && s.onScrollEnd == ScrollEndCallback(options)
      && !s.isScroll && s.isEnable
      && page.styles == old(page.styles)[e := old(page.StyleOf(e)) + InitialStyle]
      && page.StyleOf(e)["webkitTransform"] == "translate(0px, 0px)"
      && page.StyleOf(e)["webkitTransitionDuration"] == "0"
      && page.listeners == old(page.listeners) + Registrations(e, ListensForSubtree(options), s)
  {
    var checked := CheckArguments(page.document, element, options);
    if checked.Failure? {
      return Failure(checked.error);
    }
    var s := new Scroll(page, checked.value, options);
    outcome := Success(s);
  }
}
