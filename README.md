# Scroll: a Dafny model of the controller's construction and dispatch

The Scroll library binds a controller to one DOM element so that its content can
be dragged inside a fixed-size container. The code of the library
(`js/scroll.js`) does three things, and this project models all three:

- **Element resolution** (`getElement`). A string argument is a selector. A
  string holding any of `* . # > + :`, whitespace (ECMAScript's `\s`) or
  `[ ] ( )` goes to `document.querySelector`. Any other string goes to
  `document.getElementById`, and falls back to the first element of
  `document.getElementsByTagName`. An `HTMLElement` is taken as it is. Any other
  value resolves to nothing. The document's answers are a `Document` value
  (three maps), so the model states which lookup decides the result.
- **Construction** (`new Scroll(element, options)`). The constructor throws a
  `TypeError` when the element does not resolve, or when `options` is truthy
  but not an `Object`. Otherwise it:
  - copies the own enumerable properties of `options` over the defaults;
  - moves `onScrollEnd` out of the merged options into the controller;
  - writes four inline style properties;
  - registers the controller as listener for `mousedown`, `mousemove` and
    `mouseup` on the element, for `DOMSubtreeModified` on the element when the
    merged `checkDOMChanges` is truthy, and for `resize` on the window;
  - sets `isScroll` to false and `isEnable` to true.

  The page (its styles and its listener registrations) is a `Page` object that
  construction changes. `Construct` returns a `Result`, so the model can state
  that a throw leaves the page untouched.
- **Dispatch** (`handleEvent`). A switch on the event type. Every case body is a
  commented-out call (`startEvent`, `moveEvent`, `endEvent`, `refresh`), so
  `HandleEvent` returns which of these calls the case stands for. It has no
  `modifies` clause, so the verifier checks that dispatch changes no state.
  Nothing in the library sets `isScroll` to true. `Dispatch` delivers a
  sequence of events to a controller that is not scrolling, as a fresh one is,
  and shows that the `mousemove` case never reaches its `moveEvent` call.

JavaScript values are the datatype `JsValues.Value`. An object (`Obj`) carries
its own enumerable properties, the enumerable properties it inherits, and
whether `Object.prototype` is on its prototype chain (whether `instanceof
Object` holds). The library's files are `wrappers.dfy` (Option, Result),
`values.dfy` (JavaScript values), `selector.dfy` (`getElement`),
`options.dfy` (defaults and merge) and `scroll.dfy` (the controller).
`Document.QuerySelector`, `Document.GetElementById`, `Document.FirstByTagName`
and `JsValues.EnumeratedNames` are plain definitions of DOM and language
behaviour (`querySelector`, `getElementById`, `getElementsByTagName(s)[0]`, the
names `for…in` visits); the properties built on them are stated by
`GetElement`, `HasOwnProperty` and `OwnProperties`.

## Notes on the code

- `js/scroll.js:43` stores `onScrollEnd` without checking that it can be called.
- `js/scroll.js:35` rejects truthy values that are not `instanceof Object`
  (primitives, and objects without `Object.prototype` on their chain, such as
  `Object.create(null)`). Falsy values such as `0`, `""`, `false` and `null`
  pass the check and add no properties.
- `js/scroll.js:65`, `70`, `74` and `78` are comments, and the handlers they name
  (`startEvent`, `moveEvent`, `endEvent`, `refresh`) are never defined.

## Model

| member | source | states |
|---|---|---|
| `Selector.HasSelectorSyntax` | js/scroll.js:12 | true exactly when some character of the string is one of `* . # > + : [ ] ( )` or an ECMAScript whitespace character |
| `Selector.GetElement` | js/scroll.js:9-21 | a string with selector syntax resolves to the structural query's answer; any other string to the id match, else the first element of that tag name, else nothing; an element resolves to itself; every other value to nothing |
| `Selector.StructuralSelectorUsesQueryOnly` | js/scroll.js:12-13 | a string with selector syntax resolves the same in any two documents that agree on the structural query, whatever their id and tag lookups say |
| `Selector.PlainSelectorIgnoresQuery` | js/scroll.js:14-16 | a string without selector syntax resolves the same in any two documents that agree on id and tag lookups, whatever their structural query says |
| `JsValues.OwnProperties` | js/scroll.js:38-39 | the properties `for…in` visits and `hasOwnProperty` accepts: exactly the own enumerable ones, with their values |
| `Options.Merge` | js/scroll.js:25-42 | the merged keys are the default keys plus the own property names of `options`; a supplied own value wins; a default with no own property of its name keeps its value; inherited properties are never copied |
| `Options.CopyOwnProperties` | js/scroll.js:38-42 | the `for…in` loop over every enumerable name, own or inherited and in any order, copying only own ones, yields `Merge(defaults, options)` |
| `Options.ScrollEndCallback` | js/scroll.js:43 | the controller's `onScrollEnd` is the supplied own `onScrollEnd`, whatever value it is, else the no-op default |
| `Options.StoredOptions` | js/scroll.js:43-44 | the stored options lack `onScrollEnd`; every other key is a default or an own property of `options`, with its merged value |
| `Options.ListensForSubtree` | js/scroll.js:53 | the merged `checkDOMChanges` is truthy exactly when `options` has no own `checkDOMChanges` or a truthy one |
| `ScrollController.CheckArguments` | js/scroll.js:35-37 | fails with `TypeError('Arguments are not valid')` exactly when the element does not resolve, or `options` is truthy and not an `Object`; otherwise yields the resolved element |
| `ScrollController.Registrations` | js/scroll.js:50-56 | `mousedown`, `mousemove`, `mouseup` on the element first and `resize` on the window last, always; `DOMSubtreeModified` on the element, fourth, exactly when `checkDOMChanges`; all handled by the controller, none in the capture phase |
| `ScrollController.InitialStyleWrites` | js/scroll.js:46-49 | the four successive style writes amount to overlaying the initial style on whatever the element's style held |
| `ScrollController.Scroll.WriteInitialStyle` | js/scroll.js:45-49 | the element's style gains transition property `-webkit-transform`, the timing function, duration `'0'` and transform `'translate(0px, 0px)'`; other elements' styles and the element's other properties are unchanged |
| `ScrollController.Scroll.RegisterListeners` | js/scroll.js:50-56 | the page's listener list is extended by exactly `Registrations`, in that order |
| `ScrollController.Scroll.constructor` | js/scroll.js:38-58 | the controller holds the resolved element, the stored options and the callback; `isScroll` is false and `isEnable` true; the style and the listeners are as above and nothing else changes |
| `ScrollController.Scroll.HandleEvent` | js/scroll.js:60-81 | `mousedown` reaches `startEvent` exactly when enabled; `mousemove` reaches `moveEvent` exactly when scrolling; `mouseup` always reaches `endEvent`; `DOMSubtreeModified` and `resize` reach `refresh`; other types reach nothing; no state changes |
| `ScrollController.Construct` | js/scroll.js:22-59 | throws exactly when `CheckArguments` fails, writing no style and registering no listener; otherwise a fresh controller in the initial state above, with transform `'translate(0px, 0px)'` and duration `'0'` on its element |
| `JsValues.Truthy` | js/scroll.js:35 | a value is falsy exactly when it is `undefined`, `null`, `false`, `0` or `""`; used for `!this.element`, `options && …` and `if (this.options.checkDOMChanges)` |
| `JsValues.InstanceOfObject` | js/scroll.js:35 | `options instanceof Object`: false for every primitive, `null` and `undefined`, true for functions and elements, and only ever true of truthy values |
| `JsValues.HasOwnProperty` | js/scroll.js:39 | a name `hasOwnProperty` accepts is one that `for…in` visits |
| `ScrollController.Page.SetStyle` | js/scroll.js:46-49 | one style write sets the property on that element's style and leaves every other property and every other element's style unchanged |
| `ScrollController.Page.AddEventListener` | js/scroll.js:51-56 | one `addEventListener` call appends exactly that registration to the page's listener list |
| `ScrollController.Dispatch` | js/scroll.js:60-81 | delivering any sequence of events to a controller that is not scrolling never reaches `moveEvent`, reaches `startEvent` exactly for the `mousedown` events when enabled, and leaves the controller not scrolling |

## Left out

- The DOM lookups (`querySelector`, `getElementById`, `getElementsByTagName`) are foreign calls. They are a snapshot of their answers (`Document`). A selector that `querySelector` rejects with a `SyntaxError` is not modelled; it resolves to nothing.
- `addEventListener` and the style object are recorded, not executed. The DOM's rule that registering the same listener twice is a no-op is not modelled. It never arises here, because each registration of one construction has a distinct target and type.
- The style values (the timing function, the transform) are opaque strings.
- The regular expression is modelled as membership in an explicit character set. JavaScript strings are UTF-16 and Dafny strings are Unicode scalar values, so lone surrogates cannot be written; no special character is a surrogate.
- Numbers are integers: `NaN` and `-0` (both falsy) are left out. Symbols and BigInts are left out.
- Functions and elements passed as `options` are taken to enumerate no names at all. An element really enumerates its inherited DOM members under `for…in`; the merge is unaffected, because `hasOwnProperty` rejects every one of them, but the model's `EnumeratedNames` omits them. Own non-enumerable properties, getters, a shadowed `hasOwnProperty`, and an own `__proto__` key (whose copy would change the prototype instead of adding a key) are not modelled.
- The default `onScrollEnd` is one fixed function value; in the library each construction creates a fresh no-op function.
- The order in which `for…in` visits names is left open: the loop picks any remaining name, and the result is the same for every order.
- The gesture handlers (`startEvent`, `moveEvent`, `endEvent`, `refresh`) are never defined in the code; their calls are comments. Dragging, clamping, geometry, `scrollTo`, touch and orientation changes are therefore not modelled.
- Two controllers on one element share that element's style. The model has this too, through `Page.styles`, but states no property about sharing.
