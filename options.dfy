/**
 * The options of a Scroll controller: the defaults, and the merge that lets the
 * caller's own properties override them.
 */
module Options {
  import opened JsValues

  /** The no-op `function () {}` that stands for "no `onScrollEnd` callback". */
  const DefaultOnScrollEnd: Value := Fun(0)

  /** The options every controller starts from, before the caller's are merged in. */
  const Defaults: map<string, Value> := map[
    "hScrollbar" := Bool(false),
    "vScrollbar" := Bool(false),
    "fadeScrollbars" := Bool(true),
    "checkDOMChanges" := Bool(true),
    "bounce" := Bool(false),
    "snap" := Bool(false),
    "momentum" := Bool(false),
    "onScrollEnd" := DefaultOnScrollEnd]

  /**
   * Defaults overridden by the own properties of `options`: a key keeps its
   * default unless `options` has an own property of that name, in which case the
   * supplied value wins; extra own keys are added; an inherited property is never
   * copied.
   */
  function Merge(defaults: map<string, Value>, options: Value): (r: map<string, Value>)
    ensures forall k :: k in r <==> k in defaults || HasOwnProperty(options, k)
    ensures forall k :: HasOwnProperty(options, k) ==> r[k] == options.own[k]
    ensures forall k :: k in defaults && !HasOwnProperty(options, k) ==> r[k] == defaults[k]
  {
    defaults + OwnProperties(options)
  }

  /**
   * The `for (option in options)` loop: visits every enumerable name, own or
   * inherited, in an order left open, and copies those `hasOwnProperty` accepts.
   */
  method CopyOwnProperties(defaults: map<string, Value>, options: Value) returns (merged: map<string, Value>)
    ensures merged == Merge(defaults, options)
  {
    merged := defaults;
    var pending := EnumeratedNames(options);
    ghost var visited: set<string> := {};
    while pending != {}
      invariant pending + visited == EnumeratedNames(options)
      invariant pending !! visited
      invariant forall k :: k in merged <==> k in defaults || (k in visited && HasOwnProperty(options, k))
      invariant forall k :: k in visited && HasOwnProperty(options, k) ==> merged[k] == options.own[k]
      invariant forall k :: k in merged && !(k in visited && HasOwnProperty(options, k)) ==> merged[k] == defaults[k]
      decreases pending
    {
      var name :| name in pending;
      if HasOwnProperty(options, name) {
        merged := merged[name := options.own[name]];
      }
      pending := pending - {name};
      visited := visited + {name};
    }
  }

  /** `this.onScrollEnd`: the merged `onScrollEnd`, whatever it is; no check that it can be called. */
  function ScrollEndCallback(options: Value): (f: Value)
    ensures HasOwnProperty(options, "onScrollEnd") ==> f == options.own["onScrollEnd"]
    ensures !HasOwnProperty(options, "onScrollEnd") ==> f == DefaultOnScrollEnd
  {
    Merge(Defaults, options)["onScrollEnd"]
  }

  /** `this.options` once `onScrollEnd` has been deleted from the merged options. */
  function StoredOptions(options: Value): (m: map<string, Value>)
    ensures "onScrollEnd" !in m
    ensures forall k :: k != "onScrollEnd" ==> (k in m <==> k in Defaults || HasOwnProperty(options, k))
    ensures forall k :: k in m ==> m[k] == Merge(Defaults, options)[k]
  {
    Merge(Defaults, options) - {"onScrollEnd"}
  }

  /** Whether the merged `checkDOMChanges` is truthy: true unless the caller supplied a falsy one. */
  predicate ListensForSubtree(options: Value)
    ensures ListensForSubtree(options) <==>
      !HasOwnProperty(options, "checkDOMChanges") || Truthy(options.own["checkDOMChanges"])
  {
    Truthy(StoredOptions(options)["checkDOMChanges"])
  }
}
