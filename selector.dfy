/**
 * Resolution of the element argument (`getElement`): a string is a selector,
 * an element is taken as it is, anything else resolves to nothing.
 */
module Selector {
  import opened Wrappers
  import opened JsValues

  /**
   * What the document answers to the three lookups `getElement` uses, as a
   * snapshot: `querySelector` by structural selector, `getElementById` by id and
   * `getElementsByTagName` by tag name (in document order). A name absent from
   * a map has no match.
   */
  datatype Document = Document(
    query: map<string, Element>,
    byId: map<string, Element>,
    byTag: map<string, seq<Element>>)
  {
    /** `document.querySelector(s)`. */
    function QuerySelector(s: string): Option<Element>
    {
      if s in query then Some(query[s]) else None
    }

    /** `document.getElementById(s)`. */
    function GetElementById(s: string): Option<Element>
    {
      if s in byId then Some(byId[s]) else None
    }

    /** `document.getElementsByTagName(s)[0]`: the first element with tag name `s`, if any. */
    function FirstByTagName(s: string): Option<Element>
    {
      if s in byTag && |byTag[s]| > 0 then Some(byTag[s][0]) else None
    }
  }

  /** `\s` of ECMAScript regular expressions: White_Space and line terminators. */
  predicate IsWhitespace(c: char)
  {
    || c == '\t' || c == '\n' || c == '\U{B}' || c == '\U{C}' || c == '\r'
    || c == ' ' || c == '\U{A0}' || c == '\U{1680}'
    || ('\U{2000}' <= c <= '\U{200A}')
    || c == '\U{2028}' || c == '\U{2029}' || c == '\U{202F}' || c == '\U{205F}'
    || c == '\U{3000}' || c == '\U{FEFF}'
  }

  /** The character class `[\*\.\#\>\+\:\s\[\]\(\)]`. */
  predicate IsSelectorChar(c: char)
  {
    c in {'*', '.', '#', '>', '+', ':', '[', ']', '(', ')'} || IsWhitespace(c)
  }

  /** The regular-expression test: does `s` contain a character of the class anywhere? */
  function HasSelectorSyntax(s: string): (r: bool)
    ensures r <==> exists i :: 0 <= i < |s| && IsSelectorChar(s[i])
  {
    if s == [] then false
    else if IsSelectorChar(s[0]) then true
    else
      var rest := HasSelectorSyntax(s[1..]);
      assert forall i :: 1 <= i < |s| ==> s[i] == s[1..][i - 1];
      rest
  }

  /**
   * `getElement(selector)`. A string with selector syntax goes to the structural
   * query alone; any other string to the id lookup, falling back to the first
   * element of that tag name; an element passes through; every other value,
   * `null` and `undefined` included, resolves to nothing.
   */
  function GetElement(doc: Document, selector: Value): (r: Option<Element>)
    ensures selector.Str? && HasSelectorSyntax(selector.s) ==>
      r == doc.QuerySelector(selector.s)
    ensures selector.Str? && !HasSelectorSyntax(selector.s) ==>
      r == (if selector.s in doc.byId then Some(doc.byId[selector.s]) else doc.FirstByTagName(selector.s))
    ensures selector.Node? ==> r == Some(selector.e)
    ensures !selector.Str? && !selector.Node? ==> r == None
  {
    match selector
    case Str(s) =>
      if HasSelectorSyntax(s) then doc.QuerySelector(s)
      else
        var byId := doc.GetElementById(s);
        if byId.Some? then byId else doc.FirstByTagName(s)
    case Node(e) => Some(e)
    case _ => None
  }

  /** A string with selector syntax is resolved through the structural query only. */
  lemma StructuralSelectorUsesQueryOnly(d1: Document, d2: Document, s: string)
    requires HasSelectorSyntax(s)
    requires d1.query == d2.query
    ensures GetElement(d1, Str(s)) == GetElement(d2, Str(s))
  {
  }

  /** Any other string never consults the structural query. */
  lemma PlainSelectorIgnoresQuery(d1: Document, d2: Document, s: string)
    requires !HasSelectorSyntax(s)
    requires d1.byId == d2.byId && d1.byTag == d2.byTag
    ensures GetElement(d1, Str(s)) == GetElement(d2, Str(s))
  {
  }
}
