/** The parsed-response abstraction: what the client's XPath queries can see of
    a document, and `value_at_xpath`, its defaulting scalar lookup. */
module Xml {
  import opened Wrappers
  import opened Text

  type Path = string

  /** An element an XPath query matched: its text content (`content`), the
      markup of its children (`children.to_s`) and its own markup (`to_s`). */
  datatype Element = Element(content: string, inner: string, markup: string)

  /** A node, seen through the queries made relative to it: the first element
      each path matches, if any. */
  datatype Node = Node(at: map<Path, Element>)

  /** A parsed response: its root, the `//cuentas/cuenta` nodes and the
      `//listadoMovimientos/movimiento` nodes, in document order. */
  datatype Document = Document(root: Node, cuentas: seq<Node>, movimientos: seq<Node>)

  /** An element the code dereferenced although the response did not contain
      it (Ruby raises `NoMethodError` on `nil`). */
  datatype Failure = MissingNode(path: Path)

  /** Nokogiri's `at_xpath`: the first match, or nil. */
  function AtXPath(n: Node, path: Path): Option<Element> {
    if path in n.at then Some(n.at[path]) else None
  }

  /** `#{x}` of a possibly-nil node: its markup, or the empty string for nil. */
  function Interpolate(e: Option<Element>): string {
    match e
    case Some(el) => el.markup
    case None => ""
  }

  /** `value_at_xpath(node, path, default)` with a possibly-nil default: the
      stripped text of the element when the path matches, the default otherwise.
      Absence never fails. */
  function ValueAtOr(n: Node, path: Path, default: Option<string>): (r: Option<string>)
    ensures path !in n.at ==> r == default
    ensures path in n.at ==> r.Some? && StrippedFrom(r.value, n.at[path].content)
  {
    match AtXPath(n, path)
    case Some(el) => Some(Strip(el.content))
    case None => default
  }

  /** `value_at_xpath(node, path)` and `value_at_xpath(node, path, default)`
      with a string default (`''` when none is given). */
  function ValueAt(n: Node, path: Path, default: string): (r: string)
    ensures path !in n.at ==> r == default
    ensures path in n.at ==> StrippedFrom(r, n.at[path].content)
    ensures path in n.at && AllSpace(n.at[path].content) ==> r == ""
  {
    ValueAtOr(n, path, Some(default)).value
  }
}
