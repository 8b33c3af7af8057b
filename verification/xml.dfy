/** The XML tree of the CRDT engine's `document-store` fragment: elements with
    a tag, attributes in order and ordered children, and text leaves. The
    engine's textual form is reproduced by `Stringify`: an element is written as
    `<tag name="value" ...>children</tag>`, a text leaf as its characters with
    no escaping, and a fragment as its children one after another. */
module Xml {

  datatype Attr = Attr(name: string, value: string)

  datatype Node =
    | Element(tag: string, attrs: seq<Attr>, children: seq<Node>)
    | Text(content: string)

  function AttrsString(attrs: seq<Attr>): string
  {
    if attrs == [] then ""
    else " " + attrs[0].name + "=\"" + attrs[0].value + "\"" + AttrsString(attrs[1..])
  }

  function OpenTag(tag: string, attrs: seq<Attr>): string
  {
    "<" + tag + AttrsString(attrs) + ">"
  }

  function CloseTag(tag: string): string
  {
    "</" + tag + ">"
  }

  /** `str(node)` for one element or text node. */
  function Stringify(n: Node): (r: string)
    ensures n.Text? ==> r == n.content
    ensures n.Element? ==> |r| >= 2 && r[0] == '<' && r[|r| - 1] == '>'
  {
    match n
    case Text(s) => s
    case Element(tag, attrs, children) =>
      OpenTag(tag, attrs) + StringifySeq(children) + CloseTag(tag)
  }

  /** `str(fragment)`: the nodes written one after another. */
  function StringifySeq(ns: seq<Node>): string
  {
    if ns == [] then "" else Stringify(ns[0]) + StringifySeq(ns[1..])
  }

  /** The trees whose text form the tag-stripping expression reads back
      exactly: tags are non-empty, no `>` occurs inside a tag or an attribute,
      and no `<` occurs in text. */
  predicate WellFormed(n: Node) {
    match n
    case Text(s) => '<' !in s
    case Element(tag, attrs, children) =>
      && tag != []
      && '>' !in tag
      && (forall a | a in attrs :: '>' !in a.name && '>' !in a.value)
      && (forall c | c in children :: WellFormed(c))
  }

  lemma {:induction false} StringifySeqAppend(ns1: seq<Node>, ns2: seq<Node>)
    ensures StringifySeq(ns1 + ns2) == StringifySeq(ns1) + StringifySeq(ns2)
  {
    if ns1 != [] {
      assert (ns1 + ns2)[1..] == ns1[1..] + ns2;
      StringifySeqAppend(ns1[1..], ns2);
    } else {
      assert ns1 + ns2 == ns2;
    }
  }
}
