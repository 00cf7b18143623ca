/**
 * The microformats2 document that the HTML parser hands to the pipeline,
 * read-only from the pipeline's point of view.
 */
module Mf2 {
  import opened Wrappers

  /**
   * One entry of a property's value array: a plain string, or an object
   * (an embedded microformat, or an `e-*` value) with an optional `value`
   * field and, for embedded microformats, types and properties of its own.
   */
  datatype Value =
    | Text(text: string)
    | Embedded(value: Option<string>, types: seq<string>, properties: seq<Property>)

  /** A property with its name and its ordered value array. */
  datatype Property = Property(name: string, values: seq<Value>)

  /**
   * A top-level item; `properties` is in the parser's key order. The list
   * may hold one name twice, which a JavaScript object cannot: the model is
   * more general than the parser's output, and nothing below relies on
   * names being distinct.
   */
  datatype Item = Item(types: seq<string>, properties: seq<Property>)

  /** The parser's output: top-level `items`, and `rels` mapping each rel name to its URLs. */
  datatype Document = Document(items: seq<Item>, rels: map<string, seq<string>>)

  /** The position of one top-level property value: item, property, index in the value array. */
  datatype Pos = Pos(item: nat, prop: nat, index: nat)

  predicate InDoc(doc: Document, p: Pos) {
    p.item < |doc.items|
    && p.prop < |doc.items[p.item].properties|
    && p.index < |doc.items[p.item].properties[p.prop].values|
  }

  function PropertyAt(doc: Document, p: Pos): (r: Property)
    requires InDoc(doc, p)
  {
    doc.items[p.item].properties[p.prop]
  }

  function ValueAt(doc: Document, p: Pos): (r: Value)
    requires InDoc(doc, p)
  {
    PropertyAt(doc, p).values[p.index]
  }

  /** Document (traversal) order of positions: lexicographic on item, property, index. */
  predicate Before(a: Pos, b: Pos) {
    a.item < b.item
    || (a.item == b.item && a.prop < b.prop)
    || (a.item == b.item && a.prop == b.prop && a.index < b.index)
  }

  /** Strictly increasing in document order, hence also free of repeated positions. */
  predicate Increasing(s: seq<Pos>) {
    forall k, l :: 0 <= k < l < |s| ==> Before(s[k], s[l])
  }

}
