/**
 * The value tree that the XML decoder hands to the field extractor.
 *
 * The decoder is configured so that every element's attributes are grouped
 * under one key named `attributes`, with no name prefix, and attribute text is
 * converted to numbers or booleans where it reads as one. An element with
 * attributes or child elements becomes an object whose remaining keys are its
 * child tag names (same-named siblings grouped into one array) and its text
 * content. An element with neither decodes to its text alone, which is the
 * empty string when it has no text either.
 */
module DecodedTree {
  import opened Wrappers

  /** A decoded attribute value. */
  datatype AttrValue =
    | AStr(s: string)
    | ANum(x: real)
    | ABool(b: bool)
    | AList(items: seq<AttrValue>)

  /** The attribute group of one element: attribute name to decoded value. */
  type Attributes = map<string, AttrValue>

  /**
   * A decoded value. `Object` is an element: its attribute group (absent when the
   * element has no attributes) and the values of its other entries, in the order
   * in which the object enumerates them. That order is whatever the decoder
   * produced; it is not promised to be document order.
   */
  datatype Value =
    | Null
    | Str(s: string)
    | Number(x: real)
    | Boolean(b: bool)
    | Array(items: seq<Value>)
    | Object(attributes: Option<Attributes>, children: seq<Value>)

  /** Truthiness of an attribute value under the `||` operator: empty text, zero and false are falsy; arrays are truthy. */
  predicate Truthy(a: AttrValue)
    ensures Truthy(a) <==> a !in {AStr(""), ANum(0.0), ABool(false)}
  {
    match a
    case AStr(s) => s != ""
    case ANum(x) => x != 0.0
    case ABool(b) => b
    case AList(_) => true
  }

  /** Looks an attribute up; an absent attribute reads as undefined. */
  function Lookup(attrs: Attributes, name: string): Option<AttrValue>
  {
    if name in attrs then Some(attrs[name]) else None
  }

  /** `a || fallback` where `a` may be undefined. */
  function OrElse(a: Option<AttrValue>, fallback: AttrValue): (r: AttrValue)
    ensures a.Some? && a.value !in {AStr(""), ANum(0.0), ABool(false)} ==> r == a.value
    ensures a.None? || a.value in {AStr(""), ANum(0.0), ABool(false)} ==> r == fallback
  {
    if a.Some? && Truthy(a.value) then a.value else fallback
  }

  /** Values whose `typeof` is "object": null, arrays and objects. Text, numbers and booleans are not. */
  predicate IsObjectTyped(v: Value)
    ensures IsObjectTyped(v) <==> !(v.Str? || v.Number? || v.Boolean?)
  {
    v.Null? || v.Array? || v.Object?
  }
}
