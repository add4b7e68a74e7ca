/**
 * The form-field extractor: walks a decoded tree depth-first and appends one
 * field descriptor for every element whose `fdtType` attribute names a known
 * field kind.
 */
module XmlParser {
  import opened Wrappers
  import opened DecodedTree
  import opened FieldModel
  import opened Decimal

  /** The only message a caller ever sees, whatever went wrong. */
  const InvalidFormat: string := "Invalid XML format or unsupported structure"

  /** The message thrown when the walk found nothing; it is replaced by `InvalidFormat` before it leaves. */
  const NoFieldsFound: string := "No valid form fields found in the XML"

  /** The options every radio field carries. */
  const StageOptions: seq<string> := ["Stage 1", "Stage 2", "Stage 3"]

  /** The input to the extractor: the decoder's tree, or the decoder's failure on malformed text. */
  datatype Decoded = Parsed(tree: Value) | Malformed

  /**
   * What the extractor's `try` block can throw: the decoder's own error on
   * malformed text, whose message the model does not know, or an error the
   * extractor raises itself with the given message.
   */
  datatype Thrown = DecoderError | Raised(message: string)

  /** The id given to a field without a usable name when `count` fields precede it. */
  function DefaultId(count: nat): (r: AttrValue)
    ensures r.AStr? && |r.s| > 6 && r.s[..6] == "field_"
    ensures forall i :: 6 <= i < |r.s| ==> IsDigit(r.s[i])
    ensures |r.s| > 7 ==> r.s[6] != '0'
    ensures DecimalValue(r.s[6..]) == count
  {
    DecimalRoundTrip(count);
    assert ("field_" + DecimalString(count))[6..] == DecimalString(count);
    AStr("field_" + DecimalString(count))
  }

  /** The three `fdtType` values the extractor recognises. */
  predicate IsMarker(attrs: Attributes)
  {
    "fdtType" in attrs && attrs["fdtType"] in {AStr("iso"), AStr("radioList"), AStr("cursiveSignature")}
  }

  /**
   * The field an element contributes, given its attribute group and the number
   * of fields already found: the `fdtType` switch with its three cases.
   */
  function Classify(attributes: Option<Attributes>, count: nat): (r: Option<Field>)
    ensures r.Some? <==> attributes.Some? && IsMarker(attributes.value)
    ensures r.Some? ==> r.value.kind != Date
    ensures r.Some? ==> r.value.id == OrElse(Lookup(attributes.value, "fdtFieldName"), DefaultId(count))
    ensures r.Some? ==> (r.value.options.Some? <==> r.value.kind == Radio)
    ensures r.Some? && r.value.kind == Radio ==> r.value.options == Some(StageOptions)
    ensures r.Some? && r.value.kind == Drawing ==> r.value.labelText == AStr("Signature")
  {
    if attributes.None? then None
    else
      var attrs := attributes.value;
      var fdtType := Lookup(attrs, "fdtType");
      var name := Lookup(attrs, "fdtFieldName");
      if !(fdtType.Some? && Truthy(fdtType.value)) then None
      else if fdtType.value == AStr("iso") then
        Some(Field(Text, OrElse(name, AStr("Text Input")), OrElse(name, DefaultId(count)), None))
      else if fdtType.value == AStr("radioList") then
        Some(Field(Radio, OrElse(name, AStr("Options")), OrElse(name, DefaultId(count)), Some(StageOptions)))
      else if fdtType.value == AStr("cursiveSignature") then
        Some(Field(Drawing, AStr("Signature"), OrElse(name, DefaultId(count)), None))
      else None
  }

  /** `acc` with the field of `own`, if any, pushed on the end. */
  function Push(acc: seq<Field>, own: Option<Field>): (r: seq<Field>)
    ensures own.None? ==> r == acc
    ensures own.Some? ==> |r| == |acc| + 1 && r[..|acc|] == acc && r[|acc|] == own.value
  {
    if own.Some? then acc + [own.value] else acc
  }

  /**
   * The field list after visiting `v` with `acc` already found. Arrays are
   * visited element by element; an object first contributes its own field and
   * then its children are visited in order; anything else contributes nothing.
   * Earlier entries are never changed.
   */
  function Visit(acc: seq<Field>, v: Value): (r: seq<Field>)
    ensures |acc| <= |r| && r[..|acc|] == acc
    decreases v
  {
    match v
    case Array(items) => VisitAll(acc, items)
    case Object(attributes, children) => VisitAll(Push(acc, Classify(attributes, |acc|)), children)
    case _ => acc
  }

  /** The field list after visiting each of `vs` in order, starting from `acc`. */
  function VisitAll(acc: seq<Field>, vs: seq<Value>): (r: seq<Field>)
    ensures |acc| <= |r| && r[..|acc|] == acc
    decreases vs
  {
    if vs == [] then acc
    else
      var before := VisitAll(acc, vs[..|vs| - 1]);
      assert before[..|acc|] == acc;
      var after := Visit(before, vs[|vs| - 1]);
      assert after[..|before|][..|acc|] == after[..|acc|];
      after
  }

  /**
   * Reference definition: the attribute groups of the recognised elements of
   * `v`, in pre-order (an element before its descendants, siblings in order).
   */
  function Marked(v: Value): (r: seq<Attributes>)
    ensures forall i :: 0 <= i < |r| ==> IsMarker(r[i])
    decreases v
  {
    match v
    case Array(items) => MarkedAll(items)
    case Object(attributes, children) => OwnMarked(attributes) + MarkedAll(children)
    case _ => []
  }

  /** An element's own attribute group, listed when it is recognised. */
  function OwnMarked(attributes: Option<Attributes>): (r: seq<Attributes>)
    ensures forall i :: 0 <= i < |r| ==> IsMarker(r[i])
  {
    if attributes.Some? && IsMarker(attributes.value) then [attributes.value] else []
  }

  function MarkedAll(vs: seq<Value>): (r: seq<Attributes>)
    ensures forall i :: 0 <= i < |r| ==> IsMarker(r[i])
    decreases vs
  {
    if vs == [] then [] else MarkedAll(vs[..|vs| - 1]) + Marked(vs[|vs| - 1])
  }

  /** The fields of the recognised groups `ms`, the i-th classified with `first + i` fields before it. */
  function Numbered(ms: seq<Attributes>, first: nat): (r: seq<Field>)
    requires forall i :: 0 <= i < |ms| ==> IsMarker(ms[i])
    ensures |r| == |ms|
  {
    seq(|ms|, i requires 0 <= i < |ms| => Classify(Some(ms[i]), first + i).value)
  }

  /** What the extractor returns for a decoder outcome. */
  function Extract(decoded: Decoded): (r: Result<seq<Field>, string>)
    ensures r.Failure? ==> r.error == InvalidFormat
    ensures decoded.Malformed? ==> r.Failure?
  {
    if decoded.Malformed? then Failure(InvalidFormat)
    else
      var fields := Visit([], decoded.tree);
      if |fields| == 0 then Failure(InvalidFormat) else Success(fields)
  }

  /** The walk's closure state: the list every recursive call appends to. */
  class FormCollector {
    var formElements: seq<Field>

    constructor ()
      ensures formElements == []
    {
      formElements := [];
    }

    /** Visits `v` and everything below it, appending the fields found. */
    method FindFormElements(v: Value)
      modifies this
      ensures formElements == Visit(old(formElements), v)
      decreases v
    {
      match v {
        case Array(items) =>
          ghost var start := formElements;
          for i := 0 to |items|
            invariant formElements == VisitAll(start, items[..i])
          {
            assert items[..i + 1][..i] == items[..i];
            FindFormElements(items[i]);
          }
          assert items[..|items|] == items;
        case Object(attributes, children) =>
          var own := Classify(attributes, |formElements|);
          if own.Some? {
            formElements := formElements + [own.value];
          }
          ghost var start := formElements;
          for i := 0 to |children|
            invariant formElements == VisitAll(start, children[..i])
          {
            assert children[..i + 1][..i] == children[..i];
            if IsObjectTyped(children[i]) {
              FindFormElements(children[i]);
            }
          }
          assert children[..|children|] == children;
        case _ =>
          // null, text, numbers and booleans hold no fields
      }
    }
  }

  /** The extractor: walk the decoded tree from its root, then fail if nothing was found. */
  method ParseXmlForm(decoded: Decoded) returns (r: Result<seq<Field>, string>)
    ensures r == Extract(decoded)
    ensures r.Success? <==> decoded.Parsed? && Marked(decoded.tree) != []
    ensures r.Success? ==> r.value == Numbered(Marked(decoded.tree), 0)
    ensures r.Failure? ==> r.error == InvalidFormat
  {
    ExtractIsNumberedPreorder(decoded);
    var thrown: Option<Thrown> := None;
    var fields: seq<Field> := [];
    if decoded.Malformed? {
      thrown := Some(DecoderError);
    } else {
      var collector := new FormCollector();
      collector.FindFormElements(decoded.tree);
      fields := collector.formElements;
      if |fields| == 0 {
        thrown := Some(Raised(NoFieldsFound));
      }
    }
    if thrown.Some? {
      // every thrown error is reported with the one generic message
      r := Failure(InvalidFormat);
    } else {
      r := Success(fields);
    }
  }

  lemma NumberedAppend(a: seq<Attributes>, b: seq<Attributes>, first: nat)
    requires forall i :: 0 <= i < |a| ==> IsMarker(a[i])
    requires forall i :: 0 <= i < |b| ==> IsMarker(b[i])
    ensures Numbered(a + b, first) == Numbered(a, first) + Numbered(b, first + |a|)
  {
    var ab := a + b;
    assert forall i :: 0 <= i < |ab| ==> IsMarker(ab[i]);
    var l := Numbered(ab, first);
    var r := Numbered(a, first) + Numbered(b, first + |a|);
    assert |l| == |r|;
    forall i | 0 <= i < |l|
      ensures l[i] == r[i]
    {
      if i >= |a| {
        assert ab[i] == b[i - |a|];
      }
    }
  }

  /**
   * The walk's output is the recognised elements in pre-order, each classified
   * with the number of fields before it.
   */
  lemma {:induction false} VisitIsNumberedPreorder(acc: seq<Field>, v: Value)
    ensures Visit(acc, v) == acc + Numbered(Marked(v), |acc|)
    decreases v
  {
    match v
    case Array(items) =>
      VisitAllIsNumberedPreorder(acc, items);
    case Object(attributes, children) =>
      var acc' := Push(acc, Classify(attributes, |acc|));
      VisitAllIsNumberedPreorder(acc', children);
      var mine := OwnMarked(attributes);
      OwnFieldIsNumbered(acc, attributes);
      assert Marked(v) == mine + MarkedAll(children);
      NumberedChain(acc, acc', VisitAll(acc', children), mine, MarkedAll(children));
    case _ =>
  }

  lemma {:induction false} VisitAllIsNumberedPreorder(acc: seq<Field>, vs: seq<Value>)
    ensures VisitAll(acc, vs) == acc + Numbered(MarkedAll(vs), |acc|)
    decreases vs
  {
    if vs != [] {
      var init, last := vs[..|vs| - 1], vs[|vs| - 1];
      VisitAllIsNumberedPreorder(acc, init);
      var before := VisitAll(acc, init);
      VisitIsNumberedPreorder(before, last);
      var earlier, own := MarkedAll(init), Marked(last);
      assert MarkedAll(vs) == earlier + own;
      assert VisitAll(acc, vs) == Visit(before, last);
      NumberedChain(acc, before, Visit(before, last), earlier, own);
    }
  }

  /** An element's own contribution is its recognised group, numbered after the fields before it. */
  lemma OwnFieldIsNumbered(acc: seq<Field>, attributes: Option<Attributes>)
    ensures Push(acc, Classify(attributes, |acc|)) == acc + Numbered(OwnMarked(attributes), |acc|)
  {
  }

  /** Two consecutive stretches of numbered fields make one. */
  lemma NumberedChain(acc: seq<Field>, before: seq<Field>, after: seq<Field>, earlier: seq<Attributes>, later: seq<Attributes>)
    requires forall i :: 0 <= i < |earlier| ==> IsMarker(earlier[i])
    requires forall i :: 0 <= i < |later| ==> IsMarker(later[i])
    requires before == acc + Numbered(earlier, |acc|)
    requires after == before + Numbered(later, |before|)
    ensures after == acc + Numbered(earlier + later, |acc|)
  {
    NumberedAppend(earlier, later, |acc|);
  }

  /** The extractor succeeds exactly when some recognised element is reached, and then returns their fields in pre-order. */
  lemma ExtractIsNumberedPreorder(decoded: Decoded)
    ensures Extract(decoded).Success? <==> decoded.Parsed? && Marked(decoded.tree) != []
    ensures Extract(decoded).Success? ==> Extract(decoded).value == Numbered(Marked(decoded.tree), 0)
    ensures Extract(decoded).Failure? ==> Extract(decoded).error == InvalidFormat
  {
    if decoded.Parsed? {
      VisitIsNumberedPreorder([], decoded.tree);
    }
  }
}
