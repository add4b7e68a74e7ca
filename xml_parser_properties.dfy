/**
 * What the extractor promises about the fields it returns, stated over whole
 * trees, and the worked examples the application's sample form illustrates.
 */
module XmlParserProperties {
  import opened Wrappers
  import opened DecodedTree
  import opened FieldModel
  import opened Decimal
  import opened XmlParser

  /** Dispatch: the three marker values select text, radio and drawing; nothing else yields a field. */
  lemma DispatchTable(attrs: Attributes, count: nat)
    ensures Lookup(attrs, "fdtType") == Some(AStr("iso")) ==> Classify(Some(attrs), count).Some? && Classify(Some(attrs), count).value.kind == Text
    ensures Lookup(attrs, "fdtType") == Some(AStr("radioList")) ==> Classify(Some(attrs), count).Some? && Classify(Some(attrs), count).value.kind == Radio
    ensures Lookup(attrs, "fdtType") == Some(AStr("cursiveSignature")) ==> Classify(Some(attrs), count).Some? && Classify(Some(attrs), count).value.kind == Drawing
    ensures Lookup(attrs, "fdtType") !in {Some(AStr("iso")), Some(AStr("radioList")), Some(AStr("cursiveSignature"))} ==> Classify(Some(attrs), count).None?
    ensures Classify(None, count).None?
  {
  }

  /** Only `fdtType` and `fdtFieldName` matter: any other attribute (a group name, a value list) is ignored. */
  lemma OtherAttributesIgnored(a: Attributes, b: Attributes, count: nat)
    requires Lookup(a, "fdtType") == Lookup(b, "fdtType")
    requires Lookup(a, "fdtFieldName") == Lookup(b, "fdtFieldName")
    ensures Classify(Some(a), count) == Classify(Some(b), count)
  {
  }

  /**
   * Default ids never collide with one another: distinct counts give distinct
   * ids, because the digits after the prefix read back as the count.
   */
  lemma DefaultIdsDistinct(m: nat, n: nat)
    requires m != n
    ensures DefaultId(m) != DefaultId(n)
  {
  }

  /** The number of fields equals the number of recognised elements reached; zero of them is an error. */
  lemma ExtractedCount(tree: Value)
    ensures Extract(Parsed(tree)).Success? ==> |Extract(Parsed(tree)).value| == |Marked(tree)|
    ensures Extract(Parsed(tree)).Failure? <==> |Marked(tree)| == 0
  {
    ExtractIsNumberedPreorder(Parsed(tree));
  }

  /** The i-th field comes from the i-th recognised element in pre-order, and its kind follows that element's marker. */
  lemma ExtractedKinds(tree: Value)
    ensures var fields, marked := Extract(Parsed(tree)), Marked(tree);
      fields.Success? ==> (|fields.value| == |marked| &&
      forall i :: 0 <= i < |marked| ==>
        var f, attrs := fields.value[i], marked[i];
        && f.kind != Date
        && (attrs["fdtType"] == AStr("iso") <==> f.kind == Text)
        && (attrs["fdtType"] == AStr("radioList") <==> f.kind == Radio)
        && (attrs["fdtType"] == AStr("cursiveSignature") <==> f.kind == Drawing))
  {
    ExtractIsNumberedPreorder(Parsed(tree));
  }

  /** A field's id is its truthy `fdtFieldName`, or else `field_<i>` where i fields precede it. */
  lemma ExtractedIds(tree: Value)
    ensures var fields, marked := Extract(Parsed(tree)), Marked(tree);
      fields.Success? ==> (|fields.value| == |marked| &&
      forall i :: 0 <= i < |marked| ==>
        var name := Lookup(marked[i], "fdtFieldName");
        fields.value[i].id == (if name.Some? && Truthy(name.value) then name.value else DefaultId(i)))
  {
    ExtractIsNumberedPreorder(Parsed(tree));
  }

  /** Text and radio labels fall back to fixed texts; a drawing's label is "Signature" whatever its name. */
  lemma ExtractedLabels(tree: Value)
    ensures var fields, marked := Extract(Parsed(tree)), Marked(tree);
      fields.Success? ==> (|fields.value| == |marked| &&
      forall i :: 0 <= i < |marked| ==>
        var f, name := fields.value[i], Lookup(marked[i], "fdtFieldName");
        var named := name.Some? && Truthy(name.value);
        && (f.kind == Text ==> f.labelText == (if named then name.value else AStr("Text Input")))
        && (f.kind == Radio ==> f.labelText == (if named then name.value else AStr("Options")))
        && (f.kind == Drawing ==> f.labelText == AStr("Signature")))
  {
    ExtractIsNumberedPreorder(Parsed(tree));
  }

  /** Every radio field carries exactly the three stage options; no other field carries options. */
  lemma ExtractedOptions(tree: Value)
    ensures Extract(Parsed(tree)).Success? ==>
      forall i :: 0 <= i < |Extract(Parsed(tree)).value| ==>
        var f := Extract(Parsed(tree)).value[i];
        && (f.kind == Radio ==> f.options == Some(["Stage 1", "Stage 2", "Stage 3"]))
        && (f.kind != Radio ==> f.options.None?)
  {
    ExtractIsNumberedPreorder(Parsed(tree));
  }

  /** Every extracted field is structurally valid. */
  lemma ExtractedWellFormed(tree: Value)
    ensures Extract(Parsed(tree)).Success? ==>
      forall i :: 0 <= i < |Extract(Parsed(tree)).value| ==> WellFormed(Extract(Parsed(tree)).value[i])
  {
    ExtractIsNumberedPreorder(Parsed(tree));
  }

  /**
   * No short-circuit: a recognised element yields its own field first, then one
   * field for every recognised element below it, none merged into its parent.
   */
  lemma NestedMarkersNotMerged(acc: seq<Field>, attrs: Attributes, children: seq<Value>)
    requires IsMarker(attrs)
    ensures var r := Visit(acc, Object(Some(attrs), children));
      && |r| == |acc| + 1 + |MarkedAll(children)|
      && r[..|acc|] == acc
      && r[|acc|] == Classify(Some(attrs), |acc|).value
      && r[|acc| + 1..] == Numbered(MarkedAll(children), |acc| + 1)
  {
    var v := Object(Some(attrs), children);
    VisitIsNumberedPreorder(acc, v);
    assert Marked(v) == [attrs] + MarkedAll(children);
    NumberedAppend([attrs], MarkedAll(children), |acc|);
  }

  /** Null, text, numbers and booleans yield nothing and change nothing. */
  lemma ScalarsSkipped(acc: seq<Field>, v: Value)
    requires !v.Array? && !v.Object?
    ensures Visit(acc, v) == acc && Marked(v) == []
  {
  }

  /** Skipping entries whose `typeof` is not "object" loses no field: such a value yields nothing. */
  lemma {:induction false} NonObjectEntriesSkipped(acc: seq<Field>, vs: seq<Value>)
    requires forall i :: 0 <= i < |vs| ==> !IsObjectTyped(vs[i])
    ensures VisitAll(acc, vs) == acc
    decreases vs
  {
    if vs != [] {
      NonObjectEntriesSkipped(acc, vs[..|vs| - 1]);
    }
  }

  /** An attribute with the marker name as the only entry. */
  function Marker(fdtType: string): Attributes
  {
    map["fdtType" := AStr(fdtType)]
  }

  /** A marker with a name. */
  function NamedMarker(fdtType: string, name: AttrValue): Attributes
  {
    map["fdtType" := AStr(fdtType), "fdtFieldName" := name]
  }

  /** `<div>` holding one `<g>` with the given attributes: the root object holds `div`, which holds `g`. */
  function OneElement(attrs: Attributes): Value
  {
    Object(None, [Object(None, [Object(Some(attrs), [])])])
  }

  /** A named text input keeps its name as id and label. */
  lemma NamedTextInput()
    ensures Extract(Parsed(OneElement(NamedMarker("iso", AStr("CustomerName1")))))
      == Success([Field(Text, AStr("CustomerName1"), AStr("CustomerName1"), None)])
  {
    var attrs := NamedMarker("iso", AStr("CustomerName1"));
    assert Marked(OneElement(attrs)) == [attrs];
    ExtractIsNumberedPreorder(Parsed(OneElement(attrs)));
  }

  /** A radio list ignores its group name and gets the three stage options. */
  lemma RadioListWithGroup()
    ensures var attrs := map["fdtType" := AStr("radioList"), "fdtFieldName" := AStr("Stages"), "fdtGroupName" := AStr("Stages")];
      Extract(Parsed(OneElement(attrs)))
      == Success([Field(Radio, AStr("Stages"), AStr("Stages"), Some(["Stage 1", "Stage 2", "Stage 3"]))])
  {
    var attrs := map["fdtType" := AStr("radioList"), "fdtFieldName" := AStr("Stages"), "fdtGroupName" := AStr("Stages")];
    assert IsMarker(attrs);
    assert Marked(Object(Some(attrs), [])) == [attrs];
    assert Marked(OneElement(attrs)) == [attrs];
    ExtractIsNumberedPreorder(Parsed(OneElement(attrs)));
  }

  /** A named signature keeps its name as id but is labelled "Signature". */
  lemma NamedSignature()
    ensures Extract(Parsed(OneElement(NamedMarker("cursiveSignature", AStr("Signature4")))))
      == Success([Field(Drawing, AStr("Signature"), AStr("Signature4"), None)])
  {
    var attrs := NamedMarker("cursiveSignature", AStr("Signature4"));
    assert Marked(OneElement(attrs)) == [attrs];
    ExtractIsNumberedPreorder(Parsed(OneElement(attrs)));
  }

  /** `<div><g/></div>` decodes with an empty `g` and yields the generic error. */
  lemma NoMarkerFails()
    ensures Extract(Parsed(Object(None, [Object(None, [Str("")])]))) == Failure(InvalidFormat)
  {
    var tree := Object(None, [Object(None, [Str("")])]);
    assert Marked(tree) == [];
    ExtractIsNumberedPreorder(Parsed(tree));
  }

  /** Three unnamed text inputs, grouped by the decoder into one array, get ids field_0, field_1, field_2. */
  lemma UnnamedSiblingsCounted()
    ensures var g := Object(Some(Marker("iso")), []);
      var fields := Extract(Parsed(Object(None, [Object(None, [Array([g, g, g])])])));
      && fields.Success? && |fields.value| == 3
      && fields.value[0].id == AStr("field_0")
      && fields.value[1].id == AStr("field_1")
      && fields.value[2].id == AStr("field_2")
  {
    var g := Object(Some(Marker("iso")), []);
    var tree := Object(None, [Object(None, [Array([g, g, g])])]);
    var attrs := Marker("iso");
    assert Marked(g) == [attrs];
    assert [g, g][..1] == [g];
    assert MarkedAll([g]) == [attrs];
    assert MarkedAll([g, g]) == [attrs, attrs];
    assert [g, g, g][..2] == [g, g];
    assert MarkedAll([g, g, g]) == [attrs, attrs, attrs];
    assert MarkedAll([Array([g, g, g])]) == [attrs, attrs, attrs];
    assert MarkedAll([Object(None, [Array([g, g, g])])]) == [attrs, attrs, attrs];
    assert Marked(tree) == [attrs, attrs, attrs];
    ExtractIsNumberedPreorder(Parsed(tree));
    assert DecimalString(1) == "1";
    assert DecimalString(2) == "2";
  }

  /** Ids are not made unique: an explicit name can repeat a default id. */
  lemma DuplicateIdsPossible()
    ensures var first := Object(Some(Marker("iso")), []);
      var second := Object(Some(NamedMarker("iso", AStr("field_0"))), []);
      var fields := Extract(Parsed(Object(None, [first, second])));
      && fields.Success? && |fields.value| == 2
      && fields.value[0].id == fields.value[1].id == AStr("field_0")
  {
    var first := Object(Some(Marker("iso")), []);
    var named := NamedMarker("iso", AStr("field_0"));
    var second := Object(Some(named), []);
    var tree := Object(None, [first, second]);
    assert Marked(first) == [Marker("iso")];
    assert Marked(second) == [named];
    assert [first, second][..1] == [first];
    assert MarkedAll([first]) == [Marker("iso")];
    assert Marked(tree) == [Marker("iso"), named];
    ExtractIsNumberedPreorder(Parsed(tree));
  }

  /** A name the decoder turned into 0 is falsy, so the default id and label are used; a non-zero number is kept as it is. */
  lemma NumericNames()
    ensures Classify(Some(NamedMarker("iso", ANum(0.0))), 4).value == Field(Text, AStr("Text Input"), AStr("field_4"), None)
    ensures Classify(Some(NamedMarker("iso", ANum(42.0))), 4).value == Field(Text, ANum(42.0), ANum(42.0), None)
  {
    assert DecimalString(4) == "4";
  }

  /** A marker the decoder delivered as a list is not recognised. */
  lemma ListMarkerIgnored(count: nat)
    ensures Classify(Some(map["fdtType" := AList([AStr("iso")])]), count).None?
  {
  }

  /** The sample form: the three sibling `<g>` elements, grouped into one array by the decoder, give three fields in order. */
  lemma SampleForm()
    ensures Extract(Parsed(SampleTree())) == Success([
      Field(Text, AStr("CustomerName1"), AStr("CustomerName1"), None),
      Field(Radio, AStr("Stages"), AStr("Stages"), Some(["Stage 1", "Stage 2", "Stage 3"])),
      Field(Drawing, AStr("Signature"), AStr("Signature4"), None)])
  {
    var found := [SampleText(), SampleRadio(), SampleSignature()];
    assert IsMarker(SampleRadio());
    SampleTreeMarked();
    ExtractOfMarked(SampleTree(), found);
    var fields := Numbered(found, 0);
    assert fields[0] == Field(Text, AStr("CustomerName1"), AStr("CustomerName1"), None);
    assert fields[1] == Field(Radio, AStr("Stages"), AStr("Stages"), Some(["Stage 1", "Stage 2", "Stage 3"]));
    assert fields[2] == Field(Drawing, AStr("Signature"), AStr("Signature4"), None);
    assert fields == [fields[0], fields[1], fields[2]];
  }

  /** Once the recognised elements of a tree are known, so is the extractor's result. */
  lemma ExtractOfMarked(tree: Value, found: seq<Attributes>)
    requires Marked(tree) == found && found != []
    ensures Extract(Parsed(tree)) == Success(Numbered(found, 0))
  {
    ExtractIsNumberedPreorder(Parsed(tree));
  }

  lemma SampleGroupsMarked()
    ensures MarkedAll(SampleGroups()) == [SampleText(), SampleRadio(), SampleSignature()]
  {
    var gs := SampleGroups();
    assert IsMarker(SampleRadio());
    assert Marked(gs[0]) == [SampleText()];
    assert Marked(gs[1]) == [SampleRadio()];
    assert Marked(gs[2]) == [SampleSignature()];
    assert gs[..2] == [gs[0], gs[1]];
    assert [gs[0], gs[1]][..1] == [gs[0]];
    assert MarkedAll([gs[0]]) == [SampleText()];
    assert MarkedAll([gs[0], gs[1]]) == [SampleText(), SampleRadio()];
  }

  lemma SampleTreeMarked()
    ensures Marked(SampleTree()) == [SampleText(), SampleRadio(), SampleSignature()]
  {
    var found := [SampleText(), SampleRadio(), SampleSignature()];
    SampleGroupsMarked();
    var gs := SampleGroups();
    assert MarkedAll([Array(gs)]) == found;
    var inner := Object(Some(map["id" := AStr("formSide1Main")]), [Array(gs)]);
    assert OwnMarked(inner.attributes) == [];
    assert Marked(inner) == found;
    var side := Object(Some(map["id" := AStr("formSide1"), "class" := AStr("formSide")]), [inner]);
    assert OwnMarked(side.attributes) == [];
    assert Marked(side) == found;
    var declaration := Object(Some(map["version" := ANum(1.0), "encoding" := AStr("UTF-8")]), []);
    assert OwnMarked(declaration.attributes) == [];
    assert [declaration, Object(None, [side])][..1] == [declaration];
    assert MarkedAll([declaration]) == [];
  }

  function SampleText(): Attributes
  {
    NamedMarker("iso", AStr("CustomerName1"))
  }

  function SampleRadio(): Attributes
  {
    map["fdtType" := AStr("radioList"), "fdtFieldName" := AStr("Stages"), "fdtGroupName" := AStr("Stages")]
  }

  function SampleSignature(): Attributes
  {
    NamedMarker("cursiveSignature", AStr("Signature4"))
  }

  /** One `<g>` of the sample with the `<rect>` it holds. */
  function SampleGroup(attrs: Attributes, width: real, height: real): Value
  {
    Object(Some(attrs), [Object(Some(map["width" := ANum(width), "height" := ANum(height)]), [])])
  }

  /** The three marked `<g>` elements, which the decoder groups into one array. */
  function SampleGroups(): seq<Value>
  {
    [SampleGroup(SampleText(), 19.0, 23.0), SampleGroup(SampleRadio(), 24.0, 24.0), SampleGroup(SampleSignature(), 315.0, 135.0)]
  }

  /**
   * The sample form as the decoder delivers it: the XML declaration, then the
   * outer `div`, the `div` of class formSide, the `g` formSide1Main and the
   * array of its three `g` children.
   */
  function SampleTree(): Value
  {
    var inner := Object(Some(map["id" := AStr("formSide1Main")]), [Array(SampleGroups())]);
    var side := Object(Some(map["id" := AStr("formSide1"), "class" := AStr("formSide")]), [inner]);
    var declaration := Object(Some(map["version" := ANum(1.0), "encoding" := AStr("UTF-8")]), []);
    Object(None, [declaration, Object(None, [side])])
  }
}
