# Form-field extraction from annotated XML

This project models the field extractor of a small form application. The
application reads an XML drawing whose elements carry custom attributes
(`fdtType`, `fdtFieldName`) and turns it into an ordered list of form fields
that the screens render as text inputs, radio groups and signature pads.

The model covers `parseXMLForm` and its recursive walk `findFormElements` in
`utils/xmlParser.ts`. The walk starts from the tree the XML decoder produced
and goes depth-first. At every element it reads the `fdtType` attribute. The
values `iso`, `radioList` and `cursiveSignature` each push one field onto a
shared list. The field's id is the element's `fdtFieldName`, or `field_<N>`
when that name is falsy, where N is the current length of the list. The walk
then descends into every child except the attribute group. If the list ends
up empty, the extractor fails. Every failure reaches the caller as
"Invalid XML format or unsupported structure".

Modules, one per component:

- `Wrappers` (wrappers.dfy): `Option` and `Result`.
- `DecodedTree` (decoded_tree.dfy): the decoder's output. It covers attribute
  values (text, number, boolean, list), elements as objects with an optional
  attribute group and an ordered sequence of child values, JavaScript
  truthiness, and the `a || b` fallback.
- `FieldModel` (field.dfy): the `Field` record and the closed `Kind`
  enumeration {Text, Date, Radio, Drawing} of `components/DynamicForm.tsx`.
- `Decimal` (decimal.dfy): how the template literal `field_${n}` renders the
  counter, proved to round-trip.
- `XmlParser` (xml_parser.dfy): the extractor. `FormCollector` is the closure
  state, a class whose field `formElements` is the shared list.
  `FindFormElements` is the recursive walk, with a loop over array items and
  a loop over object entries. It is proved against the specification
  function `Visit`/`VisitAll`. `ParseXmlForm` is the entry point, and
  `Extract` is its specification. The reference definition `Marked` lists the
  recognised elements in pre-order. The central lemma
  `VisitIsNumberedPreorder` proves that the walk's output is exactly these
  elements, each classified with the number of fields found before it.
- `XmlParserProperties` (xml_parser_properties.dfy): the promised properties
  stated over whole trees, plus worked examples. One of them is the
  application's own sample form.

Two points where a reader might assume more than the code does:

- One might expect a name to be used when it is "present and non-empty". The code
  tests truthiness (`||`), so a name the decoder turned into `0` or `false`
  also falls back to the default. A truthy non-text name (a number such as
  `42`, `true`, a list) is stored as it is. For that reason `Field.id` and
  `Field.labelText` hold a decoded attribute value, not only text.
- One might expect children to be visited in document order. The code visits
  them in the order the decoded object enumerates its entries, and the
  decoder groups same-named siblings into one array. The model takes the
  child sequence as given and promises nothing about document order.

`Field.labelText` is the source's `label`, which is a reserved word in Dafny.

## Model

| member | source | states |
|---|---|---|
| `XmlParser.Classify` | utils/xmlParser.ts:31-57 | An element yields a field exactly when its `fdtType` is one of the three recognised values. The field is never a date. Its id is the truthy `fdtFieldName`, or else the default id for the current count. Only radio fields carry options, and they are the three stages. A drawing is labelled "Signature". |
| `XmlParser.DefaultId` | utils/xmlParser.ts:35 | The default id is `field_` followed by the decimal numeral of the count: only digits follow the prefix, with no leading zero, and they read back as the count. |
| `Decimal.DecimalString` | utils/xmlParser.ts:35 | The counter is rendered as a non-empty string of digits with no leading zero. |
| `Decimal.DecimalRoundTrip` | utils/xmlParser.ts:35 | Reading the rendered counter back gives the counter. |
| `Decimal.DecimalStringInjective` | utils/xmlParser.ts:35 | Distinct counters render as distinct numerals. |
| `XmlParserProperties.DefaultIdsDistinct` | utils/xmlParser.ts:35 | Different counts give different default ids. |
| `XmlParser.Visit` | utils/xmlParser.ts:19-66 | Visiting a value only appends: the fields found before are kept unchanged as a prefix. |
| `XmlParser.VisitAll` | utils/xmlParser.ts:61-65 | Visiting a sequence of children in order only appends to the list. |
| `XmlParser.Marked` | utils/xmlParser.ts:28-66 | Reference traversal: the attribute groups listed in pre-order are all recognised markers. |
| `XmlParser.FormCollector.constructor` | utils/xmlParser.ts:17 | The shared list starts empty. |
| `XmlParser.FormCollector.FindFormElements` | utils/xmlParser.ts:19-67 | After the recursive walk, the shared list is the old list extended as `Visit` specifies. Array items are walked in order. Only object-typed entries are descended into. Text, numbers and null are skipped. |
| `XmlParser.VisitIsNumberedPreorder` | utils/xmlParser.ts:19-66 | The walk appends exactly the recognised elements in pre-order. The i-th new one is classified with the count of all fields before it. |
| `XmlParser.VisitAllIsNumberedPreorder` | utils/xmlParser.ts:61-65 | The same holds for a sequence of children visited in order. |
| `XmlParser.Extract` | utils/xmlParser.ts:69-81 | Every failure carries the one generic message. A decoder failure is a failure. |
| `XmlParser.ExtractIsNumberedPreorder` | utils/xmlParser.ts:69-81 | The extractor succeeds if and only if the tree decoded and holds a recognised element. It then returns those elements' fields in pre-order, numbered from zero. Otherwise it fails with the generic message. |
| `XmlParser.ParseXmlForm` | utils/xmlParser.ts:4-82 | The entry point returns what `Extract` specifies. It succeeds exactly when a recognised element exists, returns the numbered pre-order fields, and fails only with the generic message. |
| `DecodedTree.Truthy` | utils/xmlParser.ts:31-37 | Under the logical-or operator, a value is falsy exactly when it is the empty string, zero or false. Lists and all other values are truthy. |
| `DecodedTree.OrElse` | utils/xmlParser.ts:35-52 | The logical-or of a name and a fallback gives the name when it is present and not empty, zero or false. Otherwise it gives the fallback. |
| `XmlParserProperties.NonObjectEntriesSkipped` | utils/xmlParser.ts:62 | A run of entries that the `typeof` filter stops (text, numbers, booleans) would add no field even if visited, so skipping them loses nothing. |
| `XmlParserProperties.DispatchTable` | utils/xmlParser.ts:32-57 | `iso` gives text, `radioList` gives radio and `cursiveSignature` gives drawing. Any other or absent marker, and an element without attributes, gives nothing. |
| `XmlParserProperties.OtherAttributesIgnored` | utils/xmlParser.ts:41-47 | Attributes other than `fdtType` and `fdtFieldName`, such as a group name, do not change the field. |
| `XmlParserProperties.ExtractedCount` | utils/xmlParser.ts:60-74 | The number of fields equals the number of recognised elements reached. The result is an error exactly when there are none. |
| `XmlParserProperties.ExtractedKinds` | utils/xmlParser.ts:32-57 | The i-th field's kind follows the i-th recognised element's marker, in both directions. No date field is produced. |
| `XmlParserProperties.ExtractedIds` | utils/xmlParser.ts:35-52 | The i-th field's id is its truthy name, or else `field_<i>`. |
| `XmlParserProperties.ExtractedLabels` | utils/xmlParser.ts:37-54 | Text labels fall back to "Text Input" and radio labels to "Options". A drawing's label is always "Signature". |
| `XmlParserProperties.ExtractedOptions` | utils/xmlParser.ts:34-55 | Every radio field carries exactly Stage 1, Stage 2 and Stage 3. No other field carries options. |
| `XmlParserProperties.ExtractedWellFormed` | components/DynamicForm.tsx:8-13 | Every extracted field is structurally valid: options are present and non-empty exactly for radio fields. |
| `XmlParserProperties.NestedMarkersNotMerged` | utils/xmlParser.ts:31-65 | A recognised element yields its own field first, followed by one field for each recognised descendant. None is merged into it. |
| `XmlParserProperties.ScalarsSkipped` | utils/xmlParser.ts:20-29 | Null, text, numbers and booleans yield nothing and are not descended into. |
| `XmlParserProperties.NamedTextInput` | utils/xmlParser.ts:33-38 | A named `iso` element gives a text field whose id and label are the name. |
| `XmlParserProperties.RadioListWithGroup` | utils/xmlParser.ts:41-47 | A named radio list with a group name gives the name as id and label, and the fixed stages as options. |
| `XmlParserProperties.NamedSignature` | utils/xmlParser.ts:50-55 | A named signature keeps its name as id and is labelled "Signature". |
| `XmlParserProperties.NoMarkerFails` | utils/xmlParser.ts:72-80 | A tree without markers gives the generic error. |
| `XmlParserProperties.UnnamedSiblingsCounted` | utils/xmlParser.ts:23-35 | Three unnamed sibling text inputs, grouped into one array, get `field_0`, `field_1` and `field_2`. |
| `XmlParserProperties.DuplicateIdsPossible` | utils/xmlParser.ts:35 | Ids are not made unique: an explicit name can repeat a default id. |
| `XmlParserProperties.NumericNames` | utils/xmlParser.ts:35-37 | A name decoded as 0 falls back to the defaults. A non-zero number is kept as the id and label. |
| `XmlParserProperties.ListMarkerIgnored` | utils/xmlParser.ts:31-32 | A marker decoded as a list is not recognised. |
| `XmlParserProperties.SampleForm` | utils/xmlParser.ts:19-76 | The sample form of the custom-form screen yields the text, radio and signature fields, in that order. |

## Left out

- The XML decoder (the `fast-xml-parser` construction and `parse`, utils/xmlParser.ts:6-14) is a foreign library. The model takes its output tree as input, and `Malformed` stands for its failure. Its configuration is reflected in the tree shape: attributes are grouped under one key with no prefix, and attribute text may become a number or a boolean.
- A child element literally named `attributes` would share the key of the attribute group. The model keeps the group apart from the children and does not model that collision.
- The order in which an object's entries are enumerated follows the language's rules for object keys (integer-like keys first, then insertion order as the decoder built the object). XML tag names cannot be integer-like, so for child tags it is insertion order. The child sequence is taken as given.
- Numbers are modelled as reals, so NaN, the infinities and negative zero are not modelled. Only their truthiness could matter to the extractor: negative zero is falsy like `ANum(0.0)` and the infinities are truthy like any non-zero number, so they take the same branches. NaN is falsy as well, so a name decoded as NaN falls back to the default exactly as zero does, and the NaN itself is never stored.
- The `async`/Promise wrapper and the `console.error` logging (utils/xmlParser.ts:4, 79) are I/O and plumbing. The internal "No valid form fields found" error is modelled only as far as it is replaced by the generic message.
- A stack overflow on a very deeply nested tree is not modelled. The walk is total in the model.
- Form rendering and value collection (components/DynamicForm.tsx beyond the `Field` type, RadioGroup, FormField and DrawingField) are UI and are not part of this model. The screens that call the extractor are not part of this model either, apart from the sample form used as a worked example.
