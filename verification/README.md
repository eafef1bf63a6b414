# gen-ts-from-wsdl, modelled in Dafny

gen-ts-from-wsdl turns a WSDL 1.1 document into TypeScript declarations in
two stages:

1. **Extraction** (`WSDLParser.extractTypes` and its `parse*` helpers) walks
   the object tree that xml2js builds from the XML and collects a schema
   model: complex types, simple types, top-level elements, messages and port
   types. Schema lookups try the unprefixed key first, then `xs:` and `xsd:`;
   the WSDL sections try the unprefixed key, then `wsdl:`. Some keys are
   read unprefixed only: `targetNamespace`, the `attribute` of a SOAP array
   restriction, a message's `part`, a port type's `operation`, and an
   operation's `input`, `output` and `fault`. So in a schema written with
   `xs:` prefixes a SOAP array is never recognised. A list is taken as is;
   a single node becomes a one-element list. Type references pass through
   `cleanTypeName`, which keeps only the text after the last `:`, and an
   absent reference becomes `any`. Message parts are the two exceptions: a
   part's `element` is stored verbatim, prefix included, and its `type` is
   recorded (cleaned) only when it is present and non-empty; otherwise the part has
   no type at all rather than `any`.
2. **Generation** (`TypeScriptGenerator.generateTypes`) renders that model as
   lines of TypeScript. The output starts with a three-line header (one line
   carries the timestamp). The sections follow in this order, each only when
   it is non-empty:
   - simple types, as enums or aliases
   - complex types, as interfaces or SOAP array aliases
   - element aliases
   - message interfaces
   - service interfaces, only when requested

   Type names are mapped through a fixed table of XML Schema primitives. A
   custom name falls back to its Pascal-cased form.

The model works on an explicit picture of the xml2js tree (`XmlTree.Value`):
strings, objects and arrays. It states JavaScript truthiness, `||` chains,
`lastIndexOf`, `trim`, `parseInt` and the two case-changing regular
expressions as Dafny functions. The one way generation can throw becomes a
`Failure`. That happens when `toEnumKey` is handed the `undefined` of an
enumeration facet without a `value`.

Modules, in dependency order:

| module | file | models |
|---|---|---|
| `Wrappers` | wrappers.dfy | `Option` and `Result` |
| `Seqs` | seqs.dfy | map, flatten, filter on sequences |
| `JsText` | js_text.dfy | JavaScript string and number primitives |
| `XmlTree` | xml_tree.dfy | the xml2js tree, truthiness, first-truthy lookup |
| `WsdlModel` | wsdl_model.dfy | the interfaces of src/types.ts |
| `Prefixes` | prefixes.dfy | `cleanTypeName` |
| `WsdlParser` | wsdl_parser.dfy | `extractTypes` and the `parse*` helpers |
| `WsdlParserProperties` | wsdl_parser_props.dfy | properties of extraction |
| `Names` | names.dfy | `toPascalCase`, `toCamelCase`, `toEnumKey` |
| `TypeMapper` | type_mapper.dfy | `typeMapping`, `mapXmlTypeToTypeScript` |
| `Generator` | generator.dfy | the `generate*` renderers and `generateTypes` |
| `GeneratorProperties` | generator_props.dfy | properties of the renderers |
| `BlockLayout` | block_layout.dfy | where one rendered block sits in the output |
| `OutputLayout` | output_layout.dfy | the section layout of the whole output |
| `EndToEnd` | end_to_end.dfy | extraction followed by rendering |

Two behaviours of the source stand out, and the model keeps both as written:

- An element declared without `type` is stored as `any`. `any` is not a key
  of the type table (`anytype` is), so the element is rendered with the
  custom type name `Any` (`EndToEnd.TypelessElementTypeIsAny`).
- Distinct enumeration values can produce the same enum key
  (`GeneratorProperties.EnumKeysCanCollide`).

## Model

| member | source | states |
|---|---|---|
| Prefixes.CleanTypeName | src/wsdl-parser.ts:330-340 | An empty or absent name gives `any`. Otherwise the result is the suffix of the input after its last `:`: it contains no `:`, the character before it is `:`, and a name without `:` comes back unchanged |
| Prefixes.CleanPrefixedName | src/wsdl-parser.ts:333-337 | `prefix:item` cleans to `item` for any prefix, when `item` is non-empty and colon-free |
| XmlTree.Lookup | src/wsdl-parser.ts:141 | An `a \|\| b \|\| c` chain finds something exactly when some key holds a truthy value. What it finds is truthy and is the value of the first such key |
| XmlTree.ListOf | src/wsdl-parser.ts:145 | `Array.isArray(x) ? x : [x]`: absent gives no items, a list gives its items, a single node gives a one-item list |
| WsdlParserProperties.UnprefixedKeyWins | src/wsdl-parser.ts:141 | A truthy unprefixed key is chosen over its `xs:` and `xsd:` spellings |
| WsdlParserProperties.PrefixedKeysInOrder | src/wsdl-parser.ts:143 | Without a truthy unprefixed key, `xs:` is chosen over `xsd:` |
| WsdlParserProperties.LookupFrame | src/wsdl-parser.ts:141 | A lookup depends only on the values under the keys it tries |
| WsdlParser.ParseElement | src/wsdl-parser.ts:282-290 | The name is the `name` text. The stored type is `cleanTypeName` of the `type` text, so `any` when it is absent or empty. `nillable` holds exactly when the attribute is the text `true`. `minOccurs` and `maxOccurs` are kept verbatim |
| WsdlParserProperties.NillableOnlyForTrue | src/wsdl-parser.ts:288 | For every spelling of the flag, `nillable` is set only by exactly `true`, so the XML Schema spelling `1` is not recognised |
| WsdlParserProperties.TypelessElementIsAny | src/wsdl-parser.ts:285 | An element without a `type` attribute is stored with the type `any` |
| WsdlParserProperties.ElementTypeDropsPrefix | src/wsdl-parser.ts:282-285 | An element whose `type` is `p:T`, with `T` non-empty and colon-free, is stored with its name and the type `T` |
| WsdlParserProperties.AttributeTypeDropsPrefix | src/wsdl-parser.ts:292-295 | An attribute whose `type` is `p:T` is stored with its name and the type `T` |
| WsdlParser.ParseAttribute | src/wsdl-parser.ts:292-298 | The name is the `name` text, the stored type is `cleanTypeName` of the `type` text, and `use` is kept verbatim |
| WsdlParser.ParseComplexType | src/wsdl-parser.ts:135-241 | The name is the `name` text. The fields are the parsed element declarations in this order: `sequence`, `all`, `choice`, then the same three groups under `complexContent/extension`. Attributes are absent exactly when there are none; otherwise they are the parsed `attribute` children. The SOAP array item type is the one the restriction gives |
| WsdlParserProperties.ComplexContentDoesNotChangeAttributes | src/wsdl-parser.ts:171-180 | Adding a `complexContent` child never changes the attributes of a complex type |
| WsdlParser.StripArraySuffix | src/wsdl-parser.ts:224 | Exactly one trailing `[]` is removed, and only when present |
| WsdlParser.SoapArrayTypeOf | src/wsdl-parser.ts:213-233 | There is an item type exactly when the `complexContent` restriction has one of the two encoding bases and its first `attribute` child has a non-empty `wsdl:arrayType`. The item type is then that text with one trailing `[]` removed, then cleaned |
| WsdlParserProperties.SoapArrayNeedsExactBase | src/wsdl-parser.ts:214-215 | A SOAP array is recognised only under a `complexContent/restriction` whose `base` is exactly `soapenc:Array` or `SOAP-ENC:Array` |
| WsdlParserProperties.PrefixedArrayAttributeIgnored | src/wsdl-parser.ts:213-218 | A restriction without an unprefixed `attribute` child, such as one that spells it `xs:attribute`, gives no SOAP array item type |
| WsdlParserProperties.ArrayTypeNeedsExactBase | src/wsdl-parser.ts:214-222 | The `wsdl:arrayType` is read only under one of the two exact encoding bases |
| WsdlParserProperties.SoapTreeArrayType | src/wsdl-parser.ts:213-230 | For a SOAP-encoded array declaration, the recorded item type is the `wsdl:arrayType` with `[]` removed and then cleaned |
| WsdlParserProperties.SoapArrayItemType | src/wsdl-parser.ts:213-230 | `P:T[]` is recorded as item type `T`, with no fields and no attributes |
| WsdlParserProperties.SoapTreeHasNoFields | src/wsdl-parser.ts:141-175 | A pure SOAP array declaration yields no element or attribute children |
| WsdlParser.ParseSimpleType | src/wsdl-parser.ts:243-280 | A restriction is recorded exactly when one is present. Its base is the cleaned `base` text. Enumeration values are the `value`s of the enumeration children, in order and one per child. The pattern is the pattern child's `value`. Each length facet is `parseInt` of its child's `value`. Each of these is recorded exactly when its child is present |
| WsdlParserProperties.SimpleTypeBaseDropsPrefix | src/wsdl-parser.ts:245-251 | A restriction with `base` `p:T` records the base `T` |
| WsdlParserProperties.FacetNumberReadsBack | src/wsdl-parser.ts:266-274 | A facet whose `value` is the decimal text of `n` records the number `n` |
| WsdlParserProperties.MinLengthReadsBack | src/wsdl-parser.ts:266-269 | A `minLength` child whose `value` is the decimal text of `n` gives the minimum length `n` |
| WsdlParserProperties.MaxLengthReadsBack | src/wsdl-parser.ts:271-274 | A `maxLength` child whose `value` is the decimal text of `n` gives the maximum length `n` |
| WsdlParserProperties.ValuelessLengthIsNaN | src/wsdl-parser.ts:266-269 | A `minLength` child without a `value` still records a minimum length, and it is `NaN`, because `parseInt(undefined)` is `NaN` |
| JsText.ParseIntOfIntText | src/wsdl-parser.ts:266-274 | `parseInt` reads back the decimal text of every integer, so a length facet survives printing and re-parsing |
| JsText.ParseIntOfNatText | src/wsdl-parser.ts:268 | `parseInt` of a natural number's digits, followed by any text that neither continues the digits nor marks hexadecimal, is that number |
| JsText.ParseIntOfNegated | src/wsdl-parser.ts:268 | A leading `-` negates the parsed magnitude |
| WsdlParser.ParsePart | src/wsdl-parser.ts:305-309 | The name is kept. The `element` reference is kept verbatim, prefix included. A `type` is recorded exactly when it is a non-empty text, and it is then the cleaned text |
| WsdlParserProperties.PartElementKeepsPrefix | src/wsdl-parser.ts:307 | A prefixed element reference is stored with its prefix |
| WsdlParserProperties.PartTypeDropsPrefix | src/wsdl-parser.ts:308 | A part whose `type` is `p:T` records the type `T` |
| WsdlParser.ParseMessage | src/wsdl-parser.ts:300-311 | The name is kept, and there is one part per `part` child, in order |
| WsdlParserProperties.PrefixedPartsIgnored | src/wsdl-parser.ts:301 | `wsdl:part` children are not read |
| WsdlParser.MessageRef | src/wsdl-parser.ts:320-321 | An input or output is recorded exactly when the child is present. Its message name is the cleaned `message` text of the child |
| WsdlParser.ParseFault | src/wsdl-parser.ts:322-325 | The name is kept, and the message is the cleaned `message` text |
| WsdlParserProperties.FaultMessageDropsPrefix | src/wsdl-parser.ts:322-325 | A fault whose `message` is `p:M` records the message `M` |
| WsdlParser.ParseOperation | src/wsdl-parser.ts:318-326 | The name is kept. Input and output are recorded exactly when the operation has a truthy child of that name, each with the cleaned `message` of that child. Faults are recorded exactly when a `fault` child is present, as one parsed fault per child, in order |
| WsdlParserProperties.OperationMessagesDropPrefix | src/wsdl-parser.ts:320-321 | Input and output messages `p:I` and `q:O` are recorded as `I` and `O` |
| WsdlParserProperties.OneFaultPerChild | src/wsdl-parser.ts:322-325 | A list of `fault` children gives one parsed fault per child, in order |
| WsdlParser.ParsePortType | src/wsdl-parser.ts:313-328 | The name is kept, and operation `i` is the parsed `operation` child `i`, one per child |
| WsdlParserProperties.PrefixedOperationsIgnored | src/wsdl-parser.ts:314 | `wsdl:operation` children are not read |
| WsdlParser.ExtractTypes | src/wsdl-parser.ts:54-124 | Extraction fails, with the message `Invalid WSDL: No definitions found`, exactly when neither `definitions` nor `wsdl:definitions` is truthy. On success the target namespace is the `targetNamespace` text of the definitions (or empty), and message `i` and port type `i` are the parsed `i`-th `message` and `portType` children, counts included |
| WsdlParserProperties.PrefixedMessagesRead | src/wsdl-parser.ts:100-114 | When `message` and `portType` are falsy, the `wsdl:message` and `wsdl:portType` lists are read instead and parsed item by item in document order |
| WsdlParserProperties.CollectSchemasConcatenates | src/wsdl-parser.ts:75-96 | Collecting schema by schema onto an accumulator equals appending the concatenation of every schema's complex types, simple types and elements |
| WsdlParserProperties.ExtractConcatenatesSchemas | src/wsdl-parser.ts:66-96 | The extracted complex types, simple types and elements are those of each embedded schema, concatenated in document order |
| WsdlParserProperties.ExtractedReferencesUnprefixed | src/wsdl-parser.ts:54-124 | Every type reference in an extracted model is prefix-free, except message part `element` references |
| WsdlParserProperties.CollectSchemasUnprefixed | src/wsdl-parser.ts:75-96 | Collecting schemas keeps every stored reference prefix-free |
| WsdlParserProperties.ComplexTypeIsUnprefixed | src/wsdl-parser.ts:135-241 | Every field, attribute and array item type of a parsed complex type is prefix-free |
| WsdlParserProperties.PortTypeIsUnprefixed | src/wsdl-parser.ts:313-328 | Every input, output and fault message of a parsed port type is prefix-free |
| TypeMapper.MapXmlType | src/typescript-generator.ts:253-264 | An empty name gives `any`. Every result is either a table primitive or a separator-free name that does not start lower-case. A name whose cleaned, lower-cased form is not a table key maps to its cleaned name, Pascal-cased |
| TypeMapper.TableNameIgnoresCaseAndPrefix | src/typescript-generator.ts:6-29 | A table name maps to its table entry whatever its letter case and namespace prefix |
| TypeMapper.PrefixIsIrrelevant | src/typescript-generator.ts:256 | A namespace prefix never changes the mapped type |
| TypeMapper.SameKeySameType | src/typescript-generator.ts:259-260 | Names that clean and lower-case to the same table key map alike |
| TypeMapper.CustomWordIsCapitalized | src/typescript-generator.ts:263 | A custom single-word name only has its first letter capitalised |
| TypeMapper.AnyIsNotPrimitive | src/typescript-generator.ts:6-29 | The stored default `any` is not a table key |
| TypeMapper.AnyRendersAsAny | src/typescript-generator.ts:253-264 | The stored default `any` maps to the custom name `Any`, not to the TypeScript `any` |
| EndToEnd.TypelessElementTypeIsAny | src/typescript-generator.ts:254-263 | An element without a `type` attribute renders with the type `Any` |
| Names.ToPascalCase | src/typescript-generator.ts:266-271 | Empty gives empty. The result has no `-`, `_` or white space, and does not start with a lower-case letter |
| Names.PascalIsCapitalizedWords | src/typescript-generator.ts:266-271 | `toPascalCase` equals an independent definition: split at runs of separators, capitalise each word's first letter, concatenate |
| Names.CollapseCapitalizesWords | src/typescript-generator.ts:269 | The separator-collapsing replacement capitalises every word that follows a separator run |
| Names.PascalIdempotent | src/typescript-generator.ts:266-271 | Pascal-casing twice equals Pascal-casing once |
| Names.PascalOfWord | src/typescript-generator.ts:270 | A separator-free word only has its first letter upper-cased |
| Names.ToCamelCase | src/typescript-generator.ts:273-277 | Empty gives empty. The result has no separators and does not start with an upper-case letter |
| Names.PascalOfCamel | src/typescript-generator.ts:273-277 | Pascal-casing a camel-cased name gives the Pascal-cased name |
| Names.CamelDiffersInFirstCharacterOnly | src/typescript-generator.ts:275-276 | The camel and Pascal forms have the same length and differ at most in the first character, which is lower-cased |
| Names.ToEnumKey | src/typescript-generator.ts:279-284 | The key is `[A-Z0-9_]` only and never starts with a digit. A leading digit gets one `_` in front. Every input character maps to its upper-cased self when alphanumeric, else to `_`, shifted by that one place |
| Names.ReplaceNonAlnum | src/typescript-generator.ts:281 | Same length; each non-alphanumeric character becomes `_`, the others are kept |
| GeneratorProperties.EnumKeysCanCollide | src/typescript-generator.ts:279-284 | Two values of equal length get the same key whenever, position by position, their characters are letters or digits equal up to case, or both lie outside `[a-zA-Z0-9]`. For example, `a-b` and `A_B` collide |
| Generator.EnumMemberLines | src/typescript-generator.ts:106-110 | Fails exactly when some value is undefined, naming the simple type. Otherwise there is one member line per value, in order, and only the last has no comma |
| Generator.SimpleTypeLines | src/typescript-generator.ts:100-136 | Fails exactly when an enumeration holds an undefined value. An enumeration gives `export enum N {`, one line per value and `}`. Another restriction gives two lines exactly when its facet comment is non-empty: the trimmed comment, then the alias of its mapped base. Otherwise it gives the alias alone. No restriction gives an alias of `any` |
| GeneratorProperties.EnumMembersInOrder | src/typescript-generator.ts:103-111 | Line `1+i` of an enum is value `i`'s key, its quoted value and a comma unless it is the last |
| GeneratorProperties.EnumFrame | src/typescript-generator.ts:105-111 | The member lines sit exactly between the opening line and `}` |
| GeneratorProperties.CommentIffFacets | src/typescript-generator.ts:115-129 | The facet comment is present exactly when there is a non-empty pattern, a minimum length or a maximum length |
| Generator.CommentTerminatesFacetLines | src/typescript-generator.ts:115-125 | The facet comment is the facet lines (pattern, then minimum length, then maximum length), each followed by a line break |
| JsText.TrimTerminatedLine | src/typescript-generator.ts:128 | `trim` of a line followed by a line break gives the line back when the line is non-empty and neither starts nor ends with white space |
| GeneratorProperties.AliasCommentListsFacets | src/typescript-generator.ts:112-130 | With facets whose last line does not end in white space, the rendering is the facet lines joined by line breaks, as one comment line, then the alias of the mapped base |
| GeneratorProperties.AliasWithoutFacets | src/typescript-generator.ts:112-130 | Without facets, the rendering is the alias of the mapped base alone |
| Generator.ComplexTypeLines | src/typescript-generator.ts:138-184 | A non-empty SOAP array type gives the single line `export type N = T[];`. Otherwise the block opens with `export interface N {` and closes with `}`. Between them come the field lines of the elements, in order, then those of the attributes, in order |
| GeneratorProperties.SoapArrayIgnoresFields | src/typescript-generator.ts:143-147 | A SOAP array renders the same with or without fields, as one line |
| GeneratorProperties.DecimalMaxOccursIsArrayIffAboveOne | src/typescript-generator.ts:156 | A decimal `maxOccurs`, with any non-digit tail, makes the field an array exactly when its integer part exceeds 1 |
| GeneratorProperties.NonNumericMaxOccursIsScalar | src/typescript-generator.ts:156 | A `maxOccurs` other than `unbounded` that `parseInt` cannot read never makes an array |
| GeneratorProperties.FieldTypeKeepsFlags | src/typescript-generator.ts:158-164 | Two fields of the same mapped type render alike only if they agree on array and nullable |
| GeneratorProperties.NullAfterArray | src/typescript-generator.ts:159-164 | A nillable array field's type is `T[] \| null` |
| GeneratorProperties.OptionalMarkerIffOptional | src/typescript-generator.ts:155-167 | The field name is followed by `?` exactly when `minOccurs` is `0` or the element is nillable |
| GeneratorProperties.AttributeIsScalarField | src/typescript-generator.ts:171-179 | An attribute renders as an element field that is never an array or nullable, and is optional unless `use` is `required` |
| Generator.ElementTypeLines | src/typescript-generator.ts:186-203 | One alias line per element |
| GeneratorProperties.ElementAliasMatchesField | src/typescript-generator.ts:186-203 | An element alias has exactly the type the element's field would have |
| Generator.FindElement | src/typescript-generator.ts:218 | `find` gives the first element whose name matches, or nothing exactly when none matches |
| Generator.PartType | src/typescript-generator.ts:211-226 | A non-empty element reference is cleaned and resolved: a matching element gives its mapped type, no match gives the Pascal-cased reference. Otherwise a non-empty `type` is mapped. Otherwise `any` |
| GeneratorProperties.PartElementPrefixIsIrrelevant | src/typescript-generator.ts:217 | The element reference's prefix never affects the part type |
| GeneratorProperties.ElementReferenceWins | src/typescript-generator.ts:215-226 | A non-empty element reference takes precedence over a `type` |
| GeneratorProperties.ResolvedPartUsesFirstMatch | src/typescript-generator.ts:218-220 | With several matching elements, the first one decides the part type |
| GeneratorProperties.UnresolvedPartKeepsName | src/typescript-generator.ts:221-223 | An unmatched reference renders as its Pascal-cased local name |
| GeneratorProperties.PartFieldIsRequired | src/typescript-generator.ts:228 | Message fields never carry `?` |
| Generator.PartFieldLines | src/typescript-generator.ts:211-229 | One field line per part, in order |
| Generator.MessageTypeLines | src/typescript-generator.ts:205-233 | `export interface N {`, one field line per part in order, then `}` |
| Generator.PortTypeLines | src/typescript-generator.ts:235-251 | `export interface IN {`, one method line per operation in order, then `}` |
| Generator.MessageTypeName | src/typescript-generator.ts:243-244 | The type is `void` exactly when the message is absent, and otherwise the message name Pascal-cased |
| GeneratorProperties.OperationSignature | src/typescript-generator.ts:242-246 | The method line is, in order: two spaces, the camel-cased name, `(request: `, the input type, `): Promise<`, the output type, `>;`. Each type is its message's Pascal name, or `void` when absent |
| Generator.SimpleTypeBlocks | src/typescript-generator.ts:40-46 | Fails exactly when some simple type holds an undefined enumeration value. Otherwise there is one block per simple type, in order, each its rendering |
| Generator.GenerateLines | src/typescript-generator.ts:31-85 | Fails exactly when some simple type holds an undefined enumeration value. Otherwise the output starts with the two header comments and a blank line |
| Generator.GenerateTypes | src/typescript-generator.ts:31-85 | The joined text fails under exactly the same condition |
| GeneratorProperties.TimestampOnlyInSecondLine | src/typescript-generator.ts:34-37 | Two runs at different times differ only in line 2 |
| OutputLayout.SectionLayout | src/typescript-generator.ts:39-84 | Read through its blank lines and section headings, the output follows a fixed shape. It has one blank line after the header. Each non-empty section then gives its heading and one blank line per declaration, in the order simple, complex, element, message. Service operations follow only when requested |
| OutputLayout.BodyHasItsMarkers | src/typescript-generator.ts:39-82 | The same, for everything after the header |
| OutputLayout.SectionHasItsMarkers | src/typescript-generator.ts:49-55 | A section contributes its heading and one blank line per block, or nothing when empty |
| BlockLayout.BlockPosition | src/typescript-generator.ts:42-45 | In a section body, block `i` comes right after the lines of the blocks before it, and is followed by one blank line and then the blocks after it |
| BlockLayout.BlockInSections | src/typescript-generator.ts:39-82 | In a header followed by sections, section `k` reads from its start: its heading, the earlier blocks, block `i`, then a blank line. The start is the header length plus the lengths of the sections before `k` |
| OutputLayout.BodyIsSections | src/typescript-generator.ts:39-82 | The body is the concatenation of the five sections in the fixed order, an empty section contributing nothing |
| OutputLayout.OutputIsSections | src/typescript-generator.ts:31-84 | The generated lines are exactly the header followed by the five sections: nothing follows the last non-empty section |
| OutputLayout.BlockInOutput | src/typescript-generator.ts:31-84 | In the generated lines, section `k` starts after the header and the earlier sections. From there it reads its heading, the lines of its earlier blocks, block `i`, then a blank line |
| OutputLayout.SectionBlockRenders | src/typescript-generator.ts:39-82 | Block `i` of each section is the rendering of declaration `i` of its kind: simple types, complex types, elements, messages, and port types only when operations are requested |
| OutputLayout.ComplexTypeIsPlain | src/typescript-generator.ts:138-184 | No complex-type line is blank or a section heading |
| OutputLayout.SimpleTypeIsPlain | src/typescript-generator.ts:100-136 | No simple-type line is blank or a section heading, the facet comment included |
| OutputLayout.MessageTypeIsPlain | src/typescript-generator.ts:205-233 | No message line is blank or a section heading |
| OutputLayout.PortTypeIsPlain | src/typescript-generator.ts:235-251 | No port-type line is blank or a section heading |
| EndToEnd.SoapArrayRendersAsArrayAlias | src/typescript-generator.ts:143-147 | A SOAP-encoded array declaration of `P:T[]` is emitted as exactly `export type N = T'[];`, where `T'` is the mapped item type |

## Left out

- Reading and downloading the WSDL and the xml2js parse itself (src/wsdl-parser.ts:9-52). These are I/O. The model starts from the merged object tree xml2js produces.
- `extractNamespaces` (src/wsdl-parser.ts:126-133). It fills a map that nothing else reads.
- `writeTypesToFile` (src/typescript-generator.ts:87-98). It is file I/O around `generateTypes`.
- The clock. `new Date().toISOString()` is a parameter of `GenerateLines` and `GenerateTypes`.
- The command line (src/cli.ts), the re-exports of src/index.ts and the build configuration.
- The `namespace`, `prettify` and `outputPath` generator options. The generator does not read the first two. The third is used only when writing files.
- `targetNamespace` is extracted but never rendered. It is modelled as a field only.
- Case mapping is ASCII only. JavaScript's Unicode `toUpperCase` and `toLowerCase` are not modelled; for example, `ß` upper-cases to `SS` there. Strings are sequences of characters rather than UTF-16 code units.
- `parseInt` produces unbounded integers here. Float precision beyond 2^53 and the exponent form in which JavaScript prints large numbers are not modelled.
- Attribute values that are not text (an xml2js object or list where a string is expected) read as absent. The source does not treat them alike. `cleanTypeName` throws on an object, which has no `lastIndexOf` (src/wsdl-parser.ts:334). A list passes `cleanTypeName` unchanged, and the generator's `toLowerCase` then throws on it (src/typescript-generator.ts:259). `arrayType.replace` throws on both (src/wsdl-parser.ts:224). Values that are only stored, such as `minOccurs`, are kept as they are. None of these throws is modelled.
- An empty list under `restriction.attribute` counts as no attribute. The source would read `undefined[...]` and throw. xml2js never builds such a list.
- The generator's own copy of `cleanTypeName` (src/typescript-generator.ts:286-296) is identical to the extractor's and is modelled once, as `Prefixes.CleanTypeName`.
- Generator.ElementTypeLines: its contract only fixes the line count; the content is stated by `GeneratorProperties.ElementAliasMatchesField`.
- Generator.GenerateTypes: joining with `\n` has no partner (no split is modelled). The line structure is stated on `GenerateLines`.
