/** The schema model extractor: `WSDLParser.extractTypes` and its `parse*`
    helpers, walking the xml2js tree of a WSDL 1.1 document. */
module WsdlParser {
  import opened Wrappers
  import opened Seqs
  import opened JsText
  import opened XmlTree
  import opened WsdlModel
  import opened Prefixes

  const NoDefinitionsMessage: string := "Invalid WSDL: No definitions found"

  /** The two accepted spellings of the SOAP 1.1 encoding array type
      (SOAP 1.1 section 5.4.2), compared case-sensitively. */
  const SoapArrayBases: set<string> := {"soapenc:Array", "SOAP-ENC:Array"}

  /** `cleanTypeName(node[key])`: an absent attribute cleans like an empty one. */
  function CleanAttr(v: Value, key: string): (r: string)
    ensures ':' !in r
  {
    CleanTypeName(TextOr(v, key, ""))
  }

  /** `arrayType.replace(/\[\]$/, '')`: one trailing `[]` removed. */
  function StripArraySuffix(s: string): (r: string)
    ensures |s| >= 2 && s[|s| - 2..] == "[]" ==> r + "[]" == s
    ensures !(|s| >= 2 && s[|s| - 2..] == "[]") ==> r == s
  {
    if |s| >= 2 && s[|s| - 2..] == "[]" then s[..|s| - 2] else s
  }

  function ParseElement(v: Value): (e: Element)
    ensures e.name == Text(v, "name")
    ensures e.typeName == CleanTypeName(TextOr(v, "type", ""))
    ensures e.nillable <==> Text(v, "nillable") == Some("true")
    ensures e.minOccurs == Text(v, "minOccurs") && e.maxOccurs == Text(v, "maxOccurs")
  {
    Element(Text(v, "name"), CleanAttr(v, "type"), Text(v, "minOccurs"), Text(v, "maxOccurs"),
            Text(v, "nillable") == Some("true"))
  }

  function ParseAttribute(v: Value): (a: Attribute)
    ensures a.name == Text(v, "name")
    ensures a.typeName == CleanTypeName(TextOr(v, "type", ""))
    ensures a.use == Text(v, "use")
  {
    Attribute(Text(v, "name"), CleanAttr(v, "type"), Text(v, "use"))
  }

  /** The raw element declarations of a `sequence`, `all` or `choice` group
      found under `owner` (none when the owner or the group is absent). */
  function GroupItems(owner: Option<Value>, group: string): seq<Value> {
    ListOf(LookupIn(LookupIn(owner, SchemaKeys(group)), SchemaKeys("element")))
  }

  /** The raw element declarations of a complex type, in the order the source
      collects them: its own `sequence`, `all`, `choice`, then those of its
      `complexContent/extension`. */
  function ContentItems(ct: Value): seq<Value> {
    var extension := LookupIn(Lookup(ct, SchemaKeys("complexContent")), SchemaKeys("extension"));
    GroupItems(Some(ct), "sequence") + GroupItems(Some(ct), "all") + GroupItems(Some(ct), "choice")
    + GroupItems(extension, "sequence") + GroupItems(extension, "all") + GroupItems(extension, "choice")
  }

  /** The raw `attribute` children of a complex type itself. */
  function AttributeItems(ct: Value): seq<Value> {
    ListOf(Lookup(ct, SchemaKeys("attribute")))
  }

  /** The `wsdl:arrayType` of a `complexContent/restriction` whose base is a
      SOAP-encoded array, read from its first unprefixed `attribute`. A list of
      no attributes, which xml2js never builds, counts as no attribute. */
  function ArrayTypeOf(content: Value): Option<string> {
    match Lookup(content, SchemaKeys("restriction"))
    case None => None
    case Some(restriction) =>
      if Text(restriction, "base").Some? && Text(restriction, "base").value in SoapArrayBases then
        match Lookup(restriction, ["attribute"])
        case None => None
        case Some(attrs) =>
          var first := if attrs.Arr? then (if attrs.items == [] then None else Some(attrs.items[0]))
                       else Some(attrs);
          if first.Some? && TextOr(first.value, "wsdl:arrayType", "") != "" then
            Text(first.value, "wsdl:arrayType")
          else None
      else None
  }

  /** The item type of a SOAP-encoded array: the `wsdl:arrayType` value
      with one trailing `[]` removed, then prefix-stripped. */
  function SoapArrayTypeOf(ct: Value): (r: Option<string>)
    ensures var restriction := LookupIn(Lookup(ct, SchemaKeys("complexContent")), SchemaKeys("restriction"));
            var attributes := ListOf(LookupIn(restriction, ["attribute"]));
            var arrayType := if attributes == [] then "" else TextOr(attributes[0], "wsdl:arrayType", "");
            r == if && restriction.Some?
                    && Text(restriction.value, "base").Some?
                    && Text(restriction.value, "base").value in SoapArrayBases
                    && arrayType != ""
                 then Some(CleanTypeName(StripArraySuffix(arrayType)))
                 else None
  {
    match Lookup(ct, SchemaKeys("complexContent"))
    case None => None
    case Some(content) =>
      match ArrayTypeOf(content)
      case None => None
      case Some(arrayType) => Some(CleanTypeName(StripArraySuffix(arrayType)))
  }

  function ParseComplexType(ct: Value): (r: ComplexType)
    ensures r.name == Text(ct, "name")
    ensures r.elements == Map(ParseElement, ContentItems(ct))
    ensures r.attributes.None? <==> AttributeItems(ct) == []
    ensures r.attributes.Some? ==> r.attributes.value == Map(ParseAttribute, AttributeItems(ct))
    ensures r.soapArrayType == SoapArrayTypeOf(ct)
  {
    var name := Text(ct, "name");
    var seqElements := Map(ParseElement, GroupItems(Some(ct), "sequence"));
    var allElements := Map(ParseElement, GroupItems(Some(ct), "all"));
    var choiceElements := Map(ParseElement, GroupItems(Some(ct), "choice"));
    var attributes := Map(ParseAttribute, AttributeItems(ct));
    var extension := LookupIn(Lookup(ct, SchemaKeys("complexContent")), SchemaKeys("extension"));
    var extSeq := Map(ParseElement, GroupItems(extension, "sequence"));
    var extAll := Map(ParseElement, GroupItems(extension, "all"));
    var extChoice := Map(ParseElement, GroupItems(extension, "choice"));
    var elements := seqElements + allElements + choiceElements + extSeq + extAll + extChoice;
    assert elements == Map(ParseElement, ContentItems(ct)) by {
      MapAppend(ParseElement, GroupItems(Some(ct), "sequence"), GroupItems(Some(ct), "all"));
      var a := GroupItems(Some(ct), "sequence") + GroupItems(Some(ct), "all");
      MapAppend(ParseElement, a, GroupItems(Some(ct), "choice"));
      var b := a + GroupItems(Some(ct), "choice");
      MapAppend(ParseElement, b, GroupItems(extension, "sequence"));
      var c := b + GroupItems(extension, "sequence");
      MapAppend(ParseElement, c, GroupItems(extension, "all"));
      var d := c + GroupItems(extension, "all");
      MapAppend(ParseElement, d, GroupItems(extension, "choice"));
    }
    ComplexType(name, elements, if |attributes| > 0 then Some(attributes) else None, SoapArrayTypeOf(ct))
  }

  function EnumerationValue(e: Value): Option<string> {
    Text(e, "value")
  }

  /** `parseInt(facet.value)`; `parseInt(undefined)` is `NaN`. */
  function FacetNumber(facet: Value): JsNumber {
    match Text(facet, "value")
    case None => NaN
    case Some(s) => ParseInt(s)
  }

  function ParseSimpleType(st: Value): (r: SimpleType)
    ensures r.name == Text(st, "name")
    ensures r.restriction.None? <==> Lookup(st, SchemaKeys("restriction")).None?
    ensures r.restriction.Some? ==>
      var restriction := Lookup(st, SchemaKeys("restriction")).value;
      var facets := r.restriction.value;
      var pattern := Lookup(restriction, SchemaKeys("pattern"));
      var minLength := Lookup(restriction, SchemaKeys("minLength"));
      var maxLength := Lookup(restriction, SchemaKeys("maxLength"));
      && facets.base == CleanTypeName(TextOr(restriction, "base", ""))
      && (facets.enumeration.Some? <==> Lookup(restriction, SchemaKeys("enumeration")).Some?)
      && (facets.enumeration.Some? ==>
            var items := ListOf(Lookup(restriction, SchemaKeys("enumeration")));
            && |facets.enumeration.value| == |items|
            && forall i :: 0 <= i < |items| ==> facets.enumeration.value[i] == Text(items[i], "value"))
      && facets.pattern == (if pattern.Some? then Text(pattern.value, "value") else None)
      && facets.minLength == (if minLength.Some? then Some(FacetNumber(minLength.value)) else None)
      && facets.maxLength == (if maxLength.Some? then Some(FacetNumber(maxLength.value)) else None)
  {
    match Lookup(st, SchemaKeys("restriction"))
    case None => SimpleType(Text(st, "name"), None)
    case Some(restriction) =>
      var enumeration := Lookup(restriction, SchemaKeys("enumeration"));
      var pattern := Lookup(restriction, SchemaKeys("pattern"));
      var minLength := Lookup(restriction, SchemaKeys("minLength"));
      var maxLength := Lookup(restriction, SchemaKeys("maxLength"));
      SimpleType(Text(st, "name"), Some(Restriction(
        CleanAttr(restriction, "base"),
        if enumeration.Some? then Some(Map(EnumerationValue, ListOf(enumeration))) else None,
        if pattern.Some? then Text(pattern.value, "value") else None,
        if minLength.Some? then Some(FacetNumber(minLength.value)) else None,
        if maxLength.Some? then Some(FacetNumber(maxLength.value)) else None)))
  }

  function ParsePart(p: Value): (r: Part)
    ensures r.name == Text(p, "name")
    ensures r.element == Text(p, "element")
    ensures r.typeName.Some? <==> TextOr(p, "type", "") != ""
    ensures r.typeName.Some? ==> r.typeName.value == CleanTypeName(TextOr(p, "type", ""))
  {
    Part(Text(p, "name"), Text(p, "element"),
         if TextOr(p, "type", "") != "" then Some(CleanAttr(p, "type")) else None)
  }

  /** The raw `part` children of a message; only the unprefixed key is read. */
  function PartItems(message: Value): seq<Value> {
    ListOf(Lookup(message, ["part"]))
  }

  function ParseMessage(message: Value): (r: Message)
    ensures r.name == Text(message, "name")
    ensures |r.parts| == |PartItems(message)|
    ensures forall i :: 0 <= i < |r.parts| ==> r.parts[i] == ParsePart(PartItems(message)[i])
  {
    Message(Text(message, "name"), Map(ParsePart, PartItems(message)))
  }

  /** The message an `input` or `output` child names, when that child is truthy. */
  function MessageRef(o: Option<Value>): (r: Option<string>)
    ensures r.Some? <==> o.Some?
    ensures r.Some? ==> r.value == CleanTypeName(TextOr(o.value, "message", ""))
  {
    match o
    case None => None
    case Some(v) => Some(CleanAttr(v, "message"))
  }

  function ParseFault(f: Value): (r: Fault)
    ensures r.name == Text(f, "name")
    ensures r.message == CleanTypeName(TextOr(f, "message", ""))
  {
    Fault(Text(f, "name"), CleanAttr(f, "message"))
  }

  function ParseOperation(op: Value): (r: Operation)
    ensures r.name == Text(op, "name")
    ensures r.input.Some? <==> Truthy(Get(op, "input"))
    ensures r.input.Some? ==> r.input.value == CleanTypeName(TextOr(Get(op, "input").value, "message", ""))
    ensures r.output.Some? <==> Truthy(Get(op, "output"))
    ensures r.output.Some? ==> r.output.value == CleanTypeName(TextOr(Get(op, "output").value, "message", ""))
    ensures r.fault.Some? <==> Truthy(Get(op, "fault"))
    ensures r.fault.Some? ==>
              var faults := ListOf(Get(op, "fault"));
              && |r.fault.value| == |faults|
              && forall i :: 0 <= i < |faults| ==> r.fault.value[i] == ParseFault(faults[i])
  {
    var fault := Lookup(op, ["fault"]);
    Operation(Text(op, "name"), MessageRef(Lookup(op, ["input"])), MessageRef(Lookup(op, ["output"])),
              if fault.Some? then Some(Map(ParseFault, ListOf(fault))) else None)
  }

  /** The raw `operation` children of a port type; only the unprefixed key is read. */
  function OperationItems(portType: Value): seq<Value> {
    ListOf(Lookup(portType, ["operation"]))
  }

  function ParsePortType(portType: Value): (r: PortType)
    ensures r.name == Text(portType, "name")
    ensures |r.operations| == |OperationItems(portType)|
    ensures forall i :: 0 <= i < |r.operations| ==> r.operations[i] == ParseOperation(OperationItems(portType)[i])
  {
    PortType(Text(portType, "name"), Map(ParseOperation, OperationItems(portType)))
  }

  // ----- extractTypes ---------------------------------------------------------

  /** The declarations one schema contributes. */
  datatype SchemaDecls = SchemaDecls(
    complexTypes: seq<ComplexType>,
    simpleTypes: seq<SimpleType>,
    elements: seq<Element>)

  function ComplexTypesOf(schema: Value): seq<ComplexType> {
    Map(ParseComplexType, ListOf(Lookup(schema, SchemaKeys("complexType"))))
  }

  function SimpleTypesOf(schema: Value): seq<SimpleType> {
    Map(ParseSimpleType, ListOf(Lookup(schema, SchemaKeys("simpleType"))))
  }

  function ElementsOf(schema: Value): seq<Element> {
    Map(ParseElement, ListOf(Lookup(schema, SchemaKeys("element"))))
  }

  /** `schemas.forEach(s => { complexTypes.push(...); simpleTypes.push(...);
      elements.push(...) })`, one schema at a time onto the accumulator. */
  function CollectSchemas(schemas: seq<Value>, acc: SchemaDecls): SchemaDecls
    decreases |schemas|
  {
    if schemas == [] then acc
    else
      var s := schemas[0];
      CollectSchemas(schemas[1..], SchemaDecls(acc.complexTypes + ComplexTypesOf(s),
                                               acc.simpleTypes + SimpleTypesOf(s),
                                               acc.elements + ElementsOf(s)))
  }

  /** The definitions root, under either spelling. */
  function Definitions(tree: Value): Option<Value> {
    Lookup(tree, ["definitions", "wsdl:definitions"])
  }

  /** The embedded schemas, in document order. */
  function Schemas(definitions: Value): seq<Value> {
    ListOf(LookupIn(Lookup(definitions, ["types", "wsdl:types"]), SchemaKeys("schema")))
  }

  function MessageItems(definitions: Value): seq<Value> {
    ListOf(Lookup(definitions, ["message", "wsdl:message"]))
  }

  function PortTypeItems(definitions: Value): seq<Value> {
    ListOf(Lookup(definitions, ["portType", "wsdl:portType"]))
  }

  /** `extractTypes`: the whole schema model of one document, or the one error
      the extractor raises. */
  function ExtractTypes(tree: Value): (r: Result<Wsdl, string>)
    ensures r.Failure? <==> !Truthy(Get(tree, "definitions")) && !Truthy(Get(tree, "wsdl:definitions"))
    ensures r.Failure? ==> r.error == NoDefinitionsMessage
    ensures r.Success? ==> Definitions(tree).Some?
    ensures r.Success? ==> r.value.targetNamespace == TextOr(Definitions(tree).value, "targetNamespace", "")
    ensures r.Success? ==> |r.value.messages| == |MessageItems(Definitions(tree).value)|
    ensures r.Success? ==> forall i :: 0 <= i < |r.value.messages| ==>
                              r.value.messages[i] == ParseMessage(MessageItems(Definitions(tree).value)[i])
    ensures r.Success? ==> |r.value.portTypes| == |PortTypeItems(Definitions(tree).value)|
    ensures r.Success? ==> forall i :: 0 <= i < |r.value.portTypes| ==>
                              r.value.portTypes[i] == ParsePortType(PortTypeItems(Definitions(tree).value)[i])
  {
    var keys := ["definitions", "wsdl:definitions"];
    assert keys[0] == "definitions" && keys[1] == "wsdl:definitions";
    match Definitions(tree)
    case None =>
      assert !Truthy(Get(tree, keys[0])) && !Truthy(Get(tree, keys[1]));
      Failure(NoDefinitionsMessage)
    case Some(definitions) =>
      var decls := CollectSchemas(Schemas(definitions), SchemaDecls([], [], []));
      Success(Wsdl(
        TextOr(definitions, "targetNamespace", ""),
        decls.complexTypes,
        decls.simpleTypes,
        Map(ParseMessage, MessageItems(definitions)),
        Map(ParsePortType, PortTypeItems(definitions)),
        decls.elements))
  }
}
