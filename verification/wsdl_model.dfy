/** The canonical schema model the extractor builds and the generator reads.
    `None` stands for a property the source leaves `undefined`; a name read
    from the document is optional because nothing forces a `name` attribute. */
module WsdlModel {
  import opened Wrappers
  import opened JsText

  /** An element declaration: its type reference is stored prefix-stripped,
      the occurrence attributes verbatim. */
  datatype Element = Element(
    name: Option<string>,
    typeName: string,
    minOccurs: Option<string>,
    maxOccurs: Option<string>,
    nillable: bool)

  datatype Attribute = Attribute(
    name: Option<string>,
    typeName: string,
    use: Option<string>)

  /** A complex type: its flattened element list, its direct attributes
      (`None` when it has none) and, for a SOAP-encoded array, the item type. */
  datatype ComplexType = ComplexType(
    name: Option<string>,
    elements: seq<Element>,
    attributes: Option<seq<Attribute>>,
    soapArrayType: Option<string>)

  /** Facets of a simple type's restriction. An enumeration value can be
      `undefined` when its facet has no `value` attribute. */
  datatype Restriction = Restriction(
    base: string,
    enumeration: Option<seq<Option<string>>>,
    pattern: Option<string>,
    minLength: Option<JsNumber>,
    maxLength: Option<JsNumber>)

  datatype SimpleType = SimpleType(name: Option<string>, restriction: Option<Restriction>)

  /** A message part: `element` keeps its prefix, `typeName` is stripped. */
  datatype Part = Part(name: Option<string>, element: Option<string>, typeName: Option<string>)

  datatype Message = Message(name: Option<string>, parts: seq<Part>)

  datatype Fault = Fault(name: Option<string>, message: string)

  /** An operation: `input` and `output` hold the referenced message names. */
  datatype Operation = Operation(
    name: Option<string>,
    input: Option<string>,
    output: Option<string>,
    fault: Option<seq<Fault>>)

  datatype PortType = PortType(name: Option<string>, operations: seq<Operation>)

  datatype Wsdl = Wsdl(
    targetNamespace: string,
    complexTypes: seq<ComplexType>,
    simpleTypes: seq<SimpleType>,
    messages: seq<Message>,
    portTypes: seq<PortType>,
    elements: seq<Element>)
}
