/** Properties that follow one value from the xml2js tree through the
    extractor and the generator to the emitted TypeScript text. */
module EndToEnd {
  import opened Wrappers
  import opened XmlTree
  import opened WsdlModel
  import opened WsdlParser
  import opened Names
  import opened TypeMapper
  import opened Generator
  import WsdlParserProperties

  /** A SOAP-encoded array type `P:T[]` under either encoding base is emitted
      as one alias line `export type N = T'[];`, where `T'` is the mapped item
      type: the prefix and the array suffix are gone, and no interface is made. */
  lemma SoapArrayRendersAsArrayAlias(name: string, base: string, prefix: string, item: string)
    requires base in SoapArrayBases
    requires item != [] && ':' !in item
    ensures ComplexTypeLines(ParseComplexType(WsdlParserProperties.SoapArrayTree(name, base, prefix + ":" + item + "[]")))
         == ["export type " + ToPascalCase(name) + " = " + MapXmlType(item) + "[];"]
  {
    var tree := WsdlParserProperties.SoapArrayTree(name, base, prefix + ":" + item + "[]");
    WsdlParserProperties.SoapArrayItemType(name, base, prefix, item);
    SoapTreeName(name, base, prefix + ":" + item + "[]");
    ParsedNameIsText(tree);
    var ct := ParseComplexType(tree);
    assert ct.soapArrayType == Some(item);
    assert ct.name == Some(name);
  }

  lemma SoapTreeName(name: string, base: string, arrayType: string)
    ensures Text(WsdlParserProperties.SoapArrayTree(name, base, arrayType), "name") == Some(name)
  {
  }

  lemma ParsedNameIsText(ct: Value)
    ensures ParseComplexType(ct).name == Text(ct, "name")
  {
  }

  /** An element declared without a `type` attribute gets the field type
      `Any`: the extractor stores `any`, which the generator does not find in
      its primitive table and so Pascal-cases like a named type. */
  lemma TypelessElementTypeIsAny(fields: map<string, Value>)
    requires "type" !in fields
    ensures MapXmlType(ParseElement(Obj(fields)).typeName) == "Any"
  {
    var stored := ParseElement(Obj(fields)).typeName;
    WsdlParserProperties.TypelessElementIsAny(fields);
    AnyRendersAsAny(stored);
  }
}
