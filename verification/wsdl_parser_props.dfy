/** Properties of the schema model extractor that relate several calls or
    whole documents. */
module WsdlParserProperties {
  import opened Wrappers
  import opened Seqs
  import opened XmlTree
  import opened WsdlModel
  import opened WsdlParser
  import opened Prefixes
  import opened JsText

  // ----- document order across schemas ---------------------------------------

  lemma {:induction false} CollectSchemasConcatenates(schemas: seq<Value>, acc: SchemaDecls)
    ensures CollectSchemas(schemas, acc) == SchemaDecls(
      acc.complexTypes + Flatten(Map(ComplexTypesOf, schemas)),
      acc.simpleTypes + Flatten(Map(SimpleTypesOf, schemas)),
      acc.elements + Flatten(Map(ElementsOf, schemas)))
    decreases |schemas|
  {
    if schemas != [] {
      var s := schemas[0];
      var next := SchemaDecls(acc.complexTypes + ComplexTypesOf(s),
                              acc.simpleTypes + SimpleTypesOf(s),
                              acc.elements + ElementsOf(s));
      CollectSchemasConcatenates(schemas[1..], next);
      assert CollectSchemas(schemas, acc) == CollectSchemas(schemas[1..], next);
      FlattenMapCons(ComplexTypesOf, schemas);
      FlattenMapCons(SimpleTypesOf, schemas);
      FlattenMapCons(ElementsOf, schemas);
      SeqAssoc(acc.complexTypes, ComplexTypesOf(s), Flatten(Map(ComplexTypesOf, schemas[1..])));
      SeqAssoc(acc.simpleTypes, SimpleTypesOf(s), Flatten(Map(SimpleTypesOf, schemas[1..])));
      SeqAssoc(acc.elements, ElementsOf(s), Flatten(Map(ElementsOf, schemas[1..])));
    }
  }

  /** The extracted complex types, simple types and elements are the
      concatenation of every schema's own, schema by schema in document order. */
  lemma ExtractConcatenatesSchemas(tree: Value)
    requires ExtractTypes(tree).Success?
    ensures var definitions := Definitions(tree).value;
            var m := ExtractTypes(tree).value;
            && m.complexTypes == Flatten(Map(ComplexTypesOf, Schemas(definitions)))
            && m.simpleTypes == Flatten(Map(SimpleTypesOf, Schemas(definitions)))
            && m.elements == Flatten(Map(ElementsOf, Schemas(definitions)))
  {
    CollectSchemasConcatenates(Schemas(Definitions(tree).value), SchemaDecls([], [], []));
  }

  /** Messages and port types are read from `message` and `portType`, or from
      the `wsdl:`-prefixed spellings when the plain ones are falsy; a list of
      them is parsed item by item, in document order. */
  lemma PrefixedMessagesRead(tree: Value, definitions: Value, messages: seq<Value>, portTypes: seq<Value>)
    requires Definitions(tree) == Some(definitions)
    requires !Truthy(Get(definitions, "message")) && Get(definitions, "wsdl:message") == Some(Arr(messages))
    requires !Truthy(Get(definitions, "portType")) && Get(definitions, "wsdl:portType") == Some(Arr(portTypes))
    ensures ExtractTypes(tree).Success?
    ensures ExtractTypes(tree).value.messages == Map(ParseMessage, messages)
    ensures ExtractTypes(tree).value.portTypes == Map(ParsePortType, portTypes)
  {
    var mk := ["message", "wsdl:message"];
    var pk := ["portType", "wsdl:portType"];
    assert mk[0] == "message" && mk[1..] == ["wsdl:message"];
    assert pk[0] == "portType" && pk[1..] == ["wsdl:portType"];
    assert Lookup(definitions, mk) == Lookup(definitions, mk[1..]) == Some(Arr(messages));
    assert Lookup(definitions, pk) == Lookup(definitions, pk[1..]) == Some(Arr(portTypes));
  }

  // ----- prefix-tolerant lookup ----------------------------------------------

  /** A lookup reads nothing but the keys it is given. */
  lemma {:induction false} LookupFrame(v: Value, w: Value, keys: seq<string>)
    requires forall i :: 0 <= i < |keys| ==> Get(v, keys[i]) == Get(w, keys[i])
    ensures Lookup(v, keys) == Lookup(w, keys)
  {
    if keys != [] {
      LookupFrame(v, w, keys[1..]);
    }
  }

  /** The unprefixed spelling wins whenever it is truthy, whatever the
      prefixed spellings hold. */
  lemma UnprefixedKeyWins(fields: map<string, Value>, local: string)
    requires Truthy(Get(Obj(fields), local))
    ensures Lookup(Obj(fields), SchemaKeys(local)) == Some(fields[local])
  {
  }

  /** A falsy unprefixed spelling (absent or empty text) defers to `xs:`, and
      a falsy `xs:` to `xsd:`. */
  lemma {:induction false} PrefixedKeysInOrder(v: Value, local: string)
    requires !Truthy(Get(v, local))
    ensures Truthy(Get(v, "xs:" + local)) ==> Lookup(v, SchemaKeys(local)) == Get(v, "xs:" + local)
    ensures !Truthy(Get(v, "xs:" + local)) ==> Lookup(v, SchemaKeys(local)) == LookupIn(Some(v), ["xsd:" + local])
  {
    var keys := SchemaKeys(local);
    assert keys[1..] == ["xs:" + local, "xsd:" + local];
    assert keys[1..][1..] == ["xsd:" + local];
  }

  // ----- attributes ------------------------------------------------------------

  /** Attributes declared inside `complexContent` (for instance on an
      extension) are never collected: replacing the whole `complexContent`
      subtree, under any of its spellings, leaves the attributes unchanged. */
  lemma ComplexContentDoesNotChangeAttributes(fields: map<string, Value>, key: string, content: Value)
    requires key in SchemaKeys("complexContent")
    ensures ParseComplexType(Obj(fields[key := content])).attributes
         == ParseComplexType(Obj(fields)).attributes
  {
    var keys := SchemaKeys("attribute");
    forall i | 0 <= i < |keys|
      ensures Get(Obj(fields[key := content]), keys[i]) == Get(Obj(fields), keys[i])
    {
      assert keys[i] != key;
    }
    LookupFrame(Obj(fields[key := content]), Obj(fields), keys);
  }

  // ----- SOAP-encoded arrays ---------------------------------------------------

  /** A SOAP array is only ever recognised under an exactly spelled encoding
      base inside a truthy `complexContent/restriction`. */
  lemma SoapArrayNeedsExactBase(ct: Value)
    requires SoapArrayTypeOf(ct).Some?
    ensures Lookup(ct, SchemaKeys("complexContent")).Some?
    ensures var content := Lookup(ct, SchemaKeys("complexContent")).value;
            var restriction := Lookup(content, SchemaKeys("restriction"));
            && restriction.Some?
            && Text(restriction.value, "base").Some?
            && Text(restriction.value, "base").value in SoapArrayBases
  {
    var content := Lookup(ct, SchemaKeys("complexContent")).value;
    ArrayTypeNeedsExactBase(content);
  }

  lemma ArrayTypeNeedsExactBase(content: Value)
    requires ArrayTypeOf(content).Some?
    ensures var restriction := Lookup(content, SchemaKeys("restriction"));
            && restriction.Some?
            && Text(restriction.value, "base").Some?
            && Text(restriction.value, "base").value in SoapArrayBases
  {
  }

  /** The tree xml2js builds for
      `<complexType name=N><complexContent><restriction base=B>
         <attribute wsdl:arrayType=P:T[]/></restriction></complexContent></complexType>`. */
  function SoapArrayTree(name: string, base: string, arrayType: string): Value {
    Obj(map["name" := Str(name),
            "complexContent" := Obj(map["restriction" := Obj(map[
              "base" := Str(base),
              "attribute" := Obj(map["ref" := Str("soapenc:arrayType"),
                                     "wsdl:arrayType" := Str(arrayType)])])])])
  }

  lemma SoapTreeArrayType(name: string, base: string, arrayType: string)
    requires base in SoapArrayBases && arrayType != []
    ensures SoapArrayTypeOf(SoapArrayTree(name, base, arrayType))
         == Some(CleanTypeName(StripArraySuffix(arrayType)))
  {
    var tree := SoapArrayTree(name, base, arrayType);
    var content := tree.fields["complexContent"];
    assert SchemaKeys("complexContent")[0] == "complexContent";
    assert Lookup(tree, SchemaKeys("complexContent")) == Some(content);
    var restriction := content.fields["restriction"];
    assert SchemaKeys("restriction")[0] == "restriction";
    assert Lookup(content, SchemaKeys("restriction")) == Some(restriction);
    assert Lookup(restriction, ["attribute"]) == Some(restriction.fields["attribute"]);
    assert ArrayTypeOf(content) == Some(arrayType);
  }

  /** For either encoding spelling, `P:T[]` is recorded as the item type `T`:
      one `[]` and the namespace prefix are removed, no field is produced. */
  lemma SoapArrayItemType(name: string, base: string, prefix: string, item: string)
    requires base in SoapArrayBases
    requires item != [] && ':' !in item
    ensures var ct := ParseComplexType(SoapArrayTree(name, base, prefix + ":" + item + "[]"));
            ct.soapArrayType == Some(item) && ct.elements == [] && ct.attributes.None?
  {
    var at := prefix + ":" + item + "[]";
    SoapTreeArrayType(name, base, at);
    assert at[|at| - 2..] == "[]";
    assert StripArraySuffix(at) == prefix + ":" + item;
    CleanPrefixedName(prefix, item);
    SoapTreeHasNoFields(name, base, at);
  }

  lemma SoapTreeHasNoFields(name: string, base: string, arrayType: string)
    ensures ContentItems(SoapArrayTree(name, base, arrayType)) == []
    ensures AttributeItems(SoapArrayTree(name, base, arrayType)) == []
  {
    var tree := SoapArrayTree(name, base, arrayType);
    var content := tree.fields["complexContent"];
    assert SchemaKeys("complexContent")[0] == "complexContent";
    assert Lookup(tree, SchemaKeys("complexContent")) == Some(content);
    LookupAbsent(content, SchemaKeys("extension"));
    LookupAbsent(tree, SchemaKeys("sequence"));
    LookupAbsent(tree, SchemaKeys("all"));
    LookupAbsent(tree, SchemaKeys("choice"));
    LookupAbsent(tree, SchemaKeys("attribute"));
  }

  lemma LookupAbsent(v: Value, keys: seq<string>)
    requires forall i :: 0 <= i < |keys| ==> Get(v, keys[i]).None?
    ensures Lookup(v, keys) == None
  {
  }

  // ----- references are stored unprefixed -------------------------------------

  predicate ElementUnprefixed(e: Element) { ':' !in e.typeName }

  predicate ComplexTypeUnprefixed(ct: ComplexType) {
    && (forall i :: 0 <= i < |ct.elements| ==> ElementUnprefixed(ct.elements[i]))
    && (ct.attributes.Some? ==> forall i :: 0 <= i < |ct.attributes.value| ==> ':' !in ct.attributes.value[i].typeName)
    && (ct.soapArrayType.Some? ==> ':' !in ct.soapArrayType.value)
  }

  predicate SimpleTypeUnprefixed(st: SimpleType) {
    st.restriction.Some? ==> ':' !in st.restriction.value.base
  }

  predicate MessageUnprefixed(m: Message) {
    forall i :: 0 <= i < |m.parts| ==> m.parts[i].typeName.Some? ==> ':' !in m.parts[i].typeName.value
  }

  predicate OperationUnprefixed(op: Operation) {
    && (op.input.Some? ==> ':' !in op.input.value)
    && (op.output.Some? ==> ':' !in op.output.value)
    && (op.fault.Some? ==> forall i :: 0 <= i < |op.fault.value| ==> ':' !in op.fault.value[i].message)
  }

  predicate PortTypeUnprefixed(pt: PortType) {
    forall i :: 0 <= i < |pt.operations| ==> OperationUnprefixed(pt.operations[i])
  }

  /** Every stored type and message reference is free of namespace prefixes
      (message-part `element` references are the exception: they are stored
      as written). */
  predicate ModelUnprefixed(m: Wsdl) {
    && (forall i :: 0 <= i < |m.complexTypes| ==> ComplexTypeUnprefixed(m.complexTypes[i]))
    && (forall i :: 0 <= i < |m.simpleTypes| ==> SimpleTypeUnprefixed(m.simpleTypes[i]))
    && (forall i :: 0 <= i < |m.elements| ==> ElementUnprefixed(m.elements[i]))
    && (forall i :: 0 <= i < |m.messages| ==> MessageUnprefixed(m.messages[i]))
    && (forall i :: 0 <= i < |m.portTypes| ==> PortTypeUnprefixed(m.portTypes[i]))
  }

  predicate DeclsUnprefixed(d: SchemaDecls) {
    && (forall i :: 0 <= i < |d.complexTypes| ==> ComplexTypeUnprefixed(d.complexTypes[i]))
    && (forall i :: 0 <= i < |d.simpleTypes| ==> SimpleTypeUnprefixed(d.simpleTypes[i]))
    && (forall i :: 0 <= i < |d.elements| ==> ElementUnprefixed(d.elements[i]))
  }

  lemma ComplexTypeIsUnprefixed(v: Value)
    ensures ComplexTypeUnprefixed(ParseComplexType(v))
  {
    var ct := ParseComplexType(v);
    forall j | 0 <= j < |ct.elements|
      ensures ElementUnprefixed(ct.elements[j])
    {
      assert ct.elements[j] == ParseElement(ContentItems(v)[j]);
    }
    if ct.attributes.Some? {
      forall j | 0 <= j < |ct.attributes.value|
        ensures ':' !in ct.attributes.value[j].typeName
      {
        assert ct.attributes.value[j] == ParseAttribute(AttributeItems(v)[j]);
      }
    }
  }

  lemma ComplexTypesOfUnprefixed(s: Value)
    ensures forall i :: 0 <= i < |ComplexTypesOf(s)| ==> ComplexTypeUnprefixed(ComplexTypesOf(s)[i])
  {
    var items := ListOf(Lookup(s, SchemaKeys("complexType")));
    var cts := ComplexTypesOf(s);
    forall i | 0 <= i < |cts|
      ensures ComplexTypeUnprefixed(cts[i])
    {
      assert cts[i] == ParseComplexType(items[i]);
      ComplexTypeIsUnprefixed(items[i]);
    }
  }

  lemma SimpleTypesOfUnprefixed(s: Value)
    ensures forall i :: 0 <= i < |SimpleTypesOf(s)| ==> SimpleTypeUnprefixed(SimpleTypesOf(s)[i])
  {
    var items := ListOf(Lookup(s, SchemaKeys("simpleType")));
    var sts := SimpleTypesOf(s);
    forall i | 0 <= i < |sts|
      ensures SimpleTypeUnprefixed(sts[i])
    {
      assert sts[i] == ParseSimpleType(items[i]);
    }
  }

  lemma ElementsOfUnprefixed(s: Value)
    ensures forall i :: 0 <= i < |ElementsOf(s)| ==> ElementUnprefixed(ElementsOf(s)[i])
  {
    var items := ListOf(Lookup(s, SchemaKeys("element")));
    var els := ElementsOf(s);
    forall i | 0 <= i < |els|
      ensures ElementUnprefixed(els[i])
    {
      assert els[i] == ParseElement(items[i]);
    }
  }

  lemma SchemaIsUnprefixed(s: Value)
    ensures DeclsUnprefixed(SchemaDecls(ComplexTypesOf(s), SimpleTypesOf(s), ElementsOf(s)))
  {
    ComplexTypesOfUnprefixed(s);
    SimpleTypesOfUnprefixed(s);
    ElementsOfUnprefixed(s);
  }

  lemma AppendUnprefixed(a: SchemaDecls, b: SchemaDecls)
    requires DeclsUnprefixed(a) && DeclsUnprefixed(b)
    ensures DeclsUnprefixed(SchemaDecls(a.complexTypes + b.complexTypes,
                                        a.simpleTypes + b.simpleTypes,
                                        a.elements + b.elements))
  {
  }

  lemma {:induction false} CollectSchemasUnprefixed(schemas: seq<Value>, acc: SchemaDecls)
    requires DeclsUnprefixed(acc)
    ensures DeclsUnprefixed(CollectSchemas(schemas, acc))
    decreases |schemas|
  {
    if schemas != [] {
      var s := schemas[0];
      SchemaIsUnprefixed(s);
      AppendUnprefixed(acc, SchemaDecls(ComplexTypesOf(s), SimpleTypesOf(s), ElementsOf(s)));
      CollectSchemasUnprefixed(schemas[1..], SchemaDecls(acc.complexTypes + ComplexTypesOf(s),
                                                         acc.simpleTypes + SimpleTypesOf(s),
                                                         acc.elements + ElementsOf(s)));
    }
  }

  lemma PortTypeIsUnprefixed(v: Value)
    ensures PortTypeUnprefixed(ParsePortType(v))
  {
    var pt := ParsePortType(v);
    forall i | 0 <= i < |pt.operations|
      ensures OperationUnprefixed(pt.operations[i])
    {
      var op := pt.operations[i];
      assert op == ParseOperation(OperationItems(v)[i]);
      if op.fault.Some? {
        var faults := ListOf(Lookup(OperationItems(v)[i], ["fault"]));
        forall j | 0 <= j < |op.fault.value|
          ensures ':' !in op.fault.value[j].message
        {
          assert op.fault.value[j] == ParseFault(faults[j]);
        }
      }
    }
  }

  /** Extraction strips the namespace prefix of every stored type and message
      reference. */
  lemma ExtractedReferencesUnprefixed(tree: Value)
    requires ExtractTypes(tree).Success?
    ensures ModelUnprefixed(ExtractTypes(tree).value)
  {
    var definitions := Definitions(tree).value;
    var m := ExtractTypes(tree).value;
    CollectSchemasUnprefixed(Schemas(definitions), SchemaDecls([], [], []));
    forall i | 0 <= i < |m.messages|
      ensures MessageUnprefixed(m.messages[i])
    {
      assert m.messages[i] == ParseMessage(MessageItems(definitions)[i]);
    }
    forall i | 0 <= i < |m.portTypes|
      ensures PortTypeUnprefixed(m.portTypes[i])
    {
      assert m.portTypes[i] == ParsePortType(PortTypeItems(definitions)[i]);
      PortTypeIsUnprefixed(PortTypeItems(definitions)[i]);
    }
  }

  // ----- references lose their prefix, names are kept --------------------------

  /** An element declared `type="P:T"` is stored with type `T` and its own name. */
  lemma ElementTypeDropsPrefix(v: Value, prefix: string, t: string)
    requires t != [] && ':' !in t
    requires Text(v, "type") == Some(prefix + ":" + t)
    ensures ParseElement(v).typeName == t
    ensures ParseElement(v).name == Text(v, "name")
  {
    CleanPrefixedName(prefix, t);
  }

  /** An attribute declared `type="P:T"` is stored with type `T`. */
  lemma AttributeTypeDropsPrefix(v: Value, prefix: string, t: string)
    requires t != [] && ':' !in t
    requires Text(v, "type") == Some(prefix + ":" + t)
    ensures ParseAttribute(v).typeName == t
    ensures ParseAttribute(v).name == Text(v, "name")
  {
    CleanPrefixedName(prefix, t);
  }

  /** A part declared `type="P:T"` records the type `T`. */
  lemma PartTypeDropsPrefix(v: Value, prefix: string, t: string)
    requires t != [] && ':' !in t
    requires Text(v, "type") == Some(prefix + ":" + t)
    ensures ParsePart(v).typeName == Some(t)
  {
    CleanPrefixedName(prefix, t);
  }

  /** `input message="P:M"` and `output message="P:N"` record `M` as the
      request and `N` as the response message. */
  lemma OperationMessagesDropPrefix(op: Value, prefix: string, input: string, output: string)
    requires input != [] && ':' !in input && output != [] && ':' !in output
    requires Get(op, "input").Some? && Text(Get(op, "input").value, "message") == Some(prefix + ":" + input)
    requires Get(op, "output").Some? && Text(Get(op, "output").value, "message") == Some(prefix + ":" + output)
    ensures ParseOperation(op).input == Some(input)
    ensures ParseOperation(op).output == Some(output)
  {
    CleanPrefixedName(prefix, input);
    CleanPrefixedName(prefix, output);
  }

  /** A `fault message="P:M"` records `M`. */
  lemma FaultMessageDropsPrefix(v: Value, prefix: string, m: string)
    requires m != [] && ':' !in m
    requires Text(v, "message") == Some(prefix + ":" + m)
    ensures ParseFault(v).message == m
  {
    CleanPrefixedName(prefix, m);
  }

  /** One fault per `fault` child, in order, whether the operation has one
      fault child or a list of them. */
  lemma OneFaultPerChild(op: Value, faults: seq<Value>)
    requires Get(op, "fault") == Some(Arr(faults))
    ensures ParseOperation(op).fault == Some(Map(ParseFault, faults))
  {
  }

  /** A simple type restricted with `base="P:T"` records the base `T`. */
  lemma SimpleTypeBaseDropsPrefix(st: Value, prefix: string, t: string)
    requires t != [] && ':' !in t
    requires Lookup(st, SchemaKeys("restriction")).Some?
    requires Text(Lookup(st, SchemaKeys("restriction")).value, "base") == Some(prefix + ":" + t)
    ensures ParseSimpleType(st).restriction.value.base == t
  {
    CleanPrefixedName(prefix, t);
  }

  /** A length facet whose `value` is the decimal text of `n` reads back as `n`. */
  lemma FacetNumberReadsBack(facet: Value, n: int)
    requires Text(facet, "value") == Some(IntToString(n))
    ensures FacetNumber(facet) == Num(n)
  {
    ParseIntOfIntText(n);
  }

  /** `minLength value="n"` is recorded as the number `n`. */
  lemma MinLengthReadsBack(st: Value, n: int)
    requires Lookup(st, SchemaKeys("restriction")).Some?
    requires var facet := Lookup(Lookup(st, SchemaKeys("restriction")).value, SchemaKeys("minLength"));
             facet.Some? && Text(facet.value, "value") == Some(IntToString(n))
    ensures ParseSimpleType(st).restriction.value.minLength == Some(Num(n))
  {
    FacetNumberReadsBack(Lookup(Lookup(st, SchemaKeys("restriction")).value, SchemaKeys("minLength")).value, n);
  }

  /** `maxLength value="n"` is recorded as the number `n`. */
  lemma MaxLengthReadsBack(st: Value, n: int)
    requires Lookup(st, SchemaKeys("restriction")).Some?
    requires var facet := Lookup(Lookup(st, SchemaKeys("restriction")).value, SchemaKeys("maxLength"));
             facet.Some? && Text(facet.value, "value") == Some(IntToString(n))
    ensures ParseSimpleType(st).restriction.value.maxLength == Some(Num(n))
  {
    FacetNumberReadsBack(Lookup(Lookup(st, SchemaKeys("restriction")).value, SchemaKeys("maxLength")).value, n);
  }

  /** A length facet without a `value` is recorded as `NaN`, not dropped. */
  lemma ValuelessLengthIsNaN(st: Value)
    requires Lookup(st, SchemaKeys("restriction")).Some?
    requires var facet := Lookup(Lookup(st, SchemaKeys("restriction")).value, SchemaKeys("minLength"));
             facet.Some? && Text(facet.value, "value").None?
    ensures ParseSimpleType(st).restriction.value.minLength == Some(NaN)
  {
  }

  /** The `attribute` that carries `wsdl:arrayType` is read only under its
      unprefixed key: in a schema written with `xs:` prefixes, where it is
      `xs:attribute`, no SOAP array is ever recognised. */
  lemma PrefixedArrayAttributeIgnored(ct: Value)
    requires var restriction := LookupIn(Lookup(ct, SchemaKeys("complexContent")), SchemaKeys("restriction"));
             restriction.Some? && Get(restriction.value, "attribute").None?
    ensures SoapArrayTypeOf(ct).None?
  {
  }

  // ----- quirks kept from the source -------------------------------------------

  /** A message-part `element` reference keeps its namespace prefix. */
  lemma PartElementKeepsPrefix(prefix: string, local: string)
    ensures ParsePart(Obj(map["element" := Str(prefix + ":" + local)])).element
         == Some(prefix + ":" + local)
  {
  }

  /** Only the unprefixed `part` key is read: parts spelled `wsdl:part` are
      not collected. */
  lemma PrefixedPartsIgnored(fields: map<string, Value>, parts: Value)
    requires "part" !in fields
    ensures ParseMessage(Obj(fields["wsdl:part" := parts])).parts == []
  {
    assert ["part"][0] == "part";
  }

  /** Only the unprefixed `operation` key is read. */
  lemma PrefixedOperationsIgnored(fields: map<string, Value>, operations: Value)
    requires "operation" !in fields
    ensures ParsePortType(Obj(fields["wsdl:operation" := operations])).operations == []
  {
    assert ["operation"][0] == "operation";
  }

  /** An element without a `type` attribute records the sentinel `any`. */
  lemma TypelessElementIsAny(fields: map<string, Value>)
    requires "type" !in fields
    ensures ParseElement(Obj(fields)).typeName == "any"
  {
  }

  /** `nillable` is recorded only for the exact text `true`; the other
      XML Schema spelling of true, `1`, is not recognised. */
  lemma NillableOnlyForTrue(fields: map<string, Value>, flag: string)
    ensures ParseElement(Obj(fields["nillable" := Str(flag)])).nillable <==> flag == "true"
  {
    assert Text(Obj(fields["nillable" := Str(flag)]), "nillable") == Some(flag);
  }
}
