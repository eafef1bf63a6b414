/** Properties of the generator: cardinality and optionality of fields,
    part type resolution, enum layout, the facet comment, and the layout of
    the whole output. */
module GeneratorProperties {
  import opened Wrappers
  import opened Seqs
  import opened JsText
  import opened Prefixes
  import opened Names
  import opened TypeMapper
  import opened WsdlModel
  import opened Generator

  // ----- maxOccurs -----------------------------------------------------------

  /** A decimal `maxOccurs`, with any non-digit tail such as `.5`, makes an
      array exactly when its integer part exceeds 1. */
  lemma DecimalMaxOccursIsArrayIffAboveOne(n: nat, rest: string)
    requires rest == [] || (!IsAsciiDigit(rest[0]) && rest[0] != 'x' && rest[0] != 'X')
    ensures IsArrayOccurs(Some(NatToString(n) + rest)) <==> n > 1
  {
    ParseIntOfNatText(n, rest);
    var m := NatToString(n) + rest;
    assert m[0] == NatToString(n)[0];
    assert m != "unbounded" by {
      assert IsAsciiDigit(m[0]);
    }
  }

  /** A `maxOccurs` that starts with neither a digit, a sign nor white space,
      other than `unbounded`, never makes an array: `parseInt` gives `NaN`. */
  lemma NonNumericMaxOccursIsScalar(m: string)
    requires m != [] && m != "unbounded"
    requires !IsAsciiDigit(m[0]) && !IsJsSpace(m[0]) && m[0] != '+' && m[0] != '-'
    ensures !IsArrayOccurs(Some(m))
  {
    assert TrimStart(m) == m;
    assert LeadingDigits(m, false) == [];
  }

  // ----- fields ----------------------------------------------------------------

  /** The rendered field type loses neither flag: two elements of the same
      mapped type render the same only if they agree on array and nullable. */
  lemma FieldTypeKeepsFlags(e1: Element, e2: Element)
    requires MapXmlType(e1.typeName) == MapXmlType(e2.typeName)
    requires FieldType(e1) == FieldType(e2)
    ensures IsArrayOccurs(e1.maxOccurs) == IsArrayOccurs(e2.maxOccurs)
    ensures e1.nillable == e2.nillable
  {
    var n := |MapXmlType(e1.typeName)|;
    assert |FieldType(e1)| == n + (if IsArrayOccurs(e1.maxOccurs) then 2 else 0) + (if e1.nillable then 7 else 0);
    assert |FieldType(e2)| == n + (if IsArrayOccurs(e2.maxOccurs) then 2 else 0) + (if e2.nillable then 7 else 0);
  }

  /** A nillable element's type ends in ` | null`, after any `[]`. */
  lemma NullAfterArray(e: Element)
    requires IsArrayOccurs(e.maxOccurs) && e.nillable
    ensures FieldType(e) == MapXmlType(e.typeName) + "[]" + " | null"
  {
  }

  /** The character after a field's name is `?` exactly when the element is
      optional: `minOccurs` is `0` or it is nillable. */
  lemma OptionalMarkerIffOptional(e: Element)
    ensures var name := CamelName(e.name);
            var line := ElementFieldLine(e);
            |line| > 2 + |name| && (line[2 + |name|] == '?' <==> e.minOccurs == Some("0") || e.nillable)
  {
    var name := CamelName(e.name);
    var line := ElementFieldLine(e);
    assert line == "  " + name + OptionalMarker(IsOptional(e)) + ": " + FieldType(e) + ";";
    assert line[2 + |name|] == (OptionalMarker(IsOptional(e)) + ": ")[0];
  }

  /** A standalone element alias uses exactly the type its field would have. */
  lemma ElementAliasMatchesField(e: Element)
    ensures ElementTypeLines(e) == ["export type " + PascalName(e.name) + " = " + FieldType(e) + ";"]
  {
    var baseType := MapXmlType(e.typeName);
    var arrayed := if IsArrayOccurs(e.maxOccurs) then baseType + "[]" else baseType;
    assert arrayed + "" == arrayed;
  }

  /** An attribute renders as an element field that is never an array and
      never nullable, and is optional unless the attribute is required. */
  lemma AttributeIsScalarField(a: Attribute)
    ensures AttributeFieldLine(a)
         == ElementFieldLine(Element(a.name, a.typeName, if a.use == Some("required") then None else Some("0"), None, false))
  {
  }

  /** A SOAP-encoded array renders without any of its fields. */
  lemma SoapArrayIgnoresFields(ct: ComplexType)
    requires ct.soapArrayType.Some? && ct.soapArrayType.value != []
    ensures ComplexTypeLines(ct) == ComplexTypeLines(ct.(elements := [], attributes := None))
    ensures |ComplexTypeLines(ct)| == 1
  {
  }

  // ----- message parts ---------------------------------------------------------

  /** The `element` reference is stripped only here, so its prefix never
      matters. */
  lemma PartElementPrefixIsIrrelevant(p: Part, prefix: string, local: string, elements: seq<Element>)
    requires local != [] && ':' !in local
    requires p.element == Some(prefix + ":" + local)
    ensures PartType(p, elements) == PartType(p.(element := Some(local)), elements)
  {
    CleanPrefixedName(prefix, local);
  }

  /** A non-empty element reference takes precedence over a `type`. */
  lemma ElementReferenceWins(p: Part, elements: seq<Element>)
    requires p.element.Some? && p.element.value != []
    ensures PartType(p, elements) == PartType(p.(typeName := None), elements)
  {
  }

  /** An element reference resolves to the first element with that name. */
  lemma ResolvedPartUsesFirstMatch(p: Part, elements: seq<Element>, k: nat)
    requires p.element.Some? && p.element.value != []
    requires k < |elements| && elements[k].name == Some(CleanTypeName(p.element.value))
    requires forall i :: 0 <= i < k ==> elements[i].name != Some(CleanTypeName(p.element.value))
    ensures PartType(p, elements) == MapXmlType(elements[k].typeName)
  {
    var ref := CleanTypeName(p.element.value);
    match FindElement(elements, ref)
    case Some(j) =>
      assert j == k;
    case None =>
  }

  /** An element reference that matches no element keeps its own name. */
  lemma UnresolvedPartKeepsName(p: Part, elements: seq<Element>)
    requires p.element.Some? && p.element.value != []
    requires forall i :: 0 <= i < |elements| ==> elements[i].name != Some(CleanTypeName(p.element.value))
    ensures PartType(p, elements) == ToPascalCase(CleanTypeName(p.element.value))
  {
  }

  /** Message fields are never optional: a colon follows the name. */
  lemma PartFieldIsRequired(p: Part, elements: seq<Element>)
    ensures var name := CamelName(p.name);
            var line := PartFieldLine(p, elements);
            |line| > 2 + |name| && line[2 + |name|] == ':'
  {
    var name := CamelName(p.name);
    assert PartFieldLine(p, elements) == "  " + name + ": " + PartType(p, elements) + ";";
  }

  // ----- simple types ----------------------------------------------------------

  /** The facet comment is present exactly when a non-empty pattern or a
      length facet is. */
  lemma CommentIffFacets(r: Restriction)
    ensures RestrictionComment(r) != [] <==>
              (r.pattern.Some? && r.pattern.value != []) || r.minLength.Some? || r.maxLength.Some?
  {
  }

  /** The member line of value `i` of `n`: key, quoted value, and a comma
      unless it is the last. */
  lemma EnumMemberFormat(v: string, i: nat, n: nat)
    requires i < n
    ensures EnumMemberLine(v, i == n - 1)
         == "  " + ToEnumKey(v) + " = '" + v + "'" + (if i < n - 1 then "," else "")
  {
  }

  /** The member lines of an enum sit between its opening line and `}`. */
  lemma EnumFrame(st: SimpleType)
    requires st.restriction.Some? && st.restriction.value.enumeration.Some?
    requires AllDefined(st.restriction.value.enumeration.value)
    ensures SimpleTypeLines(st).Success?
    ensures var members := EnumMemberLines(st.name, st.restriction.value.enumeration.value);
            members.Success? && SimpleTypeLines(st).value[1..|SimpleTypeLines(st).value| - 1] == members.value
  {
    var members := EnumMemberLines(st.name, st.restriction.value.enumeration.value).value;
    var lines := SimpleTypeLines(st).value;
    assert lines == ["export enum " + PascalName(st.name) + " {"] + members + ["}"];
    assert lines[1..|lines| - 1] == members;
  }

  /** An enum lists every value, in order, with a comma after all but the
      last. */
  lemma EnumMembersInOrder(st: SimpleType)
    requires st.restriction.Some? && st.restriction.value.enumeration.Some?
    requires AllDefined(st.restriction.value.enumeration.value)
    ensures var values := st.restriction.value.enumeration.value;
            var lines := SimpleTypeLines(st);
            && lines.Success?
            && forall i :: 0 <= i < |values| ==>
                 lines.value[1 + i] == "  " + ToEnumKey(values[i].value) + " = '" + values[i].value + "'"
                                       + (if i < |values| - 1 then "," else "")
  {
    var values := st.restriction.value.enumeration.value;
    EnumFrame(st);
    var members := EnumMemberLines(st.name, values).value;
    var lines := SimpleTypeLines(st).value;
    forall i | 0 <= i < |values|
      ensures lines[1 + i] == "  " + ToEnumKey(values[i].value) + " = '" + values[i].value + "'"
                              + (if i < |values| - 1 then "," else "")
    {
      assert lines[1 + i] == lines[1..|lines| - 1][i];
      EnumMemberFormat(values[i].value, i, |values|);
    }
  }

  /** Two characters `toEnumKey` cannot tell apart: letters or digits equal
      up to case, or two characters outside `[a-zA-Z0-9]`. */
  predicate SameKeyChar(a: char, b: char) {
    || (IsAsciiAlnum(a) && IsAsciiAlnum(b) && UpperChar(a) == UpperChar(b))
    || (!IsAsciiAlnum(a) && !IsAsciiAlnum(b))
  }

  /** Keys collide: values that differ only in letter case, or in which
      punctuation they use, get the same enum key (`a-b` and `A_B` both give
      `A_B`). */
  lemma EnumKeysCanCollide(a: string, b: string)
    requires |a| == |b|
    requires forall i :: 0 <= i < |a| ==> SameKeyChar(a[i], b[i])
    ensures ToEnumKey(a) == ToEnumKey(b)
  {
    if a != [] {
      SameKeyCharDigit(a[0], b[0]);
    }
    var ka := ToEnumKey(a);
    var kb := ToEnumKey(b);
    var offset := if StartsWithDigit(a) then 1 else 0;
    forall j | offset <= j < |ka|
      ensures ka[j] == kb[j]
    {
      var i := j - offset;
      assert ka[i + offset] == EnumKeyChar(a[i]);
      assert kb[i + offset] == EnumKeyChar(b[i]);
      SameKeyCharKey(a[i], b[i]);
    }
  }

  lemma SameKeyCharDigit(a: char, b: char)
    requires SameKeyChar(a, b)
    ensures IsAsciiDigit(a) <==> IsAsciiDigit(b)
  {
  }

  lemma SameKeyCharKey(a: char, b: char)
    requires SameKeyChar(a, b)
    ensures EnumKeyChar(a) == EnumKeyChar(b)
  {
  }

  // ----- facet comments --------------------------------------------------------

  /** A restriction without an enumeration and with facets renders as the
      facet lines joined into one comment line, then the alias, provided the
      last facet line does not end in white space (`trim` would remove it). */
  lemma AliasCommentListsFacets(st: SimpleType)
    requires st.restriction.Some? && st.restriction.value.enumeration.None?
    requires var lines := FacetLines(st.restriction.value);
             lines != [] && !IsJsSpace(lines[|lines| - 1][|lines[|lines| - 1]| - 1])
    ensures SimpleTypeLines(st).Success?
    ensures SimpleTypeLines(st).value
         == [Join(FacetLines(st.restriction.value), "\n"),
             "export type " + PascalName(st.name) + " = " + MapXmlType(st.restriction.value.base) + ";"]
  {
    var r := st.restriction.value;
    var lines := FacetLines(r);
    var j := Join(lines, "\n");
    assert RestrictionComment(r) != [] && Trim(RestrictionComment(r)) == j by {
      CommentTerminatesFacetLines(r);
      TerminatedIsJoin(lines, "\n");
      JoinEnds(lines, "\n");
      TrimTerminatedLine(j);
    }
    var out := SimpleTypeLines(st).value;
    assert out == [out[0], out[1]];
  }

  /** Without facets there is no comment line: the alias stands alone. */
  lemma AliasWithoutFacets(st: SimpleType)
    requires st.restriction.Some? && st.restriction.value.enumeration.None?
    requires FacetLines(st.restriction.value) == []
    ensures SimpleTypeLines(st)
         == Success(["export type " + PascalName(st.name) + " = " + MapXmlType(st.restriction.value.base) + ";"])
  {
    CommentTerminatesFacetLines(st.restriction.value);
    var out := SimpleTypeLines(st).value;
    assert out == [out[0]];
  }

  // ----- port types ------------------------------------------------------------

  /** The method line of an operation: the camel-cased name, the request
      type after `request: `, the response type inside `Promise<...>`. The
      request is the input message's Pascal name and the response the
      output's, each `void` when that message is absent. */
  lemma OperationSignature(op: Operation)
    ensures var name := CamelName(op.name);
            var request := MessageTypeName(op.input);
            var response := MessageTypeName(op.output);
            var line := OperationLine(op);
            var at := 12 + |name|;
            && |line| == at + |request| + 11 + |response| + 2
            && line[..at] == "  " + name + "(request: "
            && line[at..at + |request|] == request
            && line[at + |request|..at + |request| + 11] == "): Promise<"
            && line[at + |request| + 11..|line| - 2] == response
            && line[|line| - 2..] == ">;"
  {
    var name := CamelName(op.name);
    var request := MessageTypeName(op.input);
    var response := MessageTypeName(op.output);
    var head := "  " + name + "(request: ";
    assert OperationLine(op) == head + request + "): Promise<" + response + ">;";
    FiveSlices(head, request, "): Promise<", response, ">;");
  }

  // ----- the header ------------------------------------------------------------

  /** The output depends on the clock only through header line 2. */
  lemma TimestampOnlyInSecondLine(w: Wsdl, options: Options, t1: string, t2: string)
    requires GenerateLines(w, options, t1).Success?
    ensures GenerateLines(w, options, t2).Success?
    ensures var l1 := GenerateLines(w, options, t1).value;
            var l2 := GenerateLines(w, options, t2).value;
            |l1| == |l2| && forall i :: 0 <= i < |l1| && i != 1 ==> l1[i] == l2[i]
  {
    var blocks := SimpleTypeBlocks(w.simpleTypes).value;
    var body := Body(w, options, blocks);
    assert GenerateLines(w, options, t1).value == Header(t1) + body;
    assert GenerateLines(w, options, t2).value == Header(t2) + body;
  }
}
