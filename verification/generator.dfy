/** The declaration generator: the renderers for simple types, complex
    types, elements, messages and port types, and `generateTypes`, which
    lays their blocks out in sections under a two-line header. */
module Generator {
  import opened Wrappers
  import opened Seqs
  import opened JsText
  import opened Prefixes
  import opened Names
  import opened TypeMapper
  import opened WsdlModel

  /** The one generator option that changes the output. */
  datatype Options = Options(includeOperations: bool)

  /** Generation throws only when `toEnumKey` is handed `undefined`: an
      enumeration facet without a `value`. The error names the simple type. */
  datatype GenError = UndefinedEnumValue(simpleType: Option<string>)

  /** `toPascalCase(name)`; an absent name is falsy and gives `""`. */
  function PascalName(name: Option<string>): string {
    ToPascalCase(name.GetOr(""))
  }

  /** `toCamelCase(name)`; an absent name gives `""`. */
  function CamelName(name: Option<string>): string {
    ToCamelCase(name.GetOr(""))
  }

  // ----- simple types ----------------------------------------------------------

  function EnumMemberLine(value: string, last: bool): string {
    "  " + ToEnumKey(value) + " = '" + value + "'" + (if last then "" else ",")
  }

  predicate AllDefined(values: seq<Option<string>>) {
    forall i :: 0 <= i < |values| ==> values[i].Some?
  }

  /** One member line per enumeration value, in order, each but the last
      followed by a comma; the first undefined value aborts. */
  function EnumMemberLines(typeName: Option<string>, values: seq<Option<string>>): (r: Result<seq<string>, GenError>)
    ensures r.Failure? <==> !AllDefined(values)
    ensures r.Failure? ==> r.error == UndefinedEnumValue(typeName)
    ensures r.Success? ==>
              && |r.value| == |values|
              && forall i :: 0 <= i < |values| ==> r.value[i] == EnumMemberLine(values[i].value, i == |values| - 1)
  {
    if values == [] then Success([])
    else
      match values[0]
      case None => Failure(UndefinedEnumValue(typeName))
      case Some(v) =>
        var rest :- EnumMemberLines(typeName, values[1..]);
        Success([EnumMemberLine(v, |values| == 1)] + rest)
  }

  /** The facet comment: a `// Pattern:` line for a non-empty pattern, then
      `// Min length:` and `// Max length:` lines for the facets present. */
  function RestrictionComment(r: Restriction): string {
    (if r.pattern.Some? && r.pattern.value != [] then "// Pattern: " + r.pattern.value + "\n" else "")
    + (if r.minLength.Some? then "// Min length: " + NumberText(r.minLength.value) + "\n" else "")
    + (if r.maxLength.Some? then "// Max length: " + NumberText(r.maxLength.value) + "\n" else "")
  }

  /** The facet comment as a list of lines without their line breaks. */
  function FacetLines(r: Restriction): (lines: seq<string>)
    ensures forall i :: 0 <= i < |lines| ==> |lines[i]| > 3 && lines[i][0] == '/'
  {
    (if r.pattern.Some? && r.pattern.value != [] then ["// Pattern: " + r.pattern.value] else [])
    + (if r.minLength.Some? then ["// Min length: " + NumberText(r.minLength.value)] else [])
    + (if r.maxLength.Some? then ["// Max length: " + NumberText(r.maxLength.value)] else [])
  }

  /** The comment is the facet lines, each followed by a line break. */
  lemma CommentTerminatesFacetLines(r: Restriction)
    ensures RestrictionComment(r) == Terminated(FacetLines(r), "\n")
  {
    var p := if r.pattern.Some? && r.pattern.value != [] then ["// Pattern: " + r.pattern.value] else [];
    var lo := if r.minLength.Some? then ["// Min length: " + NumberText(r.minLength.value)] else [];
    var hi := if r.maxLength.Some? then ["// Max length: " + NumberText(r.maxLength.value)] else [];
    var pattern := if r.pattern.Some? && r.pattern.value != [] then "// Pattern: " + r.pattern.value + "\n" else "";
    var min := if r.minLength.Some? then "// Min length: " + NumberText(r.minLength.value) + "\n" else "";
    var max := if r.maxLength.Some? then "// Max length: " + NumberText(r.maxLength.value) + "\n" else "";
    assert Terminated(p, "\n") == pattern by {
      if p != [] { TerminatedSingle(p[0], "\n"); }
    }
    assert Terminated(lo, "\n") == min by {
      if lo != [] { TerminatedSingle(lo[0], "\n"); }
    }
    assert Terminated(hi, "\n") == max by {
      if hi != [] { TerminatedSingle(hi[0], "\n"); }
    }
    TerminatedAppend(p + lo, hi, "\n");
    TerminatedAppend(p, lo, "\n");
    assert FacetLines(r) == p + lo + hi;
    assert RestrictionComment(r) == pattern + min + max;
  }

  predicate HasUndefinedEnumValue(st: SimpleType) {
    st.restriction.Some? && st.restriction.value.enumeration.Some?
    && !AllDefined(st.restriction.value.enumeration.value)
  }

  /** `generateSimpleType`: an enum for an enumeration, an alias of the
      mapped base type (after the trimmed facet comment, if any) for another
      restriction, and an alias of `any` without one. */
  function SimpleTypeLines(st: SimpleType): (r: Result<seq<string>, GenError>)
    ensures r.Failure? <==> HasUndefinedEnumValue(st)
    ensures r.Success? && st.restriction.Some? && st.restriction.value.enumeration.Some? ==>
              && |r.value| == |st.restriction.value.enumeration.value| + 2
              && r.value[0] == "export enum " + PascalName(st.name) + " {"
              && r.value[|r.value| - 1] == "}"
    ensures r.Success? && st.restriction.None? ==> |r.value| == 1
    ensures r.Success? && st.restriction.Some? && st.restriction.value.enumeration.None? ==>
              var comment := RestrictionComment(st.restriction.value);
              && (|r.value| == 2 <==> comment != [])
              && (comment != [] ==> r.value[0] == Trim(comment))
    ensures r.Success? && (st.restriction.None? || st.restriction.value.enumeration.None?) ==>
              && 1 <= |r.value| <= 2
              && r.value[|r.value| - 1] == "export type " + PascalName(st.name) + " = "
                   + (if st.restriction.None? then "any" else MapXmlType(st.restriction.value.base)) + ";"
  {
    var name := PascalName(st.name);
    match st.restriction
    case None => Success(["export type " + name + " = any;"])
    case Some(restriction) =>
      if restriction.enumeration.Some? then
        var members :- EnumMemberLines(st.name, restriction.enumeration.value);
        Success(["export enum " + name + " {"] + members + ["}"])
      else
        var comment := RestrictionComment(restriction);
        var alias := "export type " + name + " = " + MapXmlType(restriction.base) + ";";
        Success((if comment != [] then [Trim(comment)] else []) + [alias])
  }

  // ----- element and attribute fields -------------------------------------

  /** `maxOccurs === 'unbounded' || (maxOccurs && parseInt(maxOccurs) > 1)`;
      `NaN > 1` is false. */
  predicate IsArrayOccurs(maxOccurs: Option<string>) {
    match maxOccurs
    case None => false
    case Some(m) => m == "unbounded" || (m != [] && ParseInt(m).Num? && ParseInt(m).value > 1)
  }

  /** `minOccurs === '0' || nillable`. */
  predicate IsOptional(e: Element) {
    e.minOccurs == Some("0") || e.nillable
  }

  /** The property type of an element: the mapped type, then `[]` for an
      array, then ` | null` for a nillable element. */
  function FieldType(e: Element): string {
    var baseType := MapXmlType(e.typeName);
    var arrayed := if IsArrayOccurs(e.maxOccurs) then baseType + "[]" else baseType;
    if e.nillable then arrayed + " | null" else arrayed
  }

  function OptionalMarker(optional: bool): string {
    if optional then "?" else ""
  }

  function ElementFieldLine(e: Element): string {
    "  " + CamelName(e.name) + OptionalMarker(IsOptional(e)) + ": " + FieldType(e) + ";"
  }

  /** An attribute field: optional unless `use` is `required`, never an
      array, never nullable. */
  function AttributeFieldLine(a: Attribute): string {
    "  " + CamelName(a.name) + OptionalMarker(a.use != Some("required")) + ": " + MapXmlType(a.typeName) + ";"
  }

  function AttributeFieldLines(attributes: Option<seq<Attribute>>): seq<string> {
    match attributes
    case None => []
    case Some(list) => Map(AttributeFieldLine, list)
  }

  /** `generateComplexType`: a SOAP-encoded array becomes an array alias of
      its mapped item type; anything else an interface with one field per
      element and then one per attribute. */
  function ComplexTypeLines(ct: ComplexType): (r: seq<string>)
    ensures ct.soapArrayType.Some? && ct.soapArrayType.value != [] ==>
              r == ["export type " + PascalName(ct.name) + " = " + MapXmlType(ct.soapArrayType.value) + "[];"]
    ensures !(ct.soapArrayType.Some? && ct.soapArrayType.value != []) ==>
              var attributes := AttributeFieldLines(ct.attributes);
              && |r| == |ct.elements| + |attributes| + 2
              && r[0] == "export interface " + PascalName(ct.name) + " {"
              && r[1..1 + |ct.elements|] == Map(ElementFieldLine, ct.elements)
              && r[1 + |ct.elements|..|r| - 1] == attributes
              && r[|r| - 1] == "}"
  {
    var name := PascalName(ct.name);
    if ct.soapArrayType.Some? && ct.soapArrayType.value != [] then
      ["export type " + name + " = " + MapXmlType(ct.soapArrayType.value) + "[];"]
    else
      var first := "export interface " + name + " {";
      var fields := Map(ElementFieldLine, ct.elements);
      var attributes := AttributeFieldLines(ct.attributes);
      FrameSlices(first, fields, attributes, "}");
      [first] + fields + attributes + ["}"]
  }

  /** `generateElementType`: an alias whose type follows the same array and
      null rule as a field, written out again as the source does. */
  function ElementTypeLines(e: Element): (r: seq<string>)
    ensures |r| == 1
  {
    var baseType := MapXmlType(e.typeName);
    var isArray := e.maxOccurs == Some("unbounded")
      || (e.maxOccurs.Some? && e.maxOccurs.value != [] && ParseInt(e.maxOccurs.value).Num? && ParseInt(e.maxOccurs.value).value > 1);
    var finalType := (if isArray then baseType + "[]" else baseType) + (if e.nillable then " | null" else "");
    ["export type " + PascalName(e.name) + " = " + finalType + ";"]
  }

  // ----- messages ------------------------------------------------------------

  /** The index of the first element named exactly `name`, as `find` scans. */
  function FindElement(elements: seq<Element>, name: string): (r: Option<nat>)
    ensures r.None? <==> forall i :: 0 <= i < |elements| ==> elements[i].name != Some(name)
    ensures r.Some? ==> r.value < |elements| && elements[r.value].name == Some(name)
    ensures r.Some? ==> forall i :: 0 <= i < r.value ==> elements[i].name != Some(name)
  {
    if elements == [] then None
    else if elements[0].name == Some(name) then Some(0)
    else
      match FindElement(elements[1..], name)
      case None => None
      case Some(k) => Some(k + 1)
  }

  /** The type of a message part: a non-empty `element` reference is
      stripped and resolved against the extracted elements, falling back to
      its Pascal-cased name; otherwise a non-empty `type` is mapped; otherwise
      `any`. */
  function PartType(p: Part, elements: seq<Element>): (r: string)
    ensures p.element.Some? && p.element.value != [] ==>
              var ref := CleanTypeName(p.element.value);
              match FindElement(elements, ref)
              case Some(k) => r == MapXmlType(elements[k].typeName)
              case None => r == ToPascalCase(ref)
    ensures !(p.element.Some? && p.element.value != []) ==>
              r == if p.typeName.Some? && p.typeName.value != [] then MapXmlType(p.typeName.value) else "any"
  {
    if p.element.Some? && p.element.value != [] then
      var ref := CleanTypeName(p.element.value);
      match FindElement(elements, ref)
      case Some(k) => MapXmlType(elements[k].typeName)
      case None => ToPascalCase(ref)
    else if p.typeName.Some? && p.typeName.value != [] then MapXmlType(p.typeName.value)
    else "any"
  }

  /** A part field; message fields are never optional. */
  function PartFieldLine(p: Part, elements: seq<Element>): string {
    "  " + CamelName(p.name) + ": " + PartType(p, elements) + ";"
  }

  function PartFieldLines(parts: seq<Part>, elements: seq<Element>): (r: seq<string>)
    ensures |r| == |parts|
    ensures forall i :: 0 <= i < |parts| ==> r[i] == PartFieldLine(parts[i], elements)
  {
    Map((p: Part) => PartFieldLine(p, elements), parts)
  }

  function MessageTypeLines(m: Message, elements: seq<Element>): (r: seq<string>)
    ensures |r| == |m.parts| + 2
    ensures r[0] == "export interface " + PascalName(m.name) + " {"
    ensures forall i :: 0 <= i < |m.parts| ==> r[1 + i] == PartFieldLine(m.parts[i], elements)
    ensures r[|r| - 1] == "}"
  {
    ["export interface " + PascalName(m.name) + " {"] + PartFieldLines(m.parts, elements) + ["}"]
  }

  // ----- port types ----------------------------------------------------------

  /** The request or response type of an operation: the Pascal-cased
      message name, or `void` without one. */
  function MessageTypeName(message: Option<string>): (r: string)
    ensures r == "void" <==> message.None?
    ensures message.Some? ==> r == ToPascalCase(message.value)
  {
    match message
    case Some(name) => ToPascalCase(name)
    case None => "void"
  }

  function OperationLine(op: Operation): string {
    "  " + CamelName(op.name) + "(request: " + MessageTypeName(op.input) + "): Promise<"
      + MessageTypeName(op.output) + ">;"
  }

  function PortTypeLines(pt: PortType): (r: seq<string>)
    ensures |r| == |pt.operations| + 2
    ensures r[0] == "export interface I" + PascalName(pt.name) + " {"
    ensures forall i :: 0 <= i < |pt.operations| ==> r[1 + i] == OperationLine(pt.operations[i])
    ensures r[|r| - 1] == "}"
  {
    FrameIndices("export interface I" + PascalName(pt.name) + " {", Map(OperationLine, pt.operations), "}");
    ["export interface I" + PascalName(pt.name) + " {"] + Map(OperationLine, pt.operations) + ["}"]
  }

  // ----- generateTypes ---------------------------------------------------------

  const SimpleHeading: string := "// Simple Types"
  const ComplexHeading: string := "// Complex Types"
  const ElementHeading: string := "// Element Types"
  const MessageHeading: string := "// Message Types"
  const OperationHeading: string := "// Service Operations"

  /** The header; `timestamp` stands for `new Date().toISOString()`. */
  function Header(timestamp: string): seq<string> {
    ["// Generated TypeScript types from WSDL", "// Generated on: " + timestamp, ""]
  }

  /** Each block followed by a blank line. */
  function Blocks(blocks: seq<seq<string>>): seq<string> {
    if blocks == [] then [] else blocks[0] + [""] + Blocks(blocks[1..])
  }

  /** A section: omitted when it has no blocks, otherwise its heading and
      its blocks. */
  function Section(heading: string, blocks: seq<seq<string>>): seq<string> {
    if blocks == [] then [] else [heading] + Blocks(blocks)
  }

  /** The simple-type blocks, in order; the first failing one aborts. */
  function SimpleTypeBlocks(simpleTypes: seq<SimpleType>): (r: Result<seq<seq<string>>, GenError>)
    ensures r.Failure? <==> exists i :: 0 <= i < |simpleTypes| && HasUndefinedEnumValue(simpleTypes[i])
    ensures r.Success? ==>
              && |r.value| == |simpleTypes|
              && forall i :: 0 <= i < |simpleTypes| ==> SimpleTypeLines(simpleTypes[i]) == Success(r.value[i])
  {
    if simpleTypes == [] then Success([])
    else
      var first :- SimpleTypeLines(simpleTypes[0]);
      var rest :- SimpleTypeBlocks(simpleTypes[1..]);
      Success([first] + rest)
  }

  /** Everything after the header, given the rendered simple types. */
  function Body(w: Wsdl, options: Options, simpleBlocks: seq<seq<string>>): seq<string> {
    Section(SimpleHeading, simpleBlocks)
    + Section(ComplexHeading, Map(ComplexTypeLines, w.complexTypes))
    + Section(ElementHeading, Map(ElementTypeLines, w.elements))
    + Section(MessageHeading, Map((m: Message) => MessageTypeLines(m, w.elements), w.messages))
    + (if options.includeOperations then Section(OperationHeading, Map(PortTypeLines, w.portTypes)) else [])
  }

  /** The lines of `generateTypes`, before they are joined. */
  function GenerateLines(w: Wsdl, options: Options, timestamp: string): (r: Result<seq<string>, GenError>)
    ensures r.Failure? <==> exists i :: 0 <= i < |w.simpleTypes| && HasUndefinedEnumValue(w.simpleTypes[i])
    ensures r.Success? ==>
              && |r.value| >= 3
              && r.value[0] == "// Generated TypeScript types from WSDL"
              && r.value[1] == "// Generated on: " + timestamp
              && r.value[2] == ""
  {
    var simpleBlocks :- SimpleTypeBlocks(w.simpleTypes);
    Success(Header(timestamp) + Body(w, options, simpleBlocks))
  }

  /** `generateTypes`: the lines joined with newlines. */
  function GenerateTypes(w: Wsdl, options: Options, timestamp: string): (r: Result<string, GenError>)
    ensures r.Failure? <==> exists i :: 0 <= i < |w.simpleTypes| && HasUndefinedEnumValue(w.simpleTypes[i])
  {
    var lines :- GenerateLines(w, options, timestamp);
    Success(Join(lines, "\n"))
  }
}
