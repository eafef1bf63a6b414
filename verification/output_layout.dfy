/** The layout of `generateTypes`: read off only its blank lines and
    section headings, the output is one blank line after the header and
    then, for every non-empty section in the fixed order simple, complex,
    element, message, operations, its heading followed by one blank line
    per block. */
module OutputLayout {
  import opened Wrappers
  import opened Seqs
  import opened JsText
  import opened WsdlModel
  import opened TypeMapper
  import opened Generator
  import BlockLayout

  const Headings: set<string> := {SimpleHeading, ComplexHeading, ElementHeading, MessageHeading, OperationHeading}

  /** A line that marks the layout: blank, or a section heading. */
  predicate IsMarker(l: string) {
    l == [] || l in Headings
  }

  /** A rendered declaration line: code, or a facet comment. */
  predicate PlainLine(l: string) {
    l != [] && (l[0] != '/' || (|l| >= 5 && l[3..5] in {"Pa", "Mi", "Ma"}))
  }

  predicate AllPlain(lines: seq<string>) {
    forall j :: 0 <= j < |lines| ==> PlainLine(lines[j])
  }

  predicate AllBlocksPlain(blocks: seq<seq<string>>) {
    forall i :: 0 <= i < |blocks| ==> AllPlain(blocks[i])
  }

  /** The markers a section contributes. */
  function SectionMarkers(heading: string, blocks: nat): seq<string> {
    if blocks == 0 then [] else [heading] + Repeat("", blocks)
  }

  /** The markers of the whole output, from the model's shape alone. */
  function ExpectedMarkers(w: Wsdl, options: Options): seq<string> {
    [""] + BodyMarkers(w, options)
  }

  function BodyMarkers(w: Wsdl, options: Options): seq<string> {
    SectionMarkers(SimpleHeading, |w.simpleTypes|)
    + SectionMarkers(ComplexHeading, |w.complexTypes|)
    + SectionMarkers(ElementHeading, |w.elements|)
    + SectionMarkers(MessageHeading, |w.messages|)
    + (if options.includeOperations then SectionMarkers(OperationHeading, |w.portTypes|) else [])
  }

  /** A line whose fourth and fifth characters differ from every
      heading's is not a marker. */
  lemma NotMarker(l: string)
    requires |l| >= 5 && l[3..5] !in {"Si", "Co", "El", "Me", "Se"}
    ensures !IsMarker(l)
  {
    assert SimpleHeading[3..5] == "Si";
    assert ComplexHeading[3..5] == "Co";
    assert ElementHeading[3..5] == "El";
    assert MessageHeading[3..5] == "Me";
    assert OperationHeading[3..5] == "Se";
  }

  lemma PlainIsNotMarker(l: string)
    requires PlainLine(l)
    ensures !IsMarker(l)
  {
    if l[0] == '/' {
      NotMarker(l);
    }
  }

  lemma PlainHasNoMarkers(lines: seq<string>)
    requires AllPlain(lines)
    ensures Filter(IsMarker, lines) == []
  {
    forall j | 0 <= j < |lines|
      ensures !IsMarker(lines[j])
    {
      PlainIsNotMarker(lines[j]);
    }
    FilterNone(IsMarker, lines);
  }

  lemma {:induction false} BlocksMarkers(blocks: seq<seq<string>>)
    requires AllBlocksPlain(blocks)
    ensures Filter(IsMarker, Blocks(blocks)) == Repeat("", |blocks|)
  {
    if blocks != [] {
      var rest := Blocks(blocks[1..]);
      PlainHasNoMarkers(blocks[0]);
      BlocksMarkers(blocks[1..]);
      FilterAppend(IsMarker, blocks[0] + [""], rest);
      FilterAppend(IsMarker, blocks[0], [""]);
    }
  }

  lemma SectionHasItsMarkers(heading: string, blocks: seq<seq<string>>)
    requires heading in Headings
    requires AllBlocksPlain(blocks)
    ensures Filter(IsMarker, Section(heading, blocks)) == SectionMarkers(heading, |blocks|)
  {
    if blocks != [] {
      BlocksMarkers(blocks);
      FilterAppend(IsMarker, [heading], Blocks(blocks));
    }
  }

  // ----- every renderer emits plain lines -----------------------------------

  lemma PlainAppend(a: seq<string>, b: seq<string>)
    requires AllPlain(a) && AllPlain(b)
    ensures AllPlain(a + b)
  {
  }

  /** A block framed by an opening line and `}`. */
  lemma FramedIsPlain(first: string, middle: seq<string>)
    requires PlainLine(first) && AllPlain(middle)
    ensures AllPlain([first] + middle + ["}"])
  {
    PlainAppend([first], middle);
    PlainAppend([first] + middle, ["}"]);
  }

  lemma ElementFieldIsPlain(e: Element)
    ensures PlainLine(ElementFieldLine(e))
  {
    assert ElementFieldLine(e)[0] == ' ';
  }

  lemma AttributeFieldIsPlain(a: Attribute)
    ensures PlainLine(AttributeFieldLine(a))
  {
    assert AttributeFieldLine(a)[0] == ' ';
  }

  lemma ElementFieldsArePlain(elements: seq<Element>)
    ensures AllPlain(Map(ElementFieldLine, elements))
  {
    forall i | 0 <= i < |elements|
      ensures PlainLine(ElementFieldLine(elements[i]))
    {
      ElementFieldIsPlain(elements[i]);
    }
  }

  lemma AttributeFieldsArePlain(attributes: Option<seq<Attribute>>)
    ensures AllPlain(AttributeFieldLines(attributes))
  {
    if attributes.Some? {
      forall k | 0 <= k < |attributes.value|
        ensures PlainLine(AttributeFieldLine(attributes.value[k]))
      {
        AttributeFieldIsPlain(attributes.value[k]);
      }
    }
  }

  lemma ComplexTypeIsPlain(ct: ComplexType)
    ensures AllPlain(ComplexTypeLines(ct))
  {
    if !(ct.soapArrayType.Some? && ct.soapArrayType.value != []) {
      var first := "export interface " + PascalName(ct.name) + " {";
      var fields := Map(ElementFieldLine, ct.elements);
      var attributes := AttributeFieldLines(ct.attributes);
      assert ComplexTypeLines(ct) == [first] + fields + attributes + ["}"];
      ElementFieldsArePlain(ct.elements);
      AttributeFieldsArePlain(ct.attributes);
      assert PlainLine(first);
      PlainAppend([first], fields);
      PlainAppend([first] + fields, attributes);
      PlainAppend([first] + fields + attributes, ["}"]);
    }
  }

  lemma ElementTypeIsPlain(e: Element)
    ensures AllPlain(ElementTypeLines(e))
  {
  }

  lemma MessageTypeIsPlain(m: Message, elements: seq<Element>)
    ensures AllPlain(MessageTypeLines(m, elements))
  {
    var fields := PartFieldLines(m.parts, elements);
    forall i | 0 <= i < |m.parts|
      ensures PlainLine(fields[i])
    {
      assert fields[i][0] == ' ';
    }
    FramedIsPlain("export interface " + PascalName(m.name) + " {", fields);
  }

  lemma PortTypeIsPlain(pt: PortType)
    ensures AllPlain(PortTypeLines(pt))
  {
    var operations := Map(OperationLine, pt.operations);
    forall i | 0 <= i < |pt.operations|
      ensures PlainLine(operations[i])
    {
      assert operations[i][0] == ' ';
    }
    FramedIsPlain("export interface I" + PascalName(pt.name) + " {", operations);
  }

  lemma LeadOfAppend(a: string, b: string)
    requires |a| >= 5
    ensures (a + b)[..5] == a[..5]
  {
  }

  /** A facet comment line starts with its label. */
  lemma FacetLineLead(head: string, text: string)
    requires head in {"// Pattern: ", "// Min length: ", "// Max length: "}
    ensures var line := head + text + "\n";
            |line| >= 5 && line[..5] in FacetLeads
  {
    LeadOfAppend(head, text);
    LeadOfAppend(head + text, "\n");
    assert "// Pattern: "[..5] == "// Pa";
    assert "// Min length: "[..5] == "// Mi";
    assert "// Max length: "[..5] == "// Ma";
  }

  const FacetLeads: set<string> := {"// Pa", "// Mi", "// Ma"}

  lemma FacetLeadIsPlain(lead: string)
    requires lead in FacetLeads
    ensures lead[0] == '/' && !IsJsSpace(lead[4]) && lead[3..5] in {"Pa", "Mi", "Ma"}
  {
    assert "// Pa"[3..5] == "Pa";
    assert "// Mi"[3..5] == "Mi";
    assert "// Ma"[3..5] == "Ma";
  }

  /** A non-empty facet comment starts with the label of its first line. */
  lemma CommentLead(r: Restriction)
    requires RestrictionComment(r) != []
    ensures |RestrictionComment(r)| >= 5 && RestrictionComment(r)[..5] in FacetLeads
  {
    var pattern := if r.pattern.Some? && r.pattern.value != [] then "// Pattern: " + r.pattern.value + "\n" else "";
    var minLength := if r.minLength.Some? then "// Min length: " + NumberText(r.minLength.value) + "\n" else "";
    var maxLength := if r.maxLength.Some? then "// Max length: " + NumberText(r.maxLength.value) + "\n" else "";
    assert RestrictionComment(r) == pattern + minLength + maxLength;
    if pattern != [] {
      FacetLineLead("// Pattern: ", r.pattern.value);
      LeadOfAppend(pattern, minLength);
      LeadOfAppend(pattern + minLength, maxLength);
    } else if minLength != [] {
      FacetLineLead("// Min length: ", NumberText(r.minLength.value));
      assert pattern + minLength == minLength;
      LeadOfAppend(minLength, maxLength);
    } else {
      FacetLineLead("// Max length: ", NumberText(r.maxLength.value));
      assert pattern + minLength + maxLength == maxLength;
    }
  }

  /** The trimmed facet comment keeps that label. */
  lemma CommentIsPlain(r: Restriction)
    requires RestrictionComment(r) != []
    ensures PlainLine(Trim(RestrictionComment(r)))
  {
    var comment := RestrictionComment(r);
    CommentLead(r);
    var lead := comment[..5];
    FacetLeadIsPlain(lead);
    TrimKeepsPrefix(comment, lead);
    var t := Trim(comment);
    assert t[..5] == lead;
    assert t[3..5] == lead[3..5];
  }

  lemma EnumMembersArePlain(typeName: Option<string>, values: seq<Option<string>>)
    requires EnumMemberLines(typeName, values).Success?
    ensures AllPlain(EnumMemberLines(typeName, values).value)
  {
    var lines := EnumMemberLines(typeName, values).value;
    forall i | 0 <= i < |lines|
      ensures PlainLine(lines[i])
    {
      assert lines[i] == EnumMemberLine(values[i].value, i == |values| - 1);
      assert lines[i][0] == ' ';
    }
  }

  lemma SimpleTypeIsPlain(st: SimpleType)
    requires SimpleTypeLines(st).Success?
    ensures AllPlain(SimpleTypeLines(st).value)
  {
    match st.restriction
    case None =>
    case Some(restriction) =>
      if restriction.enumeration.Some? {
        var members := EnumMemberLines(st.name, restriction.enumeration.value).value;
        EnumMembersArePlain(st.name, restriction.enumeration.value);
        FramedIsPlain("export enum " + PascalName(st.name) + " {", members);
      } else {
        var comment := RestrictionComment(restriction);
        var alias := "export type " + PascalName(st.name) + " = " + MapXmlType(restriction.base) + ";";
        assert PlainLine(alias);
        if comment != [] {
          CommentIsPlain(restriction);
          PlainAppend([Trim(comment)], [alias]);
        }
      }
  }

  // ----- the whole output ------------------------------------------------------

  lemma HeaderMarkers(timestamp: string)
    ensures Filter(IsMarker, Header(timestamp)) == [""]
  {
    var first := "// Generated TypeScript types from WSDL";
    var second := "// Generated on: " + timestamp;
    assert first[3] == 'G' && first[4] == 'e';
    assert first[3..5] == "Ge";
    assert second[3..5] == "Ge";
    NotMarker(first);
    NotMarker(second);
    assert Header(timestamp) == [first, second] + [""];
    FilterNone(IsMarker, [first, second]);
    FilterAppend(IsMarker, [first, second], [""]);
  }

  lemma SimpleBlocksArePlain(simpleTypes: seq<SimpleType>)
    requires SimpleTypeBlocks(simpleTypes).Success?
    ensures AllBlocksPlain(SimpleTypeBlocks(simpleTypes).value)
  {
    var blocks := SimpleTypeBlocks(simpleTypes).value;
    forall i | 0 <= i < |blocks|
      ensures AllPlain(blocks[i])
    {
      SimpleTypeIsPlain(simpleTypes[i]);
    }
  }

  lemma RenderedBlocksArePlain(w: Wsdl)
    ensures AllBlocksPlain(Map(ComplexTypeLines, w.complexTypes))
    ensures AllBlocksPlain(Map(ElementTypeLines, w.elements))
    ensures AllBlocksPlain(Map((m: Message) => MessageTypeLines(m, w.elements), w.messages))
    ensures AllBlocksPlain(Map(PortTypeLines, w.portTypes))
  {
    forall i | 0 <= i < |w.complexTypes|
      ensures AllPlain(ComplexTypeLines(w.complexTypes[i]))
    {
      ComplexTypeIsPlain(w.complexTypes[i]);
    }
    forall i | 0 <= i < |w.messages|
      ensures AllPlain(MessageTypeLines(w.messages[i], w.elements))
    {
      MessageTypeIsPlain(w.messages[i], w.elements);
    }
    forall i | 0 <= i < |w.portTypes|
      ensures AllPlain(PortTypeLines(w.portTypes[i]))
    {
      PortTypeIsPlain(w.portTypes[i]);
    }
  }

  lemma BodyHasItsMarkers(w: Wsdl, options: Options, simple: seq<seq<string>>)
    requires |simple| == |w.simpleTypes| && AllBlocksPlain(simple)
    ensures Filter(IsMarker, Body(w, options, simple)) == BodyMarkers(w, options)
  {
    RenderedBlocksArePlain(w);
    var s1 := Section(SimpleHeading, simple);
    var s2 := Section(ComplexHeading, Map(ComplexTypeLines, w.complexTypes));
    var s3 := Section(ElementHeading, Map(ElementTypeLines, w.elements));
    var s4 := Section(MessageHeading, Map((m: Message) => MessageTypeLines(m, w.elements), w.messages));
    var s5 := if options.includeOperations then Section(OperationHeading, Map(PortTypeLines, w.portTypes)) else [];
    SectionHasItsMarkers(SimpleHeading, simple);
    SectionHasItsMarkers(ComplexHeading, Map(ComplexTypeLines, w.complexTypes));
    SectionHasItsMarkers(ElementHeading, Map(ElementTypeLines, w.elements));
    SectionHasItsMarkers(MessageHeading, Map((m: Message) => MessageTypeLines(m, w.elements), w.messages));
    if options.includeOperations {
      SectionHasItsMarkers(OperationHeading, Map(PortTypeLines, w.portTypes));
    }
    assert Body(w, options, simple) == s1 + s2 + s3 + s4 + s5;
    FilterAppend(IsMarker, s1 + s2 + s3 + s4, s5);
    FilterAppend(IsMarker, s1 + s2 + s3, s4);
    FilterAppend(IsMarker, s1 + s2, s3);
    FilterAppend(IsMarker, s1, s2);
  }

  /** Sections come in the fixed order, empty ones are omitted, operations
      appear only on request, and every block is followed by a blank line. */
  lemma SectionLayout(w: Wsdl, options: Options, timestamp: string)
    requires GenerateLines(w, options, timestamp).Success?
    ensures Filter(IsMarker, GenerateLines(w, options, timestamp).value) == ExpectedMarkers(w, options)
  {
    var simple := SimpleTypeBlocks(w.simpleTypes).value;
    SimpleBlocksArePlain(w.simpleTypes);
    BodyHasItsMarkers(w, options, simple);
    HeaderMarkers(timestamp);
    assert GenerateLines(w, options, timestamp).value == Header(timestamp) + Body(w, options, simple);
    FilterAppend(IsMarker, Header(timestamp), Body(w, options, simple));
  }

  // ----- where each block lands ----------------------------------------------

  /** The heading of section `k`, in output order. */
  function SectionHeading(k: nat): string
    requires k < 5
  {
    if k == 0 then SimpleHeading
    else if k == 1 then ComplexHeading
    else if k == 2 then ElementHeading
    else if k == 3 then MessageHeading
    else OperationHeading
  }

  /** The blocks of section `k`: the rendered simple types, complex types,
      elements, messages, and the port types when operations are requested. */
  function SectionBlocks(w: Wsdl, options: Options, simple: seq<seq<string>>, k: nat): seq<seq<string>>
    requires k < 5
  {
    if k == 0 then simple
    else if k == 1 then Map(ComplexTypeLines, w.complexTypes)
    else if k == 2 then Map(ElementTypeLines, w.elements)
    else if k == 3 then Map((m: Message) => MessageTypeLines(m, w.elements), w.messages)
    else if options.includeOperations then Map(PortTypeLines, w.portTypes)
    else []
  }

  /** The five sections of the body, each possibly empty. */
  function Sections(w: Wsdl, options: Options, simple: seq<seq<string>>): seq<seq<string>> {
    [Section(SectionHeading(0), SectionBlocks(w, options, simple, 0)),
     Section(SectionHeading(1), SectionBlocks(w, options, simple, 1)),
     Section(SectionHeading(2), SectionBlocks(w, options, simple, 2)),
     Section(SectionHeading(3), SectionBlocks(w, options, simple, 3)),
     Section(SectionHeading(4), SectionBlocks(w, options, simple, 4))]
  }

  lemma SectionAt(w: Wsdl, options: Options, simple: seq<seq<string>>, k: nat)
    requires k < 5
    ensures Sections(w, options, simple)[k] == Section(SectionHeading(k), SectionBlocks(w, options, simple, k))
  {
  }

  lemma BodyIsSections(w: Wsdl, options: Options, simple: seq<seq<string>>)
    ensures Body(w, options, simple) == Flatten(Sections(w, options, simple))
  {
    var ss := Sections(w, options, simple);
    FlattenFive(ss[0], ss[1], ss[2], ss[3], ss[4]);
    assert ss == [ss[0], ss[1], ss[2], ss[3], ss[4]];
    assert Section(OperationHeading, []) == [];
  }

  /** The output is the header followed by the five sections and nothing
      else: it ends where the last non-empty section ends. */
  lemma OutputIsSections(w: Wsdl, options: Options, timestamp: string)
    requires GenerateLines(w, options, timestamp).Success?
    ensures GenerateLines(w, options, timestamp).value
            == Header(timestamp) + Flatten(Sections(w, options, SimpleTypeBlocks(w.simpleTypes).value))
  {
    var simple := SimpleTypeBlocks(w.simpleTypes).value;
    assert GenerateLines(w, options, timestamp).value == Header(timestamp) + Body(w, options, simple);
    BodyIsSections(w, options, simple);
  }

  /** In the output, section `k` starts with its heading right after the
      header and the earlier sections, and block `i` of it sits after the
      heading and the blocks before it, followed by a blank line. The blocks
      are the renderings of the model's declarations, in model order. */
  lemma BlockInOutput(w: Wsdl, options: Options, timestamp: string, k: nat, i: nat)
    requires GenerateLines(w, options, timestamp).Success?
    requires k < 5
    requires i < |SectionBlocks(w, options, SimpleTypeBlocks(w.simpleTypes).value, k)|
    ensures var simple := SimpleTypeBlocks(w.simpleTypes).value;
            var blocks := SectionBlocks(w, options, simple, k);
            FramedAt(GenerateLines(w, options, timestamp).value,
                     |Header(timestamp)| + |Flatten(Sections(w, options, simple)[..k])|,
                     SectionHeading(k), Blocks(blocks[..i]), blocks[i], "")
  {
    var out := GenerateLines(w, options, timestamp).value;
    var simple := SimpleTypeBlocks(w.simpleTypes).value;
    var blocks := SectionBlocks(w, options, simple, k);
    var ss := Sections(w, options, simple);
    OutputIsSections(w, options, timestamp);
    assert ss[k] == [SectionHeading(k)] + Blocks(blocks) by {
      SectionAt(w, options, simple, k);
    }
    BlockLayout.BlockInSections(out, Header(timestamp), ss, k, SectionHeading(k), blocks, i);
  }

  /** Block `i` of section `k` renders declaration `i` of its kind. */
  lemma SectionBlockRenders(w: Wsdl, options: Options, k: nat, i: nat)
    requires SimpleTypeBlocks(w.simpleTypes).Success?
    requires k < 5
    requires i < |SectionBlocks(w, options, SimpleTypeBlocks(w.simpleTypes).value, k)|
    ensures var blocks := SectionBlocks(w, options, SimpleTypeBlocks(w.simpleTypes).value, k);
            && (k == 0 ==> SimpleTypeLines(w.simpleTypes[i]) == Success(blocks[i]))
            && (k == 1 ==> blocks[i] == ComplexTypeLines(w.complexTypes[i]))
            && (k == 2 ==> blocks[i] == ElementTypeLines(w.elements[i]))
            && (k == 3 ==> blocks[i] == MessageTypeLines(w.messages[i], w.elements))
            && (k == 4 ==> options.includeOperations && blocks[i] == PortTypeLines(w.portTypes[i]))
  {
  }
}
