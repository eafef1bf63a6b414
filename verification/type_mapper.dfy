/** `mapXmlTypeToTypeScript`: the primitive type table, looked up by the
    lower-cased, prefix-stripped name, with a Pascal-cased custom name as
    the fallback. */
module TypeMapper {
  import opened JsText
  import opened Prefixes
  import opened Names

  /** The `typeMapping` table; its keys are lower-case XML Schema names. */
  const TypeTable: map<string, string> := map[
    "string" := "string",
    "int" := "number",
    "integer" := "number",
    "long" := "number",
    "short" := "number",
    "byte" := "number",
    "unsignedlong" := "number",
    "unsignedint" := "number",
    "unsignedshort" := "number",
    "unsignedbyte" := "number",
    "float" := "number",
    "double" := "number",
    "decimal" := "number",
    "boolean" := "boolean",
    "date" := "Date",
    "datetime" := "Date",
    "time" := "Date",
    "base64binary" := "string",
    "hexbinary" := "string",
    "anyuri" := "string",
    "qname" := "string",
    "anytype" := "any"]

  /** The TypeScript types the table can produce. */
  const PrimitiveTypes: set<string> := {"string", "number", "boolean", "Date", "any"}

  /** A name the fallback can produce: separator-free, not starting with a
      lower-case letter. */
  predicate IsPascalName(s: string) {
    NoSeparators(s) && (s == [] || !IsAsciiLower(s[0]))
  }

  function MapXmlType(xmlType: string): (r: string)
    ensures xmlType == [] ==> r == "any"
    ensures r in PrimitiveTypes || IsPascalName(r)
    ensures xmlType != [] && ToLowerAscii(CleanTypeName(xmlType)) !in TypeTable ==>
              r == ToPascalCase(CleanTypeName(xmlType))
  {
    if xmlType == [] then "any"
    else
      var clean := CleanTypeName(xmlType);
      var key := ToLowerAscii(clean);
      if key in TypeTable then TypeTable[key] else ToPascalCase(clean)
  }

  /** A name found in the table maps to the table's entry, whatever its
      letter case and namespace prefix. */
  lemma TableNameIgnoresCaseAndPrefix(prefix: string, name: string)
    requires name != [] && ':' !in name
    requires ToLowerAscii(name) in TypeTable
    ensures MapXmlType(prefix + ":" + name) == TypeTable[ToLowerAscii(name)]
    ensures MapXmlType(name) == TypeTable[ToLowerAscii(name)]
  {
    CleanPrefixedName(prefix, name);
  }

  /** A namespace prefix never changes the mapped type. */
  lemma PrefixIsIrrelevant(prefix: string, name: string)
    requires name != [] && ':' !in name
    ensures MapXmlType(prefix + ":" + name) == MapXmlType(name)
  {
    CleanPrefixedName(prefix, name);
  }

  /** Two names whose stripped, lower-cased forms are the same table key map
      to the same type. */
  lemma SameKeySameType(a: string, b: string)
    requires a != [] && b != []
    requires ToLowerAscii(CleanTypeName(a)) == ToLowerAscii(CleanTypeName(b))
    requires ToLowerAscii(CleanTypeName(a)) in TypeTable
    ensures MapXmlType(a) == MapXmlType(b)
  {
  }

  /** A custom single-word name only has its first letter capitalised. */
  lemma CustomWordIsCapitalized(w: string)
    requires w != [] && NoSeparators(w) && ':' !in w
    requires ToLowerAscii(w) !in TypeTable
    ensures MapXmlType(w) == [UpperChar(w[0])] + w[1..]
  {
    PascalOfWord(w);
  }

  /** The stored default type of a typeless element, `any`, is not a table
      key in any letter case. */
  lemma AnyIsNotPrimitive(stored: string)
    requires stored == "any"
    ensures ToLowerAscii(stored) !in TypeTable
  {
    assert ToLowerAscii(stored) == stored;
  }

  /** So a typeless element renders as the custom name `Any`. */
  lemma AnyRendersAsAny(stored: string)
    requires stored == "any"
    ensures MapXmlType(stored) == "Any"
  {
    AnyIsNotPrimitive(stored);
    CustomWordIsCapitalized(stored);
    assert [UpperChar(stored[0])] + stored[1..] == "Any";
  }
}
