/** Namespace-prefix stripping of qualified names (`tns:Item` to `Item`),
    shared by the extractor and the generator, which carry identical copies
    of `cleanTypeName`. */
module Prefixes {
  import opened JsText

  /** `cleanTypeName`: an empty reference means "any"; otherwise the text after
      the last colon, i.e. the longest colon-free suffix. */
  function CleanTypeName(typeName: string): (r: string)
    ensures typeName == [] ==> r == "any"
    ensures ':' !in r
    ensures typeName != [] ==> |r| <= |typeName| && r == typeName[|typeName| - |r|..]
    ensures typeName != [] && |r| < |typeName| ==> typeName[|typeName| - |r| - 1] == ':'
    ensures typeName != [] && ':' !in typeName ==> r == typeName
  {
    if typeName == [] then "any"
    else
      var colon := LastIndexOf(typeName, ':');
      if colon != -1 then typeName[colon + 1..] else typeName
  }

  /** Cleaning `P:T` gives `T` for any colon-free, non-empty `T`. */
  lemma CleanPrefixedName(prefix: string, item: string)
    requires item != [] && ':' !in item
    ensures CleanTypeName(prefix + ":" + item) == item
  {
    var s := prefix + ":" + item;
    var clean := CleanTypeName(s);
    assert s[|s| - |item| - 1] == ':';
    assert s[|s| - |item|..] == item;
  }
}
