/** The attribute-merged tree that xml2js builds from a WSDL document with
    `explicitArray: false` and `mergeAttrs: true`: attributes and child
    elements share one object, a child that occurs once is a bare value and a
    repeated child is a list, and an element with neither attributes nor
    children is its text. */
module XmlTree {
  import opened Wrappers

  datatype Value =
    | Str(text: string)
    | Obj(fields: map<string, Value>)
    | Arr(items: seq<Value>)

  /** `v[key]`: only objects have the keys the extractor reads; a property
      read on text or on a list gives `undefined`. */
  function Get(v: Value, key: string): Option<Value> {
    if v.Obj? && key in v.fields then Some(v.fields[key]) else None
  }

  /** JavaScript truthiness of a property value: `undefined` and the empty
      string are false, every object and every list (even empty) is true. */
  predicate Truthy(o: Option<Value>) {
    match o
    case None => false
    case Some(Str(s)) => s != ""
    case Some(_) => true
  }

  /** `v[k1] || v[k2] || ...`: the first truthy value among the keys, in the
      order given, or `None` when none is truthy. */
  function Lookup(v: Value, keys: seq<string>): (r: Option<Value>)
    ensures r.Some? <==> exists i :: 0 <= i < |keys| && Truthy(Get(v, keys[i]))
    ensures r.Some? ==> Truthy(r)
    ensures r.Some? ==> exists i :: 0 <= i < |keys| && r == Get(v, keys[i])
                                    && forall j :: 0 <= j < i ==> !Truthy(Get(v, keys[j]))
  {
    if keys == [] then None
    else if Truthy(Get(v, keys[0])) then Get(v, keys[0])
    else
      var r := Lookup(v, keys[1..]);
      assert forall i :: 1 <= i < |keys| ==> keys[1..][i - 1] == keys[i];
      r
  }

  /** `Lookup` on a value that may itself be absent. */
  function LookupIn(o: Option<Value>, keys: seq<string>): Option<Value> {
    match o
    case None => None
    case Some(v) => Lookup(v, keys)
  }

  /** The three spellings under which an XML Schema construct is looked up:
      unprefixed, `xs:` and `xsd:`, in that order. */
  function SchemaKeys(local: string): seq<string> {
    [local, "xs:" + local, "xsd:" + local]
  }

  /** `Array.isArray(x) ? x : [x]` applied to a truthy lookup result, and the
      empty list when the lookup found nothing. */
  function ListOf(o: Option<Value>): (r: seq<Value>)
    ensures o.None? ==> r == []
    ensures o.Some? && o.value.Arr? ==> r == o.value.items
    ensures o.Some? && !o.value.Arr? ==> r == [o.value]
  {
    match o
    case None => []
    case Some(Arr(items)) => items
    case Some(v) => [v]
  }

  /** An attribute read: the text stored under `key`, if that is text. */
  function Text(v: Value, key: string): Option<string> {
    match Get(v, key)
    case Some(Str(s)) => Some(s)
    case _ => None
  }

  /** An attribute read where `undefined` and the empty string behave alike. */
  function TextOr(v: Value, key: string, default: string): string {
    Text(v, key).GetOr(default)
  }
}
