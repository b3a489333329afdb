/**
 * The JSON documents exchanged with the paired mobile, and the one way the
 * desktop reads them: unmarshalling into Go's map[string]string.
 */
module Json {
  import opened Bytes

  /** A JSON value. Numbers are kept as their literal text. */
  datatype Json =
    | JNull
    | JBool(b: bool)
    | JNumber(literal: string)
    | JString(s: string)
    | JArray(items: seq<Json>)
    | JObject(fields: map<string, Json>)

  /** What a pull yields once decrypted: a JSON document, or bytes that do not parse as JSON. */
  datatype Payload = Doc(doc: Json) | NotJson(raw: seq<Byte>)

  /**
   * The three ways unmarshalling into a map[string]string can end: an error
   * (Invalid), no error but a nil map (the document was `null`), or a map.
   */
  datatype Decoded = Invalid | NilMap | StringMap(entries: map<string, string>)

  /** A member value that a map[string]string accepts: a string, or null (which leaves the zero string). */
  predicate IsStringMember(v: Json) {
    v.JString? || v.JNull?
  }

  function MemberText(v: Json): string
    requires IsStringMember(v)
  {
    if v.JString? then v.s else ""
  }

  /** Unmarshal a payload into a string-to-string map, as json.Unmarshal into a map[string]string does. */
  function DecodeStringMap(p: Payload): (d: Decoded)
    ensures d.StringMap? <==>
      p.Doc? && p.doc.JObject? && forall k :: k in p.doc.fields ==> IsStringMember(p.doc.fields[k])
    ensures d.NilMap? <==> p == Doc(JNull)
    ensures d.StringMap? ==> d.entries.Keys == p.doc.fields.Keys
    ensures d.StringMap? ==> forall k :: k in d.entries ==> d.entries[k] == MemberText(p.doc.fields[k])
  {
    match p
    case NotJson(_) => Invalid
    case Doc(JNull) => NilMap
    case Doc(JObject(fields)) =>
      if forall k :: k in fields ==> IsStringMember(fields[k])
      then StringMap(map k | k in fields :: MemberText(fields[k]))
      else Invalid
    case Doc(_) => Invalid
  }

  /** Marshal a string-to-string map (or a struct of string fields) into a JSON object. */
  function FromStrings(m: map<string, string>): (j: Json)
    ensures j.JObject? && j.fields.Keys == m.Keys
    ensures forall k :: k in m ==> j.fields[k] == JString(m[k])
  {
    JObject(map k | k in m :: JString(m[k]))
  }

  /** What the desktop marshals from a string map, the peer unmarshals back to exactly that map. */
  lemma DecodeFromStrings(m: map<string, string>)
    ensures DecodeStringMap(Doc(FromStrings(m))) == StringMap(m)
  {
  }

  /** Marshalling string maps loses nothing: two different maps give two different documents. */
  lemma FromStringsInjective(m1: map<string, string>, m2: map<string, string>)
    requires FromStrings(m1) == FromStrings(m2)
    ensures m1 == m2
  {
  }
}
