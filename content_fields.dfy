/**
 * The request-body handling of the content-creation endpoint: JavaScript
 * values as they arrive in a JSON body or from the multipart parser, their
 * truthiness and `String(...)` conversion, the unwrapping of multipart fields
 * (`normalizeFields`) and the normalisation of the `tagIds` field.
 */
module ContentFields {
  import opened Wrappers
  import opened JsStrings

  /** A JavaScript value as far as the endpoint distinguishes them; numbers are integers here. */
  datatype JsValue =
    | JUndefined
    | JNull
    | JBool(b: bool)
    | JNum(n: int)
    | JStr(s: string)
    | JArr(items: seq<JsValue>)
    | JObj

  /** JavaScript truthiness: `undefined`, `null`, `false`, `0` and `""` are falsy; arrays and objects are truthy. */
  predicate Truthy(v: JsValue) {
    match v
    case JUndefined => false
    case JNull => false
    case JBool(b) => b
    case JNum(n) => n != 0
    case JStr(s) => s != ""
    case JArr(_) => true
    case JObj => true
  }

  /** `String(v)`: an array is its elements' strings joined by ",", with null and undefined elements empty. */
  function ToJsString(v: JsValue): string
    decreases v
  {
    match v
    case JUndefined => "undefined"
    case JNull => "null"
    case JBool(b) => if b then "true" else "false"
    case JNum(n) => IntToString(n)
    case JStr(s) => s
    case JArr(xs) =>
      Join(seq(|xs|, i requires 0 <= i < |xs| =>
             if xs[i].JNull? || xs[i].JUndefined? then "" else ToJsString(xs[i])), ",")
    case JObj => "[object Object]"
  }

  /** A record of request fields; a missing key reads as `undefined`. */
  type Fields = map<string, JsValue>

  function Field(fields: Fields, key: string): JsValue {
    if key in fields then fields[key] else JUndefined
  }

  /** What the multipart parser gives for one text field: a list of values, or undefined. */
  datatype FormField = Values(values: seq<string>) | Missing

  /** `Array.isArray(val) ? val[0] : val` (an empty list reads as `undefined`). */
  function Unwrapped(f: FormField): (v: JsValue)
    ensures f.Values? && |f.values| > 0 ==> v == JStr(f.values[0])
    ensures v.JStr? || v.JUndefined?
  {
    match f
    case Values(vs) => if |vs| > 0 then JStr(vs[0]) else JUndefined
    case Missing => JUndefined
  }

  /** `normalizeFields`: one pass over the parser's keys, unwrapping each single-element list. */
  method NormalizeFields(flds: map<string, FormField>) returns (out: Fields)
    ensures out.Keys == flds.Keys
    ensures forall k :: k in flds ==> out[k] == Unwrapped(flds[k])
  {
    out := map[];
    var keys := flds.Keys;
    while keys != {}
      invariant keys <= flds.Keys
      invariant out.Keys == flds.Keys - keys
      invariant forall k :: k in out ==> out[k] == Unwrapped(flds[k])
      decreases keys
    {
      var k :| k in keys;
      out := out[k := Unwrapped(flds[k])];
      keys := keys - {k};
    }
  }

  /** What `JSON.parse` returns for a string: an array, some other value, or a thrown error. */
  datatype ParseOutcome = ParsedArray(items: seq<JsValue>) | ParsedOther | ParseError

  /** `JSON.parse`, given as a parameter. */
  type JsonParser = string -> ParseOutcome

  function MapToString(xs: seq<JsValue>): (r: seq<string>)
    ensures |r| == |xs| && forall i :: 0 <= i < |xs| ==> r[i] == ToJsString(xs[i])
  {
    seq(|xs|, i requires 0 <= i < |xs| => ToJsString(xs[i]))
  }

  function TrimEach(xs: seq<string>): (r: seq<string>)
    ensures |r| == |xs| && forall i :: 0 <= i < |xs| ==> r[i] == Trim(xs[i])
  {
    seq(|xs|, i requires 0 <= i < |xs| => Trim(xs[i]))
  }

  /**
   * The `tagIds` normalisation: `None` stands for `undefined`. An array maps
   * through `String`; a string is tried as JSON, and when that throws it is
   * split on commas (pieces trimmed, empty pieces kept) if it has one.
   */
  function NormalizeTagIds(v: JsValue, parse: JsonParser): (r: Option<seq<string>>)
    ensures r.Some? <==> Truthy(v) && (v.JArr? || v.JStr?)
    ensures v.JArr? ==> r == Some(MapToString(v.items))
    ensures r.Some? && v.JStr? && !parse(v.s).ParsedArray? ==> |r.value| >= 1
  {
    if !Truthy(v) then None
    else match v
      case JArr(xs) => Some(MapToString(xs))
      case JStr(s) =>
        (match parse(s)
         case ParsedArray(ys) => Some(MapToString(ys))
         case ParsedOther => Some([s])
         case ParseError => if ',' in s then Some(TrimEach(Split(s, ','))) else Some([s]))
      case _ => None
  }

  /**
   * An unparsable comma list gives one trimmed, comma-free id per piece,
   * empty pieces included, so the count is one more than the number of commas.
   */
  lemma CommaListPieces(s: string, parse: JsonParser)
    requires s != "" && parse(s).ParseError? && ',' in s
    ensures var r := NormalizeTagIds(JStr(s), parse).value;
            && |r| == Count(s, ',') + 1
            && forall i :: 0 <= i < |r| ==> IsTrimmed(r[i]) && ',' !in r[i]
  {
    var pieces := Split(s, ',');
    forall i | 0 <= i < |pieces|
      ensures IsTrimmed(Trim(pieces[i])) && ',' !in Trim(pieces[i])
    {
      TrimKeepsAbsent(pieces[i], ',');
    }
  }

  /** When no piece carries surrounding white space, joining the ids with "," gives the field back. */
  lemma CommaListRoundTrip(s: string, parse: JsonParser)
    requires s != "" && parse(s).ParseError? && ',' in s
    requires forall p :: p in Split(s, ',') ==> IsTrimmed(p)
    ensures Join(NormalizeTagIds(JStr(s), parse).value, ",") == s
  {
    var pieces := Split(s, ',');
    assert TrimEach(pieces) == pieces by {
      forall i | 0 <= i < |pieces| ensures Trim(pieces[i]) == pieces[i] {
        assert pieces[i] in pieces;
        TrimOfTrimmed(pieces[i]);
      }
    }
  }

  /** A string without a comma that is not a JSON array becomes a one-element list holding the raw string. */
  lemma SingleIdKept(s: string, parse: JsonParser)
    requires s != "" && !parse(s).ParsedArray?
    requires parse(s).ParsedOther? || ',' !in s
    ensures NormalizeTagIds(JStr(s), parse) == Some([s])
  {
  }

  /** A JSON array in a string is treated like an array field. */
  lemma JsonArrayString(s: string, parse: JsonParser)
    requires s != "" && parse(s).ParsedArray?
    ensures NormalizeTagIds(JStr(s), parse) == NormalizeTagIds(JArr(parse(s).items), parse)
  {
  }

  /** Numbers in an id array become their decimal strings, `null` becomes "null". */
  lemma ArrayElementsStringified()
    ensures NormalizeTagIds(JArr([JNum(12), JNull, JStr("t1")]), _ => ParseError)
            == Some(["12", "null", "t1"])
  {
    assert NatToString(1) == "1";
    assert IntToString(12) == "12";
    var r := NormalizeTagIds(JArr([JNum(12), JNull, JStr("t1")]), _ => ParseError).value;
    assert r[0] == "12" && r[1] == "null" && r[2] == "t1";
    assert r == ["12", "null", "t1"];
  }
}
