/** internal/result/payload.go: the text of a message, or the decision to skip it. */
module Payload {
  import opened Base

  /** A decoded JSON value. The decoder keeps numbers as literals: `Int` is an integer
      literal, `OtherNumber` any other one (such as 1.0). */
  datatype Value = Null | Bool(b: bool) | Int(n: int) | OtherNumber | Str(s: string)
                 | Obj(fields: map<string, Value>) | Arr(items: seq<Value>)

  type Object = map<string, Value>

  const TEXT := 1
  const RICH_TEXT := 14

  const MAX_INT64: int := 0x7FFF_FFFF_FFFF_FFFF
  const MIN_INT64: int := -0x8000_0000_0000_0000

  function Field(o: Object, key: string): Value {
    if key in o then o[key] else Null
  }

  /** A literal that is no integer reads as 0, one out of range as the nearest int64. */
  function ToInt(v: Value): int {
    match v
    case Int(n) => Max(MIN_INT64, Min(MAX_INT64, n))
    case _ => 0
  }

  function GetStr(o: Object, key: string): string {
    match Field(o, key)
    case Str(s) => s
    case _ => ""
  }

  function Nested(o: Object, outer: string, inner: string): string {
    match Field(o, outer)
    case Obj(fields) => GetStr(fields, inner)
    case _ => ""
  }

  function TypeOf(o: Object): int {
    ToInt(Field(o, "type"))
  }

  /** Keeps a message exactly when it has a payload of type 1 or 14. A plain text falls back on
      the raw payload only when its own content is missing or empty, and is exported as an empty
      line only when both are. */
  function ExtractPayload(payload: Option<Object>, payloadRaw: Option<Object>): (r: Option<string>)
    ensures r.Some? <==> payload.Some? && TypeOf(payload.value) in {TEXT, RICH_TEXT}
    ensures r.Some? && TypeOf(payload.value) == TEXT ==>
              var own := Nested(payload.value, "text", "content");
              var raw := if payloadRaw.Some? then GetStr(payloadRaw.value, "content") else "";
              && (own != "" ==> r.value == own)
              && (r.value != own ==> r.value == raw)
              && (r.value == "" <==> own == "" && raw == "")
    ensures r.Some? && TypeOf(payload.value) == RICH_TEXT ==>
              r.value == Nested(payload.value, "richText", "searchText")
  {
    if payload.None? then None
    else if TypeOf(payload.value) == TEXT then
      var c := Nested(payload.value, "text", "content");
      if c != "" then Some(c)
      else if payloadRaw.Some? then Some(GetStr(payloadRaw.value, "content"))
      else Some("")
    else if TypeOf(payload.value) == RICH_TEXT then
      Some(Nested(payload.value, "richText", "searchText"))
    else None
  }

  /** The forms a message comes in, spelled out: a plain text, one whose text stands in the raw
      payload, a rich text, and anything else. */
  lemma PayloadForms(text: string, n: int, raw: Option<Object>)
    ensures text != "" ==>
              ExtractPayload(Some(map["type" := Int(1), "text" := Obj(map["content" := Str(text)])]), raw) == Some(text)
    ensures ExtractPayload(Some(map["type" := Int(1)]), Some(map["content" := Str(text)])) == Some(text)
    ensures ExtractPayload(Some(map["type" := Int(14), "richText" := Obj(map["searchText" := Str(text)])]), raw)
         == Some(text)
    ensures ExtractPayload(Some(map["type" := Int(n)]), raw).Some? <==> n == 1 || n == 14
    ensures ExtractPayload(Some(map["type" := OtherNumber]), raw) == None
    ensures ExtractPayload(Some(map["type" := Str("1")]), raw) == None
  {
  }
}
