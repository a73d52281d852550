/** The decoded JSON the outreach service reads back from the language
    model. Only the shapes the backend inspects are distinguished; nested
    objects and every other shape are `JOther`. Decoding itself (`json.loads`)
    is a parameter `decode` wherever it is needed. */
module Json {
  import opened Wrappers

  datatype JsonValue =
    | JStr(s: string)
    | JNum(x: real)
    | JStrList(items: seq<string>)
    | JNull
    | JOther

  type JsonObject = map<string, JsonValue>

  /** `json.loads` on a text: the object it denotes, or `None` when it does
      not parse. */
  type Decoder = string -> Option<JsonObject>
}
