/**
 * The answer a webhook hands back to the gateway: a tree of named elements
 * (rendered as XML by the HTTP layer) and its content type.
 */
module WebhookResult {
  import opened Wrappers
  import opened JsValues

  datatype ContentType = Xml

  /** `{ tag: [children] }` or `{ tag: value }`; an undefined value stays undefined. */
  datatype Element =
    | Node(tag: string, children: seq<Element>)
    | Leaf(tag: string, value: Option<Json>)

  datatype FinalResult = FinalResult(payload: seq<Element>, contentType: ContentType)

  /** The `result` element every answer starts with. */
  function ResultElement(code: int, desc: string): Element
  {
    Node("result", [Leaf("code", Some(JNum(code as real))), Leaf("desc", Some(JStr(desc)))])
  }

  /** The tags of the children of the single top-level element of an answer, in order. */
  function ResponseTags(r: FinalResult): seq<string>
  {
    if |r.payload| == 1 && r.payload[0].Node? then
      seq(|r.payload[0].children|, i requires 0 <= i < |r.payload[0].children| => r.payload[0].children[i].tag)
    else []
  }
}
