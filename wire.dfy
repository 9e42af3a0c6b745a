/** What the HTTP transport (Faraday), the JSON library and the event-stream parser hand to the
    client, kept abstract where the client never looks inside, together with the Ruby semantics of
    the few operations the client applies to a parsed error member. */
module Wire {
  import opened Wrappers

  /** A document as the JSON library parses it; the client returns it without looking inside. */
  type Json(==)

  /** The Ruby value of `JSON.parse(body)["error"]`, the `error_response` of the classifier. */
  datatype Details =
    | Missing                                         // `nil`: no "error" member, or `"error": null`
    | Text(s: string)                                 // a String: a JSON string member, or "" for an empty body
    | Object(code: Option<string>, size: nat, text: string)
      // a Hash: `code` is its "code" member when that is a string, `size` its number of
      // members and `text` what string interpolation (`Hash#to_s`) renders for it

  /** A response body (or a streamed chunk) as the classifier sees it. */
  datatype Body =
    | Empty                                           // `nil` or ""
    | Unparsable                                      // text on which `JSON.parse` raises
    | Parsed(document: Json, error: Details)          // a JSON object and the value of its "error" member

  /** Bodies the classifier can always turn into a taxonomy error: empty ones, and JSON
      objects whose "error" member is present. */
  predicate WellFormed(body: Body) {
    body.Empty? || (body.Parsed? && !body.error.Missing?)
  }

  /** The `error_response` a well-formed body gives: "" for an empty body, else its "error" member. */
  function ErrorMember(body: Body): (d: Details)
    requires WellFormed(body)
    ensures !d.Missing?
  {
    if body.Empty? then Text("") else body.error
  }

  /** `haystack.include?(needle)` for strings. */
  predicate Contains(haystack: string, needle: string)
    decreases |haystack|
  {
    |needle| <= |haystack| && (haystack[..|needle|] == needle || Contains(haystack[1..], needle))
  }

  /** `"#{d}"`: the text a detail value interpolates to (`nil.to_s` is ""). */
  function Render(d: Details): string {
    match d
    case Missing => ""
    case Text(s) => s
    case Object(_, _, text) => text
  }

  /** `d["code"]`, when it does not raise: a String gives back the index text "code" when it
      contains it (`String#[]`), a Hash gives its "code" member. On `nil` it raises, so there is
      no value. */
  function CodeOf(d: Details): (c: Option<string>)
    requires !d.Missing?
    ensures c.Some? && d.Text? ==> c.value == "code"
  {
    match d
    case Text(s) => if Contains(s, "code") then Some("code") else None
    case Object(code, _, _) => code
  }

  /** `d.empty?`, when it does not raise (`nil` has no `empty?`). */
  predicate IsEmpty(d: Details)
    requires !d.Missing?
  {
    match d
    case Text(s) => s == ""
    case Object(_, size, _) => size == 0
  }

  /** The "code" a well-formed body's error member reads as. */
  function ErrorCode(body: Body): Option<string>
    requires WellFormed(body)
  {
    CodeOf(ErrorMember(body))
  }

  /** Failures of the HTTP exchange itself, which Faraday raises instead of returning a response. */
  datatype TransportFailure =
    | ConnectionFailed(detail: string)                // Faraday::ConnectionFailed
    | TimedOut(detail: string)                        // Faraday::TimeoutError

  /** What one non-streamed POST produced. */
  datatype Delivery =
    | Delivered(status: int, body: Body)
    | Failed(failure: TransportFailure)

  /** One record the event-stream parser yields: its event type, data payload and id. */
  datatype Record = Record(eventType: string, data: string, id: string)

  /** One chunk handed to the `on_data` callback: its text read as a body (the classifier's input
      when the status is not 200) and the records the stateful event-stream parser yields when fed it. */
  datatype Chunk = Chunk(body: Body, records: seq<Record>)

  /** What one streamed POST produced: the response status seen with every chunk, the chunks in
      arrival order, and a transport failure that ends the exchange after them, if any. */
  datatype StreamDelivery = StreamDelivery(status: int, chunks: seq<Chunk>, failure: Option<TransportFailure>)

  /** The identity of the caller's stream proc. */
  datatype Sink = Sink(id: nat)

  /** Keys of a Ruby request-parameters Hash: `:model` and `"model"` are different keys. */
  datatype ParamKey = Symbol(name: string) | Key(name: string)

  datatype Value = NilValue | BoolValue(b: bool) | StringValue(s: string) | JsonValue(json: Json)

  type Params = map<ParamKey, Value>

  /** The caller's parameters Hash, an object whose entries can be changed in place. */
  class ParamHash {
    var entries: Params

    constructor (entries: Params)
      ensures this.entries == entries
    {
      this.entries := entries;
    }
  }

  /** A language model record: a display name and a configuration Hash with "api_key" and "model". */
  datatype ModelRef = ModelRef(name: string, configuration: map<string, Value>)

  /** `configuration[key]`, which is `nil` for a missing key. */
  function Setting(model: ModelRef, key: string): (v: Value)
    ensures key !in model.configuration ==> v == NilValue
  {
    if key in model.configuration then model.configuration[key] else NilValue
  }
}
