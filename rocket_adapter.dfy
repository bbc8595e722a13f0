/**
 * The Rocket responder: how an `ApiResponse` becomes the status, headers
 * and body text sent on the wire.
 */
module RocketAdapter {
  import opened Wrappers
  import opened Json
  import opened DatabaseConfigs
  import opened ApiTypes

  /** The response Rocket sends. */
  datatype RocketResponse = RocketResponse(status: U16, headers: map<string, string>, body: string)

  /** The status codes `Status::from_code` knows. */
  predicate RecognizedStatus(code: int) {
    || 100 <= code <= 103
    || 200 <= code <= 208 || code == 226
    || 300 <= code <= 305 || code == 307 || code == 308
    || 400 <= code <= 418 || 421 <= code <= 426 || code == 428 || code == 429 || code == 431 || code == 451
    || 500 <= code <= 508 || code == 510 || code == 511
  }

  /** The status sent: the given code when Rocket knows it, otherwise 200. */
  function ResponseStatus(code: U16): (s: U16)
    ensures RecognizedStatus(code) ==> s == code
    ensures !RecognizedStatus(code) ==> s == 200
    ensures RecognizedStatus(s)
  {
    if RecognizedStatus(code) then code else 200
  }

  /** `serde_json::to_string`: the text of a value, or `None` when serialization fails. */
  type Renderer = Json -> Option<string>

  const SERIALIZE_FAILED: string := "{\"error\": \"Failed to serialize response\"}"

  /**
   * The JSON a body serializes as: a bare JSON body is the value itself,
   * an entity or a list is tagged with its variant name, `{"Single": ...}`
   * or `{"List": [...]}`.
   */
  function Tagged(body: ResponseBody): (v: Json)
    ensures body.JsonBody? ==> v == body.value
    ensures body.Single? ==> v.JObject? && v.members.Keys == {"Single"} && v.members["Single"] == body.item
    ensures body.List? ==> v.JObject? && v.members.Keys == {"List"} && v.members["List"] == JArray(body.items)
  {
    match body
    case JsonBody(v) => v
    case Single(item) => JObject(map["Single" := item])
    case List(items) => JObject(map["List" := JArray(items)])
  }

  /** The body text: empty without a body, the fixed error text when serialization fails. */
  function BodyText(body: Option<ResponseBody>, render: Renderer): (t: string)
    ensures body.None? ==> t == ""
    ensures body.Some? && render(Tagged(body.value)).Some? ==> t == render(Tagged(body.value)).value
    ensures body.Some? && render(Tagged(body.value)).None? ==> t == SERIALIZE_FAILED
  {
    match body
    case None => ""
    case Some(b) =>
      match render(Tagged(b))
      case Some(text) => text
      case None => SERIALIZE_FAILED
  }

  /**
   * The response `respond_to` builds: every header of the API response is
   * copied, and a body that is not empty gets the JSON content type, which
   * replaces any content type the API response carried.
   */
  function Respond(response: ApiResponse, render: Renderer): (r: RocketResponse)
    ensures r.status == ResponseStatus(response.status)
    ensures r.body == BodyText(response.body, render)
    ensures forall k :: k in response.headers && k != "Content-Type" ==> k in r.headers && r.headers[k] == response.headers[k]
    ensures forall k :: k in r.headers ==> k in response.headers || k == "Content-Type"
    ensures "Content-Type" in r.headers <==> |r.body| > 0 || "Content-Type" in response.headers
    ensures |r.body| > 0 ==> r.headers["Content-Type"] == "application/json"
    ensures |r.body| == 0 && "Content-Type" in response.headers ==> r.headers["Content-Type"] == response.headers["Content-Type"]
  {
    var text := BodyText(response.body, render);
    RocketResponse(
      ResponseStatus(response.status),
      if |text| > 0 then response.headers["Content-Type" := "application/json"] else response.headers,
      text)
  }

  /**
   * With a serializer that never yields empty text, the JSON content type
   * is added exactly when the API response has a body.
   */
  lemma ContentTypeIffBody(response: ApiResponse, render: Renderer)
    requires forall v :: render(v) != Some("")
    requires "Content-Type" !in response.headers
    ensures "Content-Type" in Respond(response, render).headers <==> response.body.Some?
  {
    if response.body.Some? {
      assert render(Tagged(response.body.value)) != Some("");
      assert |SERIALIZE_FAILED| > 0;
    }
  }

  /** Rocket's response builder, updated in place as headers are added. */
  class ResponseBuilder {
    var status: U16
    var headers: map<string, string>
    var body: string

    constructor (status: U16, body: string)
      ensures this.status == status && this.body == body && headers == map[]
    {
      this.status := status;
      this.body := body;
      headers := map[];
    }

    /** Sets a header, replacing any header of the same name. */
    method RawHeader(name: string, value: string)
      modifies this
      ensures headers == old(headers)[name := value]
      ensures status == old(status) && body == old(body)
    {
      headers := headers[name := value];
    }

    method Finalize() returns (r: RocketResponse)
      ensures r == RocketResponse(status, headers, body)
    {
      r := RocketResponse(status, headers, body);
    }
  }

  /** `respond_to`: sets status and body, copies the headers one by one, then the content type. */
  method RespondTo(response: ApiResponse, render: Renderer) returns (r: RocketResponse)
    ensures r == Respond(response, render)
  {
    var status := ResponseStatus(response.status);
    var body := BodyText(response.body, render);
    var builder := new ResponseBuilder(status, body);
    var remaining := response.headers.Keys;
    while remaining != {}
      invariant remaining <= response.headers.Keys
      invariant builder.headers == map k | k in response.headers.Keys - remaining :: response.headers[k]
      invariant builder.status == status && builder.body == body
      decreases remaining
    {
      var k :| k in remaining;
      builder.RawHeader(k, response.headers[k]);
      remaining := remaining - {k};
    }
    assert builder.headers == response.headers;
    if |body| > 0 {
      builder.RawHeader("Content-Type", "application/json");
    }
    r := builder.Finalize();
  }
}
