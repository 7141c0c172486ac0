/** What the frontend pages share: the outcome of a `fetch` call and the
    error text the pages derive from a failed one. A response body is a JSON
    object, here a map from keys to JSON values. */
module Frontend {
  import opened Common

  type JsonObject = map<string, Json>

  /** The outcome of `fetch` followed by `response.json()`: the decoded body of
      a 2xx answer; a non-2xx answer with its body (absent when it is not JSON)
      and status text; or an exception (network failure, undecodable body)
      with its message. */
  datatype FetchResponse<T> = Received(data: T) | NotOk(body: Option<JsonObject>, statusText: string) | Thrown(message: string)

  /** The outcome of an `axios` call: the decoded body of a 2xx answer, or the
      rejection with its message and the body of the answer when there was one
      (`err.response?.data`). */
  datatype AxiosResult<T> = Resolved(data: T) | Rejected(message: string, responseData: Option<JsonObject>)

  /** `String(v)` in JavaScript. */
  function JsString(v: Json): string {
    match v
    case JStr(s) => s
    case JInt(i) => IntToString(i)
    case JBool(b) => if b then "true" else "false"
    case JNull => "null"
  }

  /** `${obj.key}` in a template literal: an absent key reads `undefined`. */
  function FieldText(obj: JsonObject, key: string): (r: string)
    ensures key !in obj ==> r == "undefined"
  {
    if key in obj then JsString(obj[key]) else "undefined"
  }

  /** `errData.k1 || errData.k2 || ... || \`Error: ${statusText}\``. */
  function FirstTruthyOr(errData: JsonObject, keys: seq<string>, fallback: string): (r: string)
    decreases |keys|
  {
    if |keys| == 0 then fallback
    else if keys[0] in errData && Truthy(errData[keys[0]]) then JsString(errData[keys[0]])
    else FirstTruthyOr(errData, keys[1..], fallback)
  }

  /** The message of the error a page throws for a failed request, reading the
      body keys `keys` in turn. A body that is not JSON counts as
      `{message: statusText}`. */
  function ErrorMessage<T>(response: FetchResponse<T>, keys: seq<string>): string
    requires !response.Received?
  {
    match response
    case Thrown(message) => message
    case NotOk(body, statusText) =>
      var errData := if body.Some? then body.value else map["message" := JStr(statusText)];
      FirstTruthyOr(errData, keys, "Error: " + statusText)
  }

  lemma {:induction false} DetailKeyIsSkipped(detail: Json, keys: seq<string>, fallback: string)
    requires forall k :: 0 <= k < |keys| ==> keys[k] != "detail"
    ensures FirstTruthyOr(map["detail" := detail], keys, fallback) == fallback
    decreases |keys|
  {
    if |keys| > 0 {
      DetailKeyIsSkipped(detail, keys[1..], fallback);
    }
  }

  /** The backend's error answers are `{"detail": ...}`. A page that reads only
      other keys of the body (`error`, `message`) never shows the detail: it
      shows "Error: " followed by the status text. */
  lemma DetailIsNotShown(detail: Json, statusText: string, keys: seq<string>)
    requires forall k :: 0 <= k < |keys| ==> keys[k] != "detail"
    ensures var response: FetchResponse<JsonObject> := NotOk(Some(map["detail" := detail]), statusText);
      ErrorMessage(response, keys) == "Error: " + statusText
  {
    DetailKeyIsSkipped(detail, keys, "Error: " + statusText);
  }
}
