/** `sendResponse(res, data)` of utils/sendResponse.js: the JSON envelope every backend
    controller answers with. */
module SendResponse {
  import opened Common

  /** The fields of `data` the helper reads; absent fields are `None`. */
  datatype ResponseData = ResponseData(
    statusCode: Option<int>,
    success: Option<bool>,
    message: Option<Json>,
    data: Option<Json>,
    meta: Option<Json>)

  /** What reaches `res`: the status set first, then the JSON body or the `TypeError`
      thrown while building it (the status has already been set by then). */
  datatype Reply = Reply(status: int, body: Result<Json>)

  /** `data?.statusCode || 200`: a missing, null or zero code becomes 200. */
  function StatusOf(data: Option<ResponseData>): (s: int)
    ensures s != 0
    ensures data.Some? && data.value.statusCode.Some? && data.value.statusCode.value != 0 ==>
      s == data.value.statusCode.value
    ensures !(data.Some? && data.value.statusCode.Some? && data.value.statusCode.value != 0) ==> s == 200
  {
    if data.Some? && data.value.statusCode.Some? && data.value.statusCode.value != 0
    then data.value.statusCode.value
    else 200
  }

  /** `JSON.stringify` drops properties whose value is `undefined`. */
  function WithOptional(fields: map<string, Json>, key: string, v: Option<Json>): (r: map<string, Json>)
    ensures v.Some? ==> r == fields[key := v.value]
    ensures v.None? ==> r == fields
  {
    if v.Some? then fields[key := v.value] else fields
  }

  function SendResponse(data: Option<ResponseData>): (r: Reply)
    ensures r.status == StatusOf(data)
    ensures data.None? <==> r.body.Err?
    ensures r.body.Ok? ==> r.body.value.JObject?
  {
    match data
    case None => Reply(200, Err("TypeError: Cannot read properties of null (reading 'success')"))
    case Some(d) =>
      var fields := map["success" := JBool(OrElse(d.success, true))];
      var fields := WithOptional(fields, "message", d.message);
      var fields := WithOptional(fields, "data", d.data);
      var fields := WithOptional(fields, "meta", d.meta);
      Reply(StatusOf(data), Ok(JObject(fields)))
  }

  /** The body always says `success`, true unless the caller passed `false`; `message`,
      `data` and `meta` are copied when present and omitted when absent; and
      `statusCode` itself is never echoed in the body. */
  lemma SendResponseBody(d: ResponseData)
    ensures var body := SendResponse(Some(d)).body.value.fields;
      && "success" in body && body["success"] == JBool(d.success != Some(false))
      && ("message" in body <==> d.message.Some?) && (d.message.Some? ==> body["message"] == d.message.value)
      && ("data" in body <==> d.data.Some?) && (d.data.Some? ==> body["data"] == d.data.value)
      && ("meta" in body <==> d.meta.Some?) && (d.meta.Some? ==> body["meta"] == d.meta.value)
      && "statusCode" !in body
      && body.Keys <= {"success", "message", "data", "meta"}
  {
  }
}
