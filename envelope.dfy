/**
 * The vendor's response envelope and the validation chain that
 * `async_setup_entry` and `HomeAssistantXiaowoData.async_update` apply to a
 * device-info response before reading its payload.
 */
module Envelope {
  import opened Wrappers
  import opened Json

  /** What `await response.json()` yields: a decoded value, or a ValueError. */
  datatype Body = Malformed | Parsed(value: Json)

  /** One HTTP exchange: a timeout or client error raised before a status
      was read, or a status with its body. */
  datatype Response = Unreachable | Reply(status: int, body: Body)

  /** Why a device-info response is not used. */
  datatype Rejection =
    | TransportError          // asyncio.TimeoutError or aiohttp.ClientError
    | HttpError(status: int)  // any status other than 200
    | InvalidJson             // the body does not decode
    | UnexpectedStructure     // empty, or `message_code` / `message_info` missing
    | ApiError(info: Json)    // `message_code` other than 0

  /** The shape test `not json_data or "message_code" not in json_data or
      "message_info" not in json_data` passes. */
  predicate WellShaped(j: Json) {
    Truthy(j) && Contains(j, "message_code") && Contains(j, "message_info")
  }

  /** Decoded bodies on which the chain raises TypeError instead of
      returning: `in` on a true boolean or a non-zero number, or indexing a
      list or string that passed the shape test. */
  predicate ValidationRaises(resp: Response) {
    resp.Reply? && resp.status == 200 && resp.body.Parsed? &&
    var j := resp.body.value;
    Truthy(j) && (ContainsRaises(j) || (!j.JObj? && WellShaped(j)))
  }

  /** The ordered validation chain; a success carries `message_info`. */
  function Validate(resp: Response): (r: Result<Json, Rejection>)
    requires !ValidationRaises(resp)
    ensures r.Success? <==>
      resp.Reply? && resp.status == 200 && resp.body.Parsed? && resp.body.value.JObj? &&
      Get(resp.body.value, "message_info").Some? &&
      Get(resp.body.value, "message_code").Some? && IsZero(Get(resp.body.value, "message_code").value)
    ensures r.Success? ==> Some(r.value) == Get(resp.body.value, "message_info")
  {
    match resp
    case Unreachable => Failure(TransportError)
    case Reply(status, body) =>
      if status != 200 then Failure(HttpError(status))
      else match body
        case Malformed => Failure(InvalidJson)
        case Parsed(j) =>
          if !WellShaped(j) then Failure(UnexpectedStructure)
          else if !IsZero(Get(j, "message_code").value) then Failure(ApiError(Get(j, "message_info").value))
          else Success(Get(j, "message_info").value)
  }

  /** A status other than 200 is rejected whatever the body holds: the body
      is never decoded. */
  lemma StatusCheckedFirst(status: int, b1: Body, b2: Body)
    requires status != 200
    ensures !ValidationRaises(Reply(status, b1)) && !ValidationRaises(Reply(status, b2))
    ensures Validate(Reply(status, b1)) == Validate(Reply(status, b2)) == Failure(HttpError(status))
  {
  }

  /** The rejection a response receives names the first check it fails. */
  lemma RejectionOrder(resp: Response)
    requires !ValidationRaises(resp)
    ensures Validate(resp) == Failure(TransportError) <==> resp.Unreachable?
    ensures Validate(resp) == Failure(InvalidJson) <==> resp == Reply(200, Malformed)
    ensures Validate(resp) == Failure(UnexpectedStructure) <==>
      resp.Reply? && resp.status == 200 && resp.body.Parsed? && !WellShaped(resp.body.value)
    ensures Validate(resp).Failure? && Validate(resp).error.ApiError? <==>
      resp.Reply? && resp.status == 200 && resp.body.Parsed? && WellShaped(resp.body.value) &&
      !IsZero(Get(resp.body.value, "message_code").value)
  {
  }

  /** A non-zero `message_code` is rejected whatever `message_info` holds. */
  lemma NonZeroCodeRejected(code: Json, info1: Json, info2: Json)
    requires !IsZero(code)
    ensures
      var r1 := Reply(200, Parsed(JObj([("message_code", code), ("message_info", info1)])));
      var r2 := Reply(200, Parsed(JObj([("message_code", code), ("message_info", info2)])));
      !ValidationRaises(r1) && Validate(r1) == Failure(ApiError(info1)) &&
      !ValidationRaises(r2) && Validate(r2) == Failure(ApiError(info2))
  {
    ApiErrorCarriesInfo(code, info1);
    ApiErrorCarriesInfo(code, info2);
  }

  lemma ApiErrorCarriesInfo(code: Json, info: Json)
    requires !IsZero(code)
    ensures
      var r := Reply(200, Parsed(JObj([("message_code", code), ("message_info", info)])));
      !ValidationRaises(r) && Validate(r) == Failure(ApiError(info))
  {
    EnvelopeLookup(code, info);
  }

  lemma EnvelopeLookup(code: Json, info: Json)
    ensures var fs := [("message_code", code), ("message_info", info)];
      Find(fs, "message_code") == Some(code) && Find(fs, "message_info") == Some(info)
  {
    var fs := [("message_code", code), ("message_info", info)];
    assert fs[..1] == [("message_code", code)];
    assert "message_code" != "message_info";
  }
}
