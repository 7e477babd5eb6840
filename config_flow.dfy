/**
 * The onboarding step `XiaowoConfigFlow.async_step_user`: the phone and key
 * the user submits are checked against the account-check endpoint, and the
 * outcome is either a new config entry or the form shown again with an
 * error code under `errors["base"]`.
 */
module ConfigFlow {
  import opened Wrappers
  import opened Json
  import opened Envelope

  /** The two fields of the user form, both strings by the form's schema. */
  datatype Credentials = Credentials(phone: string, key: string)

  /** What the step hands back to the flow manager. */
  datatype FlowResult =
    | CreateEntry(title: string, data: Credentials)
    | ShowForm(defaults: Credentials, errors: map<string, string>)

  const CannotConnect := "cannot_connect"
  const InvalidResponse := "invalid_response"
  const InvalidCredentials := "invalid_credentials"
  const UnexpectedResponse := "unexpected_response"

  /** Decoded account-check bodies on which the step raises TypeError
      instead of answering: `in` on a true boolean or a non-zero number, or
      `json_data["message_code"]` on a list or string that contains the
      text `message_code`. */
  predicate StepRaises(resp: Response) {
    resp.Reply? && resp.status == 200 && resp.body.Parsed? &&
    var j := resp.body.value;
    Truthy(j) && (ContainsRaises(j) || (!j.JObj? && Contains(j, "message_code")))
  }

  /** The form defaults: what the user submitted, or empty strings when the
      form is shown for the first time. */
  function FormDefaults(input: Option<Credentials>): (d: Credentials)
    ensures input.Some? ==> d == input.value
    ensures input.None? ==> d.phone == [] && d.key == []
  {
    input.GetOr(Credentials("", ""))
  }

  /** The error the credential check ends with, or None when the account
      is accepted. */
  function CheckError(resp: Response): (r: Option<string>)
    requires !StepRaises(resp)
    ensures r == Some(CannotConnect) <==> resp.Unreachable? || resp.status != 200
    ensures r.None? <==>
      resp.Reply? && resp.status == 200 && resp.body.Parsed? && resp.body.value.JObj? &&
      Get(resp.body.value, "message_code").Some? && IsZero(Get(resp.body.value, "message_code").value)
    ensures r == Some(InvalidCredentials) <==>
      resp.Reply? && resp.status == 200 && resp.body.Parsed? && resp.body.value.JObj? &&
      Get(resp.body.value, "message_code").Some? && !IsZero(Get(resp.body.value, "message_code").value)
    ensures r == Some(UnexpectedResponse) <==>
      resp.Reply? && resp.status == 200 &&
      (resp.body.Malformed? || !Truthy(resp.body.value) || !Contains(resp.body.value, "message_code"))
    ensures r != Some(InvalidResponse)
  {
    match resp
    case Unreachable => Some(CannotConnect)
    case Reply(status, body) =>
      if status != 200 then Some(CannotConnect)
      else if body.Malformed? then Some(UnexpectedResponse)
      else
        var j := body.value;
        if !Truthy(j) || !Contains(j, "message_code") then Some(UnexpectedResponse)
        else if IsZero(Get(j, "message_code").value) then None
        else Some(InvalidCredentials)
  }

  /** `async_step_user`: `input` is the submitted form, or None when the
      form is first requested; `resp` is the outcome of the account-check
      request, made only when there is input. */
  method StepUser(input: Option<Credentials>, resp: Response) returns (r: FlowResult)
    requires input.Some? ==> !StepRaises(resp)
    ensures input.None? ==> r == ShowForm(Credentials("", ""), map[])
    ensures input.Some? && CheckError(resp).None? ==>
      r == CreateEntry(input.value.phone, input.value)
    ensures input.Some? && CheckError(resp).Some? ==>
      r == ShowForm(input.value, map["base" := CheckError(resp).value])
  {
    var errors: map<string, string> := map[];
    if input.Some? {
      var phone, key := input.value.phone, input.value.key;
      match resp {
        case Unreachable =>
          errors := errors["base" := CannotConnect];
        case Reply(status, body) =>
          if status != 200 {
            errors := errors["base" := CannotConnect];
          } else {
            var jsonData: Json;
            if body.Malformed? {
              errors := errors["base" := InvalidResponse];
              jsonData := JNull;
            } else {
              jsonData := body.value;
            }
            if Truthy(jsonData) && Contains(jsonData, "message_code") {
              if IsZero(Get(jsonData, "message_code").value) {
                return CreateEntry(phone, Credentials(phone, key));
              } else {
                errors := errors["base" := InvalidCredentials];
              }
            } else {
              errors := errors["base" := UnexpectedResponse];
            }
          }
      }
    }
    r := ShowForm(FormDefaults(input), errors);
  }

  /** The check accepts every response the device-info validation accepts,
      and refuses the credentials of every response it rejects with an API
      error; it reads `message_code` but never `message_info`. */
  lemma ValidatedIsAccepted(resp: Response)
    requires !ValidationRaises(resp) && !StepRaises(resp)
    ensures Validate(resp).Success? ==> CheckError(resp).None?
    ensures CheckError(resp) == Some(CannotConnect) <==>
      Validate(resp) == Failure(TransportError) ||
      (Validate(resp).Failure? && Validate(resp).error.HttpError?)
    ensures Validate(resp).Failure? && Validate(resp).error.ApiError? ==>
      CheckError(resp) == Some(InvalidCredentials)
  {
  }

  /** An account-check reply without `message_info` is accepted here, though
      the same body would be rejected by the device-info validation. */
  lemma AcceptedWithoutInfo()
    ensures
      var resp := Reply(200, Parsed(JObj([("message_code", JNum(0))])));
      !StepRaises(resp) && !ValidationRaises(resp) &&
      CheckError(resp).None? && Validate(resp) == Failure(UnexpectedStructure)
  {
    var fs := [("message_code", JNum(0))];
    assert Find(fs, "message_info").None?;
  }
}
