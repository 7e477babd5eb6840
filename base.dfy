/**
 * The entity base class `XiaowoEntity`: the unique id and device-registry
 * identifiers of an entity, and `_send_command`, which PUTs one option
 * change for a device and reports whether the vendor accepted it.
 */
module Base {
  import opened Wrappers
  import opened Json
  import opened Envelope
  import opened Discovery
  import ConfigFlow

  /** The integration's domain; Home Assistant requires it to equal the
      name of the component directory. */
  const Domain: string := "ciaowarm"

  const UniqueIdPrefix: string := "xiaowo."

  /** `f"xiaowo.{device_id}"`. */
  function UniqueId(deviceId: Json): (u: string)
    ensures |u| == |UniqueIdPrefix| + |PyStr(deviceId)|
    ensures u[..|UniqueIdPrefix|] == UniqueIdPrefix && u[|UniqueIdPrefix|..] == PyStr(deviceId)
  {
    UniqueIdPrefix + PyStr(deviceId)
  }

  class XiaowoEntity {
    const uniqueId: string
    const deviceId: Json

    /** The unique id is derived from the device id. */
    predicate Valid() {
      uniqueId == UniqueId(deviceId)
    }

    constructor (deviceId: Json)
      ensures this.deviceId == deviceId && Valid()
    {
      this.deviceId := deviceId;
      uniqueId := UniqueId(deviceId);
    }

    /** The `device_info` property: the entity belongs to exactly one
        registry device, the one identified by its device id. */
    function DeviceInfo(): (ids: set<(string, Json)>)
      ensures (Domain, deviceId) in ids
      ensures forall p :: p in ids ==> p == (Domain, deviceId)
    {
      {(Domain, deviceId)}
    }
  }

  /** Two entities whose device ids are both strings, or both integers, get
      the same unique id exactly when they have the same device id. */
  lemma UniqueIdInjective(a: Json, b: Json)
    requires (a.JStr? && b.JStr?) || (a.JNum? && b.JNum?)
    ensures UniqueId(a) == UniqueId(b) <==> a == b
  {
    if UniqueId(a) == UniqueId(b) {
      assert PyStr(a) == UniqueId(a)[|UniqueIdPrefix|..] == UniqueId(b)[|UniqueIdPrefix|..] == PyStr(b);
      if a.JNum? {
        DecimalInjective(a.n, b.n);
      }
    }
  }

  /** The f-string does not tell a string id from the integer it spells:
      two such entities share a unique id while belonging to different
      registry devices. */
  lemma UniqueIdIgnoresType()
    ensures UniqueId(JStr("7")) == UniqueId(JNum(7))
    ensures JStr("7") != JNum(7)
  {
    assert Digits(7) == "7";
  }

  /** An entity created with the identifier the setup pass registered for a
      record joins that registry device. */
  lemma EntityJoinsRegisteredDevice(v: Visit, e: XiaowoEntity)
    requires e.Valid() && e.deviceId == JStr(RegistrationOf(v).identifier)
    ensures e.DeviceInfo() == {(Domain, JStr(Identifier(v)))}
    ensures e.uniqueId == UniqueIdPrefix + Identifier(v)
  {
  }

  /** The attributes of a device object that `_send_command` reads. */
  datatype CommandTarget = CommandTarget(
    phone: string, token: string, gatewayId: Json, thermostatId: Json, boilerId: Json)

  /** The PUT request: URL, headers and JSON body. */
  datatype Command = Command(url: string, headers: seq<(string, string)>, body: Json)

  const CommandFields: seq<string> :=
    ["phone", "gateway_id", "thermostat_id", "boiler_id", "option_key", "option_value"]

  function CommandBody(target: CommandTarget, optionKey: Json, optionValue: Json): (b: Json)
    ensures b.JObj? && |b.fields| == |CommandFields|
    ensures forall i :: 0 <= i < |CommandFields| ==> b.fields[i].0 == CommandFields[i]
  {
    JObj([("phone", JStr(target.phone)), ("gateway_id", target.gatewayId),
          ("thermostat_id", target.thermostatId), ("boiler_id", target.boilerId),
          ("option_key", optionKey), ("option_value", optionValue)])
  }

  /** The request `_send_command` makes for `device`, `option_key` and
      `option_value`. */
  function CommandRequest(prefix: string, target: CommandTarget, optionKey: Json, optionValue: Json): (c: Command)
    ensures c.url == prefix + "/ciaowarm/hass/v1/device/info"
    ensures c.headers == [("token", target.token)]
    ensures c.body == CommandBody(target, optionKey, optionValue)
  {
    Command(prefix + "/ciaowarm/hass/v1/device/info", [("token", target.token)],
            CommandBody(target, optionKey, optionValue))
  }

  /** The body holds exactly the six fields, in that order and each once. */
  lemma CommandBodyKeys(target: CommandTarget, optionKey: Json, optionValue: Json)
    ensures Keys(CommandBody(target, optionKey, optionValue).fields) == CommandFields
  {
    var fs := CommandBody(target, optionKey, optionValue).fields;
    CommandFieldsDistinct();
    KeysDistinct(fs);
  }

  /** Each field of the body reads back the value copied from the device or
      passed in. */
  lemma CommandBodyValues(target: CommandTarget, optionKey: Json, optionValue: Json)
    ensures var b := CommandBody(target, optionKey, optionValue);
      Get(b, "phone") == Some(JStr(target.phone)) &&
      Get(b, "gateway_id") == Some(target.gatewayId) &&
      Get(b, "thermostat_id") == Some(target.thermostatId) &&
      Get(b, "boiler_id") == Some(target.boilerId) &&
      Get(b, "option_key") == Some(optionKey) &&
      Get(b, "option_value") == Some(optionValue)
  {
    var fs := CommandBody(target, optionKey, optionValue).fields;
    CommandFieldsDistinct();
    FindDistinct(fs, 0);
    FindDistinct(fs, 1);
    FindDistinct(fs, 2);
    FindDistinct(fs, 3);
    FindDistinct(fs, 4);
    FindDistinct(fs, 5);
  }

  lemma CommandFieldsDistinct()
    ensures forall i, j :: 0 <= i < j < |CommandFields| ==> CommandFields[i] != CommandFields[j]
  {
    assert "gateway_id"[0] != "option_key"[0];
  }

  /** `_send_command` bodies on which `await response.json()` or
      `json_data.get` raises: an undecodable body, or a decoded value that
      is not a dict, at status 200. */
  predicate CommandRaises(resp: Response) {
    resp.Reply? && resp.status == 200 && (resp.body.Malformed? || !resp.body.value.JObj?)
  }

  /** The boolean `_send_command` returns for the response to its request. */
  function CommandSucceeded(resp: Response): (ok: bool)
    requires !CommandRaises(resp)
    ensures ok <==>
      resp.Reply? && resp.status == 200 &&
      Get(resp.body.value, "message_code").Some? && IsZero(Get(resp.body.value, "message_code").value)
  {
    match resp
    case Unreachable => false
    case Reply(status, body) =>
      status == 200 && PyEq(Get(body.value, "message_code").GetOr(JNull), JNum(0))
  }

  /** A reply the device-info validation accepts is also a successful
      command reply; commands never look at `message_info`. */
  lemma ValidatedCommandSucceeds(resp: Response)
    requires !ValidationRaises(resp) && !CommandRaises(resp)
    ensures Validate(resp).Success? ==> CommandSucceeded(resp)
  {
  }

  lemma SucceedsWithoutInfo()
    ensures
      var resp := Reply(200, Parsed(JObj([("message_code", JBool(false))])));
      !CommandRaises(resp) && !ValidationRaises(resp) &&
      CommandSucceeded(resp) && Validate(resp).Failure?
  {
    var fs := [("message_code", JBool(false))];
    assert Find(fs, "message_info").None?;
  }

  /** A command succeeds on exactly the replies the onboarding credential
      check accepts. */
  lemma SameAcceptanceAsCredentialCheck(resp: Response)
    requires !CommandRaises(resp) && !ConfigFlow.StepRaises(resp)
    ensures CommandSucceeded(resp) <==> ConfigFlow.CheckError(resp).None?
  {
  }
}
