/**
 * Two concrete exchanges worked through the model: a first device-info
 * reply listing one thermostat on gateway `g1`, and a later reply with a
 * new reading for that thermostat.
 */
module Scenarios {
  import opened Wrappers
  import opened Json
  import opened Envelope
  import opened Discovery

  const Room: Json := JObj([("thermostat_id", JNum(5)), ("thermostat_name", JStr("Room"))])
  const RoomWarm: Json :=
    JObj([("thermostat_id", JNum(5)), ("thermostat_name", JStr("Room")), ("temp", JNum(21))])

  function Gateway(thermostat: Json): Json {
    JObj([("gateway_id", JStr("g1")), ("thermostats", JArr([thermostat]))])
  }

  function Reply0(thermostat: Json): Response {
    Reply(200, Parsed(JObj([("message_code", JNum(0)), ("message_info", JArr([Gateway(thermostat)]))])))
  }

  /** The walk over one gateway entry holding a single thermostat record. */
  lemma GatewayFields(thermostat: Json)
    ensures EntryKeys(Gateway(thermostat)) == ["gateway_id", "thermostats"]
    ensures GatewayOf(Gateway(thermostat)) == JStr("g1")
    ensures ValueAt(Gateway(thermostat), "thermostats") == JArr([thermostat])
  {
    var fs := Gateway(thermostat).fields;
    assert "gateway_id"[0] != "thermostats"[0];
    KeysDistinct(fs);
    FindDistinct(fs, 0);
    FindDistinct(fs, 1);
  }

  lemma GatewayVisits(thermostat: Json)
    ensures EntryVisits(Gateway(thermostat)) == [Visit(Thermostat, JStr("g1"), thermostat)]
  {
    var item := Gateway(thermostat);
    GatewayFields(thermostat);
    var keys: seq<string> := ["gateway_id", "thermostats"];
    KeyVisitsStep(item, keys, 0);
    KeyVisitsStep(item, keys, 1);
    assert keys[..0] == [] && keys[..2] == keys;
  }

  lemma GatewayWalk(thermostat: Json)
    ensures Walk([Gateway(thermostat)]) == [Visit(Thermostat, JStr("g1"), thermostat)]
  {
    GatewayVisits(thermostat);
    WalkSingle(Gateway(thermostat));
  }

  lemma WalkSingle(item: Json)
    ensures Walk([item]) == EntryVisits(item)
  {
    var items := [item];
    WalkStep(items, 0);
    assert items[..1] == items;
    assert items[..0] == [];
  }

  lemma ReplyValidates(thermostat: Json)
    ensures !ValidationRaises(Reply0(thermostat))
    ensures Validate(Reply0(thermostat)) == Success(JArr([Gateway(thermostat)]))
  {
    EnvelopeLookup(JNum(0), JArr([Gateway(thermostat)]));
  }

  /** The record's id and name read back as written, whatever follows them. */
  lemma ThermostatFields(rest: seq<(string, Json)>)
    requires forall i :: 0 <= i < |rest| ==> rest[i].0 != "thermostat_id"
    ensures var fs := [("thermostat_id", JNum(5)), ("thermostat_name", JStr("Room"))] + rest;
      Find(fs, "thermostat_id") == Some(JNum(5))
  {
    var fs := [("thermostat_id", JNum(5)), ("thermostat_name", JStr("Room"))] + rest;
    assert "thermostat_id"[11] != "thermostat_name"[11];
    forall j | 0 < j < |fs| ensures fs[j].0 != fs[0].0 {
      if j >= 2 {
        assert fs[j] == rest[j - 2];
      }
    }
    FindKept(fs, 0);
  }

  /** A refresh over that entry hands its record to every device it
      matches, and to no other. */
  lemma GatewayReceived(thermostat: Json, kind: Kind, id: Json)
    ensures Received(Elements(JArr([Gateway(thermostat)])), kind, id) ==
      if Receives(kind, id, Visit(Thermostat, JStr("g1"), thermostat)) then [thermostat] else []
  {
    var items := [Gateway(thermostat)];
    assert Elements(JArr(items)) == items;
    GatewayWalk(thermostat);
    SingleVisit(Visit(Thermostat, JStr("g1"), thermostat), kind, id);
  }

  lemma SingleVisit(v: Visit, kind: Kind, id: Json)
    ensures Matching([v], kind, id) == if Receives(kind, id, v) then [v.record] else []
    ensures Registrations([v]) == [RegistrationOf(v)]
  {
    assert [v][..0] == [];
  }

  lemma RoomRegistration()
    ensures KeyOf(Visit(Thermostat, JStr("g1"), Room)) == JNum(5)
    ensures RegistrationOf(Visit(Thermostat, JStr("g1"), Room)) ==
      Registration("t5", Manufacturer, JStr("Room"), "thermostat")
  {
    ThermostatFields([]);
    assert Room.fields == [("thermostat_id", JNum(5)), ("thermostat_name", JStr("Room"))] + [];
    FindDistinct(Room.fields, 1);
    assert Digits(5) == "5";
  }

  /** The reply validates, and the setup pass creates and registers one
      thermostat `t5` on gateway `g1`. */
  lemma FirstPoll()
    ensures !ValidationRaises(Reply0(Room))
    ensures Validate(Reply0(Room)) == Success(JArr([Gateway(Room)]))
    ensures Walk(Elements(JArr([Gateway(Room)]))) == [Visit(Thermostat, JStr("g1"), Room)]
    ensures KeyOf(Visit(Thermostat, JStr("g1"), Room)) == JNum(5)
    ensures Registrations(Walk(Elements(JArr([Gateway(Room)])))) ==
      [Registration("t5", Manufacturer, JStr("Room"), "thermostat")]
  {
    ReplyValidates(Room);
    GatewayWalk(Room);
    RoomRegistration();
    SingleVisit(Visit(Thermostat, JStr("g1"), Room), Thermostat, JNum(5));
  }

  /** On the next refresh the thermostat with id 5 is handed the new record
      and nothing else; no boiler receives anything. */
  lemma SecondPoll()
    ensures !ValidationRaises(Reply0(RoomWarm))
    ensures Validate(Reply0(RoomWarm)) == Success(JArr([Gateway(RoomWarm)]))
    ensures Received(Elements(JArr([Gateway(RoomWarm)])), Thermostat, JNum(5)) == [RoomWarm]
    ensures forall id :: !PyEq(id, JNum(5)) ==>
      Received(Elements(JArr([Gateway(RoomWarm)])), Thermostat, id) == []
    ensures forall id :: Received(Elements(JArr([Gateway(RoomWarm)])), Boiler, id) == []
  {
    ReplyValidates(RoomWarm);
    RoomWarmKey();
    forall kind, id ensures Received(Elements(JArr([Gateway(RoomWarm)])), kind, id) ==
      if Receives(kind, id, Visit(Thermostat, JStr("g1"), RoomWarm)) then [RoomWarm] else []
    {
      GatewayReceived(RoomWarm, kind, id);
    }
  }

  lemma RoomWarmKey()
    ensures KeyOf(Visit(Thermostat, JStr("g1"), RoomWarm)) == JNum(5)
  {
    ThermostatFields([("temp", JNum(21))]);
    assert RoomWarm.fields ==
      [("thermostat_id", JNum(5)), ("thermostat_name", JStr("Room"))] + [("temp", JNum(21))];
  }
}
