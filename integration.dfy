/**
 * `async_setup_entry` and `HomeAssistantXiaowoData`: the setup pass that
 * validates the first device-info response and builds the device list, and
 * the refresh pass that updates the known devices in place.
 */
module Integration {
  import opened Wrappers
  import opened Json
  import opened Envelope
  import opened Discovery

  /** A thermostat, boiler or extBoiler device object. Its constructor
      keeps the record it was created from; `update(record)` is recorded as
      the sequence of records it has been given. */
  class Device {
    const kind: Kind
    const phone: string
    const token: string
    const gatewayId: Json
    const record: Json
    /** `thermostat_id`, `boiler_id`, or for an extBoiler `gateway_id`. */
    const id: Json
    var updates: seq<Json>

    constructor (kind: Kind, phone: string, token: string, gatewayId: Json, record: Json)
      ensures this.kind == kind && this.phone == phone && this.token == token
      ensures this.gatewayId == gatewayId && this.record == record
      ensures id == KeyOf(Visit(kind, gatewayId, record))
      ensures updates == []
    {
      this.kind := kind;
      this.phone := phone;
      this.token := token;
      this.gatewayId := gatewayId;
      this.record := record;
      this.id := KeyOf(Visit(kind, gatewayId, record));
      updates := [];
    }

    /** `device.update(record)`. */
    method Update(rec: Json)
      modifies this
      ensures updates == old(updates) + [rec]
    {
      updates := updates + [rec];
    }
  }

  /** The URL both passes poll. */
  function DeviceInfoUrl(prefix: string, phone: string): string {
    prefix + "/ciaowarm/hass/v1/device/info?phone=" + phone
  }

  /** The gateway entries of a validated `message_info`. */
  function Entries(info: Json): seq<Json> {
    Elements(info)
  }

  /** `HomeAssistantXiaowoData`: the account and its device list. */
  class XiaowoData {
    const phone: string
    const accessToken: string
    const deviceInfoUrl: string
    const headers: seq<(string, string)>
    var deviceList: seq<Device>

    /** Each device object appears once in the list. */
    ghost predicate Valid()
      reads this
    {
      forall i, j :: 0 <= i < j < |deviceList| ==> deviceList[i] != deviceList[j]
    }

    constructor (prefix: string, phone: string, accessToken: string, devices: seq<Device>)
      requires forall i, j :: 0 <= i < j < |devices| ==> devices[i] != devices[j]
      ensures Valid()
      ensures this.phone == phone && this.accessToken == accessToken
      ensures deviceInfoUrl == DeviceInfoUrl(prefix, phone)
      ensures headers == [("token", accessToken)]
      ensures deviceList == devices
    {
      this.phone := phone;
      this.accessToken := accessToken;
      deviceInfoUrl := DeviceInfoUrl(prefix, phone);
      headers := [("token", accessToken)];
      deviceList := devices;
    }

    /** Some known device is of this kind. */
    predicate Holds(kind: Kind)
      reads this
    {
      exists t :: 0 <= t < |deviceList| && deviceList[t].kind == kind
    }

    /** The comparison key of a visited record, read only when a device of
        its kind is met: `record['thermostat_id']`, `record['boiler_id']`,
        or the entry's `gateway_id`. */
    predicate KeyReadable(v: Visit) {
      v.kind == ExtBoiler || HasMember(v.record, if v.kind == Thermostat then "thermostat_id" else "boiler_id")
    }

    /** The innermost loop: `for device in self.device_list: if
        isinstance(device, K) and device.<id> == <record id>:
        device.update(record)`. */
    method Deliver(v: Visit)
      requires Valid()
      requires Holds(v.kind) ==> KeyReadable(v)
      modifies deviceList
      ensures forall t :: 0 <= t < |deviceList| ==>
        deviceList[t].updates == old(deviceList[t].updates) +
          (if Receives(deviceList[t].kind, deviceList[t].id, v) then [v.record] else [])
    {
      for j := 0 to |deviceList|
        invariant forall t :: 0 <= t < j ==>
          deviceList[t].updates == old(deviceList[t].updates) +
            (if Receives(deviceList[t].kind, deviceList[t].id, v) then [v.record] else [])
        invariant forall t :: j <= t < |deviceList| ==> deviceList[t].updates == old(deviceList[t].updates)
      {
        var device := deviceList[j];
        if device.kind == v.kind {
          var key := if v.kind == ExtBoiler then v.gatewayId
            else Get(v.record, if v.kind == Thermostat then "thermostat_id" else "boiler_id").value;
          if PyEq(device.id, key) {
            device.Update(v.record);
          }
        }
      }
    }

    /** `async_update`: validate the response, then hand every record of
        the payload to the matching known devices. Returns False on a
        rejected response and None (falling off the end) otherwise, also
        when the request itself failed. */
    method Refresh(resp: Response) returns (r: Option<bool>)
      requires Valid()
      requires !ValidationRaises(resp)
      requires Validate(resp).Success? ==>
        PayloadSafe(Validate(resp).value, Holds(Thermostat), Holds(Boiler), false)
      modifies deviceList
      ensures deviceList == old(deviceList)
      ensures r == (if Validate(resp).Failure? && resp.Reply? then Some(false) else None)
      ensures Validate(resp).Failure? ==>
        forall t :: 0 <= t < |deviceList| ==> deviceList[t].updates == old(deviceList[t].updates)
      ensures Validate(resp).Success? ==>
        forall t :: 0 <= t < |deviceList| ==>
          deviceList[t].updates == old(deviceList[t].updates) +
            Received(Entries(Validate(resp).value), deviceList[t].kind, deviceList[t].id)
    {
      var validated := Validate(resp);
      if validated.Failure? {
        r := if resp.Reply? then Some(false) else None;
        return;
      }
      var items := Iterate(validated.value).value;
      RefreshEntries(items);
      r := None;
    }

    /** `for item in json_data["message_info"]:` */
    method RefreshEntries(items: seq<Json>)
      requires Valid()
      requires forall item :: item in items ==> EntrySafe(item, Holds(Thermostat), Holds(Boiler), false)
      modifies deviceList
      ensures forall t :: 0 <= t < |deviceList| ==>
        deviceList[t].updates == old(deviceList[t].updates) +
          Received(items, deviceList[t].kind, deviceList[t].id)
    {
      for i := 0 to |items|
        invariant forall t :: 0 <= t < |deviceList| ==>
          deviceList[t].updates == old(deviceList[t].updates) +
            Matching(Walk(items[..i]), deviceList[t].kind, deviceList[t].id)
      {
        RefreshEntry(items[i]);
        forall t | 0 <= t < |deviceList|
          ensures deviceList[t].updates == old(deviceList[t].updates) +
            Matching(Walk(items[..i + 1]), deviceList[t].kind, deviceList[t].id)
        {
          var d := deviceList[t];
          ReceivedStep(items, i, d.kind, d.id);
          ConcatAssoc(old(d.updates), Matching(Walk(items[..i]), d.kind, d.id), Matching(EntryVisits(items[i]), d.kind, d.id));
        }
      }
      assert items[..|items|] == items;
    }

    /** The loop over the keys of one gateway entry. */
    method RefreshEntry(item: Json)
      requires Valid()
      requires EntrySafe(item, Holds(Thermostat), Holds(Boiler), false)
      modifies deviceList
      ensures forall t :: 0 <= t < |deviceList| ==>
        deviceList[t].updates == old(deviceList[t].updates) +
          Matching(EntryVisits(item), deviceList[t].kind, deviceList[t].id)
    {
      var gatewayId := Get(item, "gateway_id").value;
      var keys := Keys(item.fields);
      assert keys == EntryKeys(item);
      for k := 0 to |keys|
        invariant forall t :: 0 <= t < |deviceList| ==>
          deviceList[t].updates == old(deviceList[t].updates) +
            Matching(KeyVisits(item, keys[..k]), deviceList[t].kind, deviceList[t].id)
      {
        var key := keys[k];
        var value := Get(item, key).value;
        RefreshField(gatewayId, key, value);
        forall t | 0 <= t < |deviceList|
          ensures deviceList[t].updates == old(deviceList[t].updates) +
            Matching(KeyVisits(item, keys[..k + 1]), deviceList[t].kind, deviceList[t].id)
        {
          var d := deviceList[t];
          KeyVisitsStep(item, keys, k);
          MatchingAppend(KeyVisits(item, keys[..k]), FieldVisits(gatewayId, key, value), d.kind, d.id);
          ConcatAssoc(old(d.updates), Matching(KeyVisits(item, keys[..k]), d.kind, d.id),
            Matching(FieldVisits(gatewayId, key, value), d.kind, d.id));
        }
      }
      assert keys[..|keys|] == keys;
    }

    /** The three branches on a key of a gateway entry; other keys are
        skipped. */
    method RefreshField(gatewayId: Json, key: string, value: Json)
      requires Valid()
      requires key == "thermostats" ==> ListSafe(value, Holds(Thermostat), "thermostat_id", false)
      requires key == "boilers" ==> ListSafe(value, Holds(Boiler), "boiler_id", false)
      modifies deviceList
      ensures forall t :: 0 <= t < |deviceList| ==>
        deviceList[t].updates == old(deviceList[t].updates) +
          Matching(FieldVisits(gatewayId, key, value), deviceList[t].kind, deviceList[t].id)
    {
      if key == "thermostats" {
        var thermostats := Iterate(value).value;
        DeliverAll(Thermostat, gatewayId, thermostats);
      } else if key == "boilers" {
        var boilers := Iterate(value).value;
        DeliverAll(Boiler, gatewayId, boilers);
      } else if key == "extBoiler" {
        var v := Visit(ExtBoiler, gatewayId, value);
        Deliver(v);
        assert FieldVisits(gatewayId, key, value) == [v];
        assert [v][..0] == [];
      }
    }

    /** `for record in records:` around the device loop. */
    method DeliverAll(kind: Kind, gatewayId: Json, records: seq<Json>)
      requires Valid()
      requires Holds(kind) ==> forall r :: r in records ==> KeyReadable(Visit(kind, gatewayId, r))
      modifies deviceList
      ensures forall t :: 0 <= t < |deviceList| ==>
        deviceList[t].updates == old(deviceList[t].updates) +
          Matching(Tag(kind, gatewayId, records), deviceList[t].kind, deviceList[t].id)
    {
      for e := 0 to |records|
        invariant forall t :: 0 <= t < |deviceList| ==>
          deviceList[t].updates == old(deviceList[t].updates) +
            Matching(Tag(kind, gatewayId, records[..e]), deviceList[t].kind, deviceList[t].id)
      {
        var v := Visit(kind, gatewayId, records[e]);
        Deliver(v);
        forall t | 0 <= t < |deviceList|
          ensures deviceList[t].updates == old(deviceList[t].updates) +
            Matching(Tag(kind, gatewayId, records[..e + 1]), deviceList[t].kind, deviceList[t].id)
        {
          var d := deviceList[t];
          TagStep(kind, gatewayId, records, e);
          MatchingAppend(Tag(kind, gatewayId, records[..e]), [v], d.kind, d.id);
          ConcatAssoc(old(d.updates), Matching(Tag(kind, gatewayId, records[..e]), d.kind, d.id),
            Matching([v], d.kind, d.id));
        }
      }
      assert records[..|records|] == records;
    }
  }

  // ---------------------------------------------------------------------
  // async_setup_entry

  /** `not phone or not access_token` is false. */
  predicate Configured(phone: Option<string>, accessToken: Option<string>) {
    phone.Some? && phone.value != "" && accessToken.Some? && accessToken.value != ""
  }

  /** Some visit is of this kind. */
  predicate ListsKind(vs: seq<Visit>, kind: Kind) {
    exists i :: 0 <= i < |vs| && vs[i].kind == kind
  }

  /** Device `t` was built from visit `vs[t]` for this account. */
  predicate Built(devices: seq<Device>, vs: seq<Visit>, phone: string, token: string) {
    |devices| == |vs| &&
    forall t :: 0 <= t < |vs| ==>
      devices[t].kind == vs[t].kind && devices[t].gatewayId == vs[t].gatewayId &&
      devices[t].record == vs[t].record && devices[t].id == KeyOf(vs[t]) &&
      devices[t].phone == phone && devices[t].token == token
  }

  predicate Distinct(devices: seq<Device>) {
    forall i, j :: 0 <= i < j < |devices| ==> devices[i] != devices[j]
  }

  /** The payload the first, eager refresh hands to a device built from `v`. */
  function FirstUpdates(first: Response, v: Visit): seq<Json>
    requires !ValidationRaises(first)
  {
    if Validate(first).Success? then Received(Entries(Validate(first).value), v.kind, KeyOf(v)) else []
  }

  lemma BuiltAppend(d1: seq<Device>, v1: seq<Visit>, d2: seq<Device>, v2: seq<Visit>, phone: string, token: string)
    requires Built(d1, v1, phone, token) && Built(d2, v2, phone, token)
    ensures Built(d1 + d2, v1 + v2, phone, token)
  {
    forall t | |d1| <= t < |d1| + |d2|
      ensures (d1 + d2)[t] == d2[t - |d1|] && (v1 + v2)[t] == v2[t - |d1|]
    {
    }
  }

  lemma DistinctAppend(a: seq<Device>, b: seq<Device>)
    requires Distinct(a) && Distinct(b)
    requires forall i, j :: 0 <= i < |a| && 0 <= j < |b| ==> a[i] != b[j]
    ensures Distinct(a + b)
  {
  }

  /** `async_setup_entry`: check the configuration, validate the device-info
      response `resp`, create one device and one registry entry per record
      of its payload, then build the account data and run the eager refresh
      against `first`. Scheduling the periodic refresh and forwarding the
      platforms are not part of the model. */
  method SetupEntry(prefix: string, phone: Option<string>, accessToken: Option<string>,
                    resp: Response, first: Response)
    returns (ok: bool, data: XiaowoData?, registrations: seq<Registration>)
    requires Configured(phone, accessToken) ==> !ValidationRaises(resp)
    requires Configured(phone, accessToken) && Validate(resp).Success? ==>
      PayloadSafe(Validate(resp).value, true, true, true) && !ValidationRaises(first)
    requires Configured(phone, accessToken) && Validate(resp).Success? && Validate(first).Success? ==>
      var vs := Walk(Entries(Validate(resp).value));
      PayloadSafe(Validate(first).value, ListsKind(vs, Thermostat), ListsKind(vs, Boiler), false)
    ensures ok <==> Configured(phone, accessToken) && Validate(resp).Success?
    ensures !ok ==> data == null && registrations == []
    ensures ok ==>
      var vs := Walk(Entries(Validate(resp).value));
      data != null && fresh(data) && data.Valid() &&
      data.phone == phone.value && data.accessToken == accessToken.value &&
      data.deviceInfoUrl == DeviceInfoUrl(prefix, phone.value) &&
      Built(data.deviceList, vs, phone.value, accessToken.value) &&
      registrations == Registrations(vs) &&
      forall t :: 0 <= t < |vs| ==>
        fresh(data.deviceList[t]) && data.deviceList[t].updates == FirstUpdates(first, vs[t])
  {
    if !Configured(phone, accessToken) {
      return false, null, [];
    }
    var validated := Validate(resp);
    if validated.Failure? {
      return false, null, [];
    }
    var ph, token := phone.value, accessToken.value;
    var items := Iterate(validated.value).value;
    var devices;
    devices, registrations := DiscoverAll(ph, token, items);
    data := StartData(prefix, ph, token, devices, Walk(items), first);
    ok := true;
  }

  /** The end of setup: build the account data over the new devices and run
      the eager refresh against `first`. */
  method StartData(prefix: string, phone: string, token: string, devices: seq<Device>,
                   ghost vs: seq<Visit>, first: Response)
    returns (data: XiaowoData)
    requires Built(devices, vs, phone, token) && Distinct(devices)
    requires forall t :: 0 <= t < |devices| ==> devices[t].updates == []
    requires !ValidationRaises(first)
    requires Validate(first).Success? ==>
      PayloadSafe(Validate(first).value, ListsKind(vs, Thermostat), ListsKind(vs, Boiler), false)
    modifies devices
    ensures fresh(data) && data.Valid() && data.deviceList == devices
    ensures data.phone == phone && data.accessToken == token && data.deviceInfoUrl == DeviceInfoUrl(prefix, phone)
    ensures forall t :: 0 <= t < |vs| ==> devices[t].updates == FirstUpdates(first, vs[t])
  {
    data := new XiaowoData(prefix, phone, token, devices);
    assert data.Holds(Thermostat) == ListsKind(vs, Thermostat);
    assert data.Holds(Boiler) == ListsKind(vs, Boiler);
    var _ := data.Refresh(first);
  }

  /** The loop over the gateway entries during setup. */
  method DiscoverAll(phone: string, token: string, items: seq<Json>)
    returns (devices: seq<Device>, registrations: seq<Registration>)
    requires forall item :: item in items ==> EntrySafe(item, true, true, true)
    ensures Built(devices, Walk(items), phone, token) && Distinct(devices)
    ensures registrations == Registrations(Walk(items))
    ensures forall t :: 0 <= t < |devices| ==> fresh(devices[t]) && devices[t].updates == []
  {
    devices, registrations := [], [];
    for i := 0 to |items|
      invariant Built(devices, Walk(items[..i]), phone, token) && Distinct(devices)
      invariant registrations == Registrations(Walk(items[..i]))
      invariant forall t :: 0 <= t < |devices| ==> fresh(devices[t]) && devices[t].updates == []
    {
      var created, regs := DiscoverEntry(phone, token, items[i]);
      WalkStep(items, i);
      BuiltAppend(devices, Walk(items[..i]), created, EntryVisits(items[i]), phone, token);
      forall a, b | 0 <= a < |devices| && 0 <= b < |created| ensures devices[a] != created[b] {
      }
      DistinctAppend(devices, created);
      RegistrationsAppend(Walk(items[..i]), EntryVisits(items[i]));
      forall t | 0 <= t < |devices| + |created|
        ensures fresh((devices + created)[t]) && (devices + created)[t].updates == []
      {
        if t >= |devices| {
          assert (devices + created)[t] == created[t - |devices|];
        }
      }
      devices := devices + created;
      registrations := registrations + regs;
    }
    assert items[..|items|] == items;
  }

  /** The loop over the keys of one gateway entry during setup. */
  method DiscoverEntry(phone: string, token: string, item: Json)
    returns (created: seq<Device>, regs: seq<Registration>)
    requires EntrySafe(item, true, true, true)
    ensures Built(created, EntryVisits(item), phone, token) && Distinct(created)
    ensures regs == Registrations(EntryVisits(item))
    ensures forall t :: 0 <= t < |created| ==> fresh(created[t]) && created[t].updates == []
  {
    var gatewayId := Get(item, "gateway_id").value;
    var keys := Keys(item.fields);
    assert keys == EntryKeys(item);
    created, regs := [], [];
    for k := 0 to |keys|
      invariant Built(created, KeyVisits(item, keys[..k]), phone, token) && Distinct(created)
      invariant regs == Registrations(KeyVisits(item, keys[..k]))
      invariant forall t :: 0 <= t < |created| ==> fresh(created[t]) && created[t].updates == []
    {
      var key := keys[k];
      var value := Get(item, key).value;
      var more, moreRegs := DiscoverField(phone, token, gatewayId, key, value);
      ghost var before := KeyVisits(item, keys[..k]);
      KeyVisitsStep(item, keys, k);
      BuiltAppend(created, before, more, FieldVisits(gatewayId, key, value), phone, token);
      forall i, j | 0 <= i < |created| && 0 <= j < |more| ensures created[i] != more[j] {
      }
      DistinctAppend(created, more);
      RegistrationsAppend(before, FieldVisits(gatewayId, key, value));
      forall t | 0 <= t < |created| + |more|
        ensures fresh((created + more)[t]) && (created + more)[t].updates == []
      {
        if t >= |created| {
          assert (created + more)[t] == more[t - |created|];
        }
      }
      created := created + more;
      regs := regs + moreRegs;
    }
    assert keys[..|keys|] == keys;
  }

  /** One key of a gateway entry during setup: the three branches of the
      key loop; other keys create nothing. */
  method DiscoverField(phone: string, token: string, gatewayId: Json, key: string, value: Json)
    returns (created: seq<Device>, regs: seq<Registration>)
    requires key == "thermostats" ==> ListSafe(value, true, "thermostat_id", true)
    requires key == "boilers" ==> ListSafe(value, true, "boiler_id", false)
    ensures Built(created, FieldVisits(gatewayId, key, value), phone, token) && Distinct(created)
    ensures regs == Registrations(FieldVisits(gatewayId, key, value))
    ensures forall t :: 0 <= t < |created| ==> fresh(created[t]) && created[t].updates == []
  {
    if key == "thermostats" {
      created, regs := DiscoverRecords(phone, token, Thermostat, gatewayId, Iterate(value).value);
    } else if key == "boilers" {
      created, regs := DiscoverRecords(phone, token, Boiler, gatewayId, Iterate(value).value);
    } else if key == "extBoiler" {
      created, regs := DiscoverRecords(phone, token, ExtBoiler, gatewayId, [value]);
    } else {
      created, regs := [], [];
    }
  }

  /** One branch of the key loop: for each record, append a new device and
      register `(identifier, name, model)`. */
  method DiscoverRecords(phone: string, token: string, kind: Kind, gatewayId: Json, records: seq<Json>)
    returns (created: seq<Device>, regs: seq<Registration>)
    requires kind == Thermostat ==>
      forall r :: r in records ==> HasMember(r, "thermostat_id") && HasMember(r, "thermostat_name")
    requires kind == Boiler ==> forall r :: r in records ==> HasMember(r, "boiler_id")
    ensures Built(created, Tag(kind, gatewayId, records), phone, token) && Distinct(created)
    ensures regs == Registrations(Tag(kind, gatewayId, records))
    ensures forall t :: 0 <= t < |created| ==> fresh(created[t]) && created[t].updates == []
  {
    created, regs := [], [];
    for e := 0 to |records|
      invariant Built(created, Tag(kind, gatewayId, records[..e]), phone, token) && Distinct(created)
      invariant regs == Registrations(Tag(kind, gatewayId, records[..e]))
      invariant forall t :: 0 <= t < |created| ==> fresh(created[t]) && created[t].updates == []
    {
      var rec := records[e];
      assert rec in records;
      var device := new Device(kind, phone, token, gatewayId, rec);
      var reg := Register(kind, gatewayId, rec);
      ghost var v := Visit(kind, gatewayId, rec);
      TagStep(kind, gatewayId, records, e);
      BuiltAppend(created, Tag(kind, gatewayId, records[..e]), [device], [v], phone, token);
      DistinctAppend(created, [device]);
      RegistrationsAppend(Tag(kind, gatewayId, records[..e]), [v]);
      forall t | 0 <= t < |created| + 1
        ensures fresh((created + [device])[t]) && (created + [device])[t].updates == []
      {
      }
      created := created + [device];
      regs := regs + [reg];
    }
    assert records[..|records|] == records;
  }

  /** The `device_registry.async_get_or_create` arguments for one record. */
  method Register(kind: Kind, gatewayId: Json, rec: Json) returns (reg: Registration)
    requires kind == Thermostat ==> HasMember(rec, "thermostat_id") && HasMember(rec, "thermostat_name")
    requires kind == Boiler ==> HasMember(rec, "boiler_id")
    ensures reg == RegistrationOf(Visit(kind, gatewayId, rec))
  {
    match kind
    case Thermostat =>
      reg := Registration("t" + PyStr(Get(rec, "thermostat_id").value), "IWARM TECH CO., LTD.",
                          Get(rec, "thermostat_name").value, "thermostat");
    case Boiler =>
      reg := Registration("b" + PyStr(Get(rec, "boiler_id").value), "IWARM TECH CO., LTD.",
                          JStr("小沃壁挂炉"), "boiler");
    case ExtBoiler =>
      reg := Registration("e" + PyStr(gatewayId), "IWARM TECH CO., LTD.", JStr("第三方壁挂炉"), "extBoiler");
  }
}
