/**
 * The device hierarchy inside `message_info` and what the two passes over
 * it do: the setup pass in `async_setup_entry` creates one device and one
 * registry entry per visited record, and the refresh pass in
 * `async_update` hands each visited record to the matching known devices.
 * Both passes walk the payload the same way: gateway entries in order, the
 * keys of each entry in dict order, the records under each key in order.
 */
module Discovery {
  import opened Wrappers
  import opened Json

  /** The three device classes, a closed set. */
  datatype Kind = Thermostat | Boiler | ExtBoiler

  /** The gateway-entry key under which devices of a kind are listed. */
  function KeyFor(kind: Kind): string {
    match kind
    case Thermostat => "thermostats"
    case Boiler => "boilers"
    case ExtBoiler => "extBoiler"
  }

  /** The branch a key of a gateway entry takes; other keys are ignored. */
  function KindOfKey(key: string): (k: Option<Kind>)
    ensures k.Some? <==> key in {"thermostats", "boilers", "extBoiler"}
    ensures k.Some? ==> KeyFor(k.value) == key
  {
    if key == "thermostats" then Some(Thermostat)
    else if key == "boilers" then Some(Boiler)
    else if key == "extBoiler" then Some(ExtBoiler)
    else None
  }

  /** What `for x in value` visits; nothing where the value is not iterable. */
  function Elements(value: Json): seq<Json> {
    Iterate(value).GetOr([])
  }

  /** The device records under one key: every element of a `thermostats` or
      `boilers` list, the single `extBoiler` object, nothing otherwise. */
  function FieldRecords(key: string, value: Json): seq<Json> {
    match KindOfKey(key)
    case None => []
    case Some(ExtBoiler) => [value]
    case Some(_) => Elements(value)
  }

  /** One record met by the walk, with its kind and enclosing `gateway_id`. */
  datatype Visit = Visit(kind: Kind, gatewayId: Json, record: Json)

  function Tag(kind: Kind, gatewayId: Json, recs: seq<Json>): (vs: seq<Visit>)
    ensures |vs| == |recs|
    ensures forall i :: 0 <= i < |recs| ==> vs[i] == Visit(kind, gatewayId, recs[i])
  {
    seq(|recs|, i requires 0 <= i < |recs| => Visit(kind, gatewayId, recs[i]))
  }

  function FieldVisits(gatewayId: Json, key: string, value: Json): seq<Visit> {
    match KindOfKey(key)
    case None => []
    case Some(kind) => Tag(kind, gatewayId, FieldRecords(key, value))
  }

  /** `item['gateway_id']`. */
  function GatewayOf(item: Json): Json {
    Get(item, "gateway_id").GetOr(JNull)
  }

  /** `item[key]` for a key the entry holds. */
  function ValueAt(item: Json, key: string): Json {
    Get(item, key).GetOr(JNull)
  }

  /** The keys of a gateway entry in iteration order. */
  function EntryKeys(item: Json): seq<string> {
    if item.JObj? then Keys(item.fields) else []
  }

  /** The visits made while iterating the given keys of one entry. */
  function KeyVisits(item: Json, keys: seq<string>): seq<Visit> {
    if keys == [] then []
    else
      var key := keys[|keys| - 1];
      KeyVisits(item, keys[..|keys| - 1]) + FieldVisits(GatewayOf(item), key, ValueAt(item, key))
  }

  function EntryVisits(item: Json): seq<Visit> {
    KeyVisits(item, EntryKeys(item))
  }

  /** Every visit of both passes over the gateway entries `items`, in order. */
  function Walk(items: seq<Json>): seq<Visit> {
    if items == [] then []
    else Walk(items[..|items| - 1]) + EntryVisits(items[|items| - 1])
  }

  // ---------------------------------------------------------------------
  // Where the passes raise. Both passes index `item['gateway_id']` and
  // iterate the `thermostats` and `boilers` values; the setup pass also
  // reads every record's id (and a thermostat's name), the refresh pass
  // only when some known device has the record's kind.

  /** `rec[key]` succeeds. */
  predicate HasMember(rec: Json, key: string) {
    Get(rec, key).Some?
  }

  predicate ListSafe(value: Json, readIds: bool, idKey: string, readNames: bool) {
    Iterate(value).Some? &&
    forall rec :: rec in Iterate(value).value ==>
      (readIds ==> HasMember(rec, idKey)) && (readNames ==> HasMember(rec, "thermostat_name"))
  }

  predicate EntrySafe(item: Json, thermostatIds: bool, boilerIds: bool, names: bool) {
    item.JObj? && HasMember(item, "gateway_id") &&
    (HasMember(item, "thermostats") ==>
      ListSafe(ValueAt(item, "thermostats"), thermostatIds, "thermostat_id", names)) &&
    (HasMember(item, "boilers") ==>
      ListSafe(ValueAt(item, "boilers"), boilerIds, "boiler_id", false))
  }

  /** The pass over `info` raises no KeyError or TypeError. */
  predicate PayloadSafe(info: Json, thermostatIds: bool, boilerIds: bool, names: bool) {
    Iterate(info).Some? &&
    forall item :: item in Iterate(info).value ==> EntrySafe(item, thermostatIds, boilerIds, names)
  }

  // ---------------------------------------------------------------------
  // Registry entries emitted by the setup pass.

  const Manufacturer: string := "IWARM TECH CO., LTD."

  /** `(identifier, manufacturer, name, model)` passed to `async_get_or_create`. */
  datatype Registration = Registration(identifier: string, manufacturer: string, name: Json, model: string)

  /** The id a device of this kind is matched by: `thermostat_id`,
      `boiler_id`, or for an extBoiler its `gateway_id`. */
  function KeyOf(v: Visit): Json {
    match v.kind
    case Thermostat => ValueAt(v.record, "thermostat_id")
    case Boiler => ValueAt(v.record, "boiler_id")
    case ExtBoiler => v.gatewayId
  }

  function Prefix(kind: Kind): string {
    match kind
    case Thermostat => "t"
    case Boiler => "b"
    case ExtBoiler => "e"
  }

  function ModelName(kind: Kind): string {
    match kind
    case Thermostat => "thermostat"
    case Boiler => "boiler"
    case ExtBoiler => "extBoiler"
  }

  /** `"t" + str(thermostat_id)`, `"b" + str(boiler_id)`, `"e" + str(gateway_id)`. */
  function Identifier(v: Visit): string {
    Prefix(v.kind) + PyStr(KeyOf(v))
  }

  function RegistrationOf(v: Visit): (r: Registration)
    ensures r.identifier == Identifier(v) && r.manufacturer == Manufacturer && r.model == ModelName(v.kind)
    ensures r.name == match v.kind
      case Thermostat => ValueAt(v.record, "thermostat_name")
      case Boiler => JStr("小沃壁挂炉")
      case ExtBoiler => JStr("第三方壁挂炉")
  {
    match v.kind
    case Thermostat => Registration(Identifier(v), Manufacturer, ValueAt(v.record, "thermostat_name"), "thermostat")
    case Boiler => Registration(Identifier(v), Manufacturer, JStr("小沃壁挂炉"), "boiler")
    case ExtBoiler => Registration(Identifier(v), Manufacturer, JStr("第三方壁挂炉"), "extBoiler")
  }

  function Registrations(vs: seq<Visit>): (rs: seq<Registration>)
    ensures |rs| == |vs| && forall i :: 0 <= i < |vs| ==> rs[i] == RegistrationOf(vs[i])
  {
    seq(|vs|, i requires 0 <= i < |vs| => RegistrationOf(vs[i]))
  }

  lemma RegistrationsAppend(a: seq<Visit>, b: seq<Visit>)
    ensures Registrations(a + b) == Registrations(a) + Registrations(b)
  {
    assert |Registrations(a + b)| == |Registrations(a) + Registrations(b)|;
    forall i | 0 <= i < |a + b|
      ensures Registrations(a + b)[i] == (Registrations(a) + Registrations(b))[i]
    {
      if i >= |a| {
        assert (a + b)[i] == b[i - |a|];
      }
    }
  }

  // ---------------------------------------------------------------------
  // Records handed to known devices by the refresh pass.

  /** A known device of kind `kind` whose matching id is `id` is updated
      with visited record `v`: same kind, and Python-equal ids. */
  predicate Receives(kind: Kind, id: Json, v: Visit) {
    v.kind == kind && PyEq(id, KeyOf(v))
  }

  /** The records, in order, that one device receives from the visits `vs`. */
  function Matching(vs: seq<Visit>, kind: Kind, id: Json): seq<Json> {
    if vs == [] then []
    else
      var v := vs[|vs| - 1];
      Matching(vs[..|vs| - 1], kind, id) + (if Receives(kind, id, v) then [v.record] else [])
  }

  /** What one refresh over the gateway entries `items` passes to a device. */
  function Received(items: seq<Json>, kind: Kind, id: Json): seq<Json> {
    Matching(Walk(items), kind, id)
  }

  // ---------------------------------------------------------------------
  // Order and membership of the walk.

  /** Visits follow gateway order: walking two runs of entries is walking
      the first, then the second. */
  lemma {:induction false} WalkAppend(a: seq<Json>, b: seq<Json>)
    ensures Walk(a + b) == Walk(a) + Walk(b)
    decreases |b|
  {
    if b == [] {
      assert a + b == a;
    } else {
      var init, last := b[..|b| - 1], b[|b| - 1];
      calc {
        Walk(a + b);
        { assert (a + b)[..|a + b| - 1] == a + init && (a + b)[|a + b| - 1] == last; }
        Walk(a + init) + EntryVisits(last);
        { WalkAppend(a, init); }
        Walk(a) + Walk(init) + EntryVisits(last);
      }
    }
  }

  lemma TagStep(kind: Kind, gatewayId: Json, recs: seq<Json>, e: int)
    requires 0 <= e < |recs|
    ensures Tag(kind, gatewayId, recs[..e + 1]) == Tag(kind, gatewayId, recs[..e]) + [Visit(kind, gatewayId, recs[e])]
  {
  }

  lemma KeyVisitsStep(item: Json, keys: seq<string>, k: int)
    requires 0 <= k < |keys|
    ensures KeyVisits(item, keys[..k + 1]) ==
      KeyVisits(item, keys[..k]) + FieldVisits(GatewayOf(item), keys[k], ValueAt(item, keys[k]))
  {
    assert keys[..k + 1][..k] == keys[..k];
  }

  /** One more entry adds its visits at the end. */
  lemma WalkStep(items: seq<Json>, i: int)
    requires 0 <= i < |items|
    ensures Walk(items[..i + 1]) == Walk(items[..i]) + EntryVisits(items[i])
  {
    assert items[..i + 1][..i] == items[..i];
  }

  /** Records reached through each key of the entry, as the source's three
      branches emit them. */
  predicate InEntry(item: Json, v: Visit) {
    HasMember(item, KeyFor(v.kind)) && v.gatewayId == GatewayOf(item) &&
    v.record in FieldRecords(KeyFor(v.kind), ValueAt(item, KeyFor(v.kind)))
  }

  lemma FieldVisitsMembership(gatewayId: Json, key: string, value: Json, v: Visit)
    ensures v in FieldVisits(gatewayId, key, value) <==>
      key == KeyFor(v.kind) && v.gatewayId == gatewayId && v.record in FieldRecords(key, value)
  {
    if KindOfKey(key).Some? {
      var fv, recs := FieldVisits(gatewayId, key, value), FieldRecords(key, value);
      if v in fv {
        var i :| 0 <= i < |fv| && fv[i] == v;
        assert v.record == recs[i];
      }
      if key == KeyFor(v.kind) && v.gatewayId == gatewayId && v.record in recs {
        var i :| 0 <= i < |recs| && recs[i] == v.record;
        assert fv[i] == v;
      }
    }
  }

  lemma {:induction false} KeyVisitsMembership(item: Json, keys: seq<string>, v: Visit)
    ensures v in KeyVisits(item, keys) <==>
      KeyFor(v.kind) in keys && v.gatewayId == GatewayOf(item) &&
      v.record in FieldRecords(KeyFor(v.kind), ValueAt(item, KeyFor(v.kind)))
    decreases |keys|
  {
    if keys != [] {
      var init, key := keys[..|keys| - 1], keys[|keys| - 1];
      KeyVisitsMembership(item, init, v);
      FieldVisitsMembership(GatewayOf(item), key, ValueAt(item, key), v);
      assert keys == init + [key];
      assert KeyVisits(item, keys) ==
        KeyVisits(item, init) + FieldVisits(GatewayOf(item), key, ValueAt(item, key));
    }
  }

  /** A visit comes from an entry exactly when that entry lists its record
      under its kind's key, tagged with the entry's `gateway_id`. */
  lemma EntryMembership(item: Json, v: Visit)
    ensures v in EntryVisits(item) <==> InEntry(item, v)
  {
    KeyVisitsMembership(item, EntryKeys(item), v);
  }

  /** The walk visits exactly the records the entries list under the three
      device keys; nothing else, and nothing under any other key. */
  lemma {:induction false} WalkMembership(items: seq<Json>, v: Visit)
    ensures v in Walk(items) <==> exists i :: 0 <= i < |items| && InEntry(items[i], v)
    decreases |items|
  {
    if items != [] {
      var init, last := items[..|items| - 1], items[|items| - 1];
      WalkMembership(init, v);
      EntryMembership(last, v);
      assert Walk(items) == Walk(init) + EntryVisits(last);
      if v in Walk(init) {
        var i :| 0 <= i < |init| && InEntry(init[i], v);
        assert items[i] == init[i];
      } else if v in EntryVisits(last) {
        assert InEntry(items[|items| - 1], v);
      } else {
        forall i | 0 <= i < |items| ensures !InEntry(items[i], v) {
          if i < |items| - 1 {
            assert init[i] == items[i];
          }
        }
      }
    }
  }

  /** Every visit of an entry carries that entry's `gateway_id`. */
  lemma EntryTagged(item: Json)
    ensures forall v :: v in EntryVisits(item) ==> v.gatewayId == GatewayOf(item)
  {
    forall v | v in EntryVisits(item) ensures v.gatewayId == GatewayOf(item) {
      EntryMembership(item, v);
    }
  }

  // ---------------------------------------------------------------------
  // How many devices the setup pass creates.

  /** Devices one entry lists under the kind's key. */
  function KindCount(item: Json, kind: Kind): nat {
    if HasMember(item, KeyFor(kind))
    then |FieldRecords(KeyFor(kind), ValueAt(item, KeyFor(kind)))|
    else 0
  }

  /** One device per `thermostats` element, one per `boilers` element, one
      for an `extBoiler` member, none for other keys. */
  function ExpectedCount(item: Json): nat {
    KindCount(item, Thermostat) + KindCount(item, Boiler) + KindCount(item, ExtBoiler)
  }

  function TotalCount(items: seq<Json>): nat {
    if items == [] then 0 else TotalCount(items[..|items| - 1]) + ExpectedCount(items[|items| - 1])
  }

  function CountOver(item: Json, keys: seq<string>, kind: Kind): nat {
    if KeyFor(kind) in keys then |FieldRecords(KeyFor(kind), ValueAt(item, KeyFor(kind)))| else 0
  }

  lemma FieldVisitsCount(gatewayId: Json, key: string, value: Json)
    ensures |FieldVisits(gatewayId, key, value)| ==
      (if key == KeyFor(Thermostat) then |FieldRecords(key, value)| else 0) +
      (if key == KeyFor(Boiler) then |FieldRecords(key, value)| else 0) +
      (if key == KeyFor(ExtBoiler) then |FieldRecords(key, value)| else 0)
  {
  }

  lemma {:induction false} KeyVisitsCount(item: Json, keys: seq<string>)
    requires forall i, j :: 0 <= i < j < |keys| ==> keys[i] != keys[j]
    ensures |KeyVisits(item, keys)| ==
      CountOver(item, keys, Thermostat) + CountOver(item, keys, Boiler) + CountOver(item, keys, ExtBoiler)
    decreases |keys|
  {
    if keys != [] {
      var init, key := keys[..|keys| - 1], keys[|keys| - 1];
      assert keys == init + [key];
      assert key !in init;
      KeyVisitsCount(item, init);
      FieldVisitsCount(GatewayOf(item), key, ValueAt(item, key));
      assert |KeyVisits(item, keys)| ==
        |KeyVisits(item, init)| + |FieldVisits(GatewayOf(item), key, ValueAt(item, key))|;
      forall kind: Kind
        ensures CountOver(item, keys, kind) == CountOver(item, init, kind) +
          (if key == KeyFor(kind) then |FieldRecords(key, ValueAt(item, key))| else 0)
      {
        assert KeyFor(kind) in keys <==> KeyFor(kind) in init || KeyFor(kind) == key;
      }
    }
  }

  lemma EntryCount(item: Json)
    ensures |EntryVisits(item)| == ExpectedCount(item)
  {
    KeyVisitsCount(item, EntryKeys(item));
  }

  /** The setup pass creates exactly as many devices as the entries list. */
  lemma {:induction false} WalkCount(items: seq<Json>)
    ensures |Walk(items)| == TotalCount(items)
    decreases |items|
  {
    if items != [] {
      WalkCount(items[..|items| - 1]);
      EntryCount(items[|items| - 1]);
    }
  }

  // ---------------------------------------------------------------------
  // Registry identifiers.

  /** Devices of different kinds never share a registry identifier. */
  lemma IdentifierKindsDisjoint(v: Visit, w: Visit)
    requires v.kind != w.kind
    ensures Identifier(v) != Identifier(w)
  {
    assert Identifier(v)[0] == Prefix(v.kind)[0];
    assert Identifier(w)[0] == Prefix(w.kind)[0];
  }

  /** Within a kind, integer ids (or string ids) give equal identifiers
      exactly when the ids are equal. */
  lemma IdentifierInjective(v: Visit, w: Visit)
    requires v.kind == w.kind
    requires (KeyOf(v).JNum? && KeyOf(w).JNum?) || (KeyOf(v).JStr? && KeyOf(w).JStr?)
    ensures Identifier(v) == Identifier(w) <==> KeyOf(v) == KeyOf(w)
  {
    if Identifier(v) == Identifier(w) {
      var p := |Prefix(v.kind)|;
      assert PyStr(KeyOf(v)) == Identifier(v)[p..] == Identifier(w)[p..] == PyStr(KeyOf(w));
      if KeyOf(v).JNum? {
        DecimalInjective(KeyOf(v).n, KeyOf(w).n);
      }
    }
  }

  // ---------------------------------------------------------------------
  // Which records reach which devices.

  lemma {:induction false} MatchingAppend(x: seq<Visit>, y: seq<Visit>, kind: Kind, id: Json)
    ensures Matching(x + y, kind, id) == Matching(x, kind, id) + Matching(y, kind, id)
    decreases |y|
  {
    if y == [] {
      assert x + y == x;
    } else {
      var init := y[..|y| - 1];
      assert (x + y)[..|x + y| - 1] == x + init;
      assert (x + y)[|x + y| - 1] == y[|y| - 1];
      MatchingAppend(x, init, kind, id);
    }
  }

  lemma {:induction false} MatchingMembership(vs: seq<Visit>, kind: Kind, id: Json, r: Json)
    ensures r in Matching(vs, kind, id) <==> exists v :: v in vs && Receives(kind, id, v) && v.record == r
    decreases |vs|
  {
    if vs != [] {
      var init := vs[..|vs| - 1];
      MatchingMembership(init, kind, id, r);
      assert vs == init + [vs[|vs| - 1]];
    }
  }

  /** One more entry appends what its visits deliver. */
  lemma ReceivedStep(items: seq<Json>, i: int, kind: Kind, id: Json)
    requires 0 <= i < |items|
    ensures Matching(Walk(items[..i + 1]), kind, id) ==
      Matching(Walk(items[..i]), kind, id) + Matching(EntryVisits(items[i]), kind, id)
  {
    WalkStep(items, i);
    MatchingAppend(Walk(items[..i]), EntryVisits(items[i]), kind, id);
  }

  /** The refresh matching rule: a device of kind `kind` and id `id` receives
      record `r` exactly when some gateway entry lists `r` under that kind's
      key and the record's id (for an extBoiler, the entry's `gateway_id`)
      equals `id`. Records under another kind's key never reach it. */
  lemma ReceivedIff(items: seq<Json>, kind: Kind, id: Json, r: Json)
    ensures r in Received(items, kind, id) <==>
      exists i :: 0 <= i < |items| &&
        InEntry(items[i], Visit(kind, GatewayOf(items[i]), r)) &&
        PyEq(id, KeyOf(Visit(kind, GatewayOf(items[i]), r)))
  {
    MatchingMembership(Walk(items), kind, id, r);
    if r in Received(items, kind, id) {
      var v :| v in Walk(items) && Receives(kind, id, v) && v.record == r;
      WalkMembership(items, v);
      var i :| 0 <= i < |items| && InEntry(items[i], v);
      assert v == Visit(kind, GatewayOf(items[i]), r);
    }
    if exists i :: 0 <= i < |items| &&
        InEntry(items[i], Visit(kind, GatewayOf(items[i]), r)) &&
        PyEq(id, KeyOf(Visit(kind, GatewayOf(items[i]), r)))
    {
      var i :| 0 <= i < |items| &&
        InEntry(items[i], Visit(kind, GatewayOf(items[i]), r)) &&
        PyEq(id, KeyOf(Visit(kind, GatewayOf(items[i]), r)));
      var v := Visit(kind, GatewayOf(items[i]), r);
      WalkMembership(items, v);
      assert Receives(kind, id, v);
    }
  }

  /** A thermostat or boiler record is matched by id alone: which gateway
      lists it does not matter. */
  lemma MatchIgnoresGateway(kind: Kind, id: Json, g1: Json, g2: Json, r: Json)
    requires kind != ExtBoiler
    ensures Receives(kind, id, Visit(kind, g1, r)) == Receives(kind, id, Visit(kind, g2, r))
  {
  }

  /** A later refresh carrying the same payload reaches every device the
      setup pass created from it. */
  lemma RefreshReachesDiscovered(items: seq<Json>, v: Visit)
    requires v in Walk(items)
    ensures v.record in Received(items, v.kind, KeyOf(v))
  {
    PyEqReflexive(KeyOf(v));
    MatchingMembership(Walk(items), v.kind, KeyOf(v), v.record);
  }
}
