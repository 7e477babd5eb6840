# Ciaowarm integration — a verified model

This project is a Dafny model of the Home Assistant integration for Ciaowarm (iwarm) heating devices. The model covers:

- **Setup.** `async_setup_entry` checks the stored phone and token, then validates the vendor's device-info envelope. It walks the gateway entries in `message_info` and creates one thermostat, boiler or extBoiler device per record, with one device-registry entry each. It then runs the first refresh.
- **Refresh.** `HomeAssistantXiaowoData.async_update` polls the same endpoint. It hands every record in the payload to the known devices whose kind and id match, in place. It never adds or removes a device.
- **Onboarding.** `XiaowoConfigFlow.async_step_user` turns the account-check reply into a new config entry or an error code on the form.
- **Entities and commands.** `XiaowoEntity` derives the unique id and registry identifiers of an entity. `_send_command` builds the PUT request for one option change and reports whether the vendor accepted it.

The HTTP exchange is an input value, `Response = Unreachable | Reply(status, body)`. `Unreachable` stands for a timeout or client error. A body is `Malformed` (the JSON does not decode) or `Parsed(value)`. JSON values are modelled with the Python semantics the code relies on:

- truthiness;
- `in` on dicts, lists and strings;
- `dict[key]`, where the last of repeated keys wins;
- key iteration in first-occurrence order;
- `==` with `False == 0`;
- `str()`.

An uncaught Python exception, such as a `KeyError` on a missing `thermostat_id` or a `TypeError` from `in` on a number, is a precondition. Each precondition is the exact condition under which the code raises, and no more. For example, in the refresh loop `record['thermostat_id']` is only evaluated when some known device is a thermostat.

Files:

- `wrappers.dfy`: `Option` and `Result`.
- `json.dfy`: the JSON values and the Python operations on them.
- `envelope.dfy`: the response envelope and the ordered validation chain. The code repeats this chain in setup and in refresh.
- `discovery.dfy`: the walk over `message_info` that both passes share, the registry entries, and which records reach which device.
- `integration.dfy`: the setup and refresh passes as imperative code. `Device` and `XiaowoData` are classes. `device_list` is built by appending in nested loops, and refresh updates devices in place. `device.update(record)` is recorded as the device's history of received records.
- `config_flow.dfy`: the onboarding step, with the error map written step by step as in the code.
- `base.dfy`: the entity ids and the command request and outcome.
- `scenarios.dfy`: two concrete polls, one that discovers thermostat `t5` on gateway `g1` and a later one that updates it.

Four behaviours of the code that are easy to misread; the model follows the code:

- Commands check only the status and `message_code`. They do not reuse the device-info validation, which also requires `message_info` (`Base.SucceedsWithoutInfo`).
- Setup does not de-duplicate devices that share an id. Refresh never appends newly seen devices.
- In onboarding, an undecodable body ends with `unexpected_response`, not `invalid_response`.
- The command body copies `thermostat_id` and `boiler_id` from the device object unchanged. Nothing here says that one of them is null.

## Model

| member | source | states |
|---|---|---|
| `Json.Find` | custom_components/ciaowarm/__init__.py:59-65 | a decoded dict has a value for a key exactly when some member has that name, and the value is one of the members' values |
| `Json.Truthy` | custom_components/ciaowarm/__init__.py:59 | `not json_data` holds exactly for None, False, 0, the empty string, the empty list and the empty dict |
| `Json.Contains` | custom_components/ciaowarm/__init__.py:59 | `"message_code" in json_data` tests a dict's keys, a list's elements and a string's substrings, and is never true where `in` raises |
| `Json.SubstringAt` | custom_components/ciaowarm/config_flow.py:47 | `k in s` on strings holds exactly when `k` starts some suffix of `s` |
| `Json.Iterate` | custom_components/ciaowarm/__init__.py:68 | `for item in value` raises exactly where `in` raises (None, booleans, numbers), and over a dict visits exactly its keys, once each |
| `Json.Keys` | custom_components/ciaowarm/__init__.py:70 | `for gateway_item in item` visits each key of the dict once, and exactly the keys the dict has, in the order in which each key first occurs |
| `Json.FindKept` | custom_components/ciaowarm/__init__.py:69 | the member json.loads keeps for a name (the last one with that name) is what `item[name]` returns |
| `Json.IsZeroCases` | custom_components/ciaowarm/__init__.py:63 | `message_code != 0` is false exactly for the integer 0 and for `false` |
| `Json.PyEq` | custom_components/ciaowarm/__init__.py:171 | `device.thermostat_id == thermostat['thermostat_id']`: apart from booleans against integers, only values of one type compare equal, and None and strings only to themselves |
| `Json.PyEqSymmetric` | custom_components/ciaowarm/__init__.py:177 | Python `==` on decoded values is symmetric, lists and dicts included |
| `Json.PyEqReflexive` | custom_components/ciaowarm/__init__.py:171 | every decoded id compares equal to itself under Python `==` |
| `Json.Digits` | custom_components/ciaowarm/__init__.py:75 | `str()` of a natural number is a non-empty run of decimal digits |
| `Json.DigitsInjective` | custom_components/ciaowarm/__init__.py:75 | distinct naturals print differently |
| `Json.DecimalInjective` | custom_components/ciaowarm/__init__.py:87 | distinct integers print differently, so `"b" + str(boiler_id)` separates integer ids |
| `Json.Repr` | custom_components/ciaowarm/__init__.py:75 | `repr()` of decoded values; a dict prints each key once, in first-occurrence order, with the value `json.loads` kept for it (proved by `ReprDictView`) |
| `Json.ReprDictView` | custom_components/ciaowarm/__init__.py:75 | two member lists that decode to the same dict (same keys in the same order, same kept values) print the same |
| `Json.RepeatedKeyPrintsLast` | custom_components/ciaowarm/__init__.py:75 | `{"a": 1, "a": 2}` prints as `{'a': 2}`, like the dict with only the last member |
| `Json.PyStr` | custom_components/ciaowarm/base.py:17 | `str()`: a string is itself, any other value its `repr()`; its properties are `DecimalInjective`, `ReprDictView` and `Base.UniqueIdIgnoresType` |
| `Envelope.ValidationRaises` | custom_components/ciaowarm/__init__.py:59-63 | the chain raises TypeError exactly for a decoded true boolean or non-zero number (`in` on it), or a list or string holding both names (indexing it) |
| `Envelope.Validate` | custom_components/ciaowarm/__init__.py:49-65 | the response is accepted exactly when the status is 200, the body decodes to a dict holding both `message_code` and `message_info`, and the code equals 0; the result is `message_info` |
| `Envelope.StatusCheckedFirst` | custom_components/ciaowarm/__init__.py:49-51 | a non-200 status is rejected as an HTTP error whatever the body is, without decoding it |
| `Envelope.RejectionOrder` | custom_components/ciaowarm/__init__.py:49-65 | each rejection names the first failed check in the order status, decoding, shape, code, in both directions |
| `Envelope.NonZeroCodeRejected` | custom_components/ciaowarm/__init__.py:63-65 | a non-zero `message_code` is rejected as an API error carrying `message_info`, whatever that holds |
| `Discovery.KindOfKey` | custom_components/ciaowarm/__init__.py:71-95 | exactly the keys `thermostats`, `boilers` and `extBoiler` select a device kind; every other key is ignored |
| `Discovery.Tag` | custom_components/ciaowarm/__init__.py:72-74 | each record under a key becomes one visit of that kind, in order, carrying the entry's `gateway_id` |
| `Discovery.RegistrationOf` | custom_components/ciaowarm/__init__.py:75-104 | identifier `"t"`/`"b"`/`"e"` + `str(id)`; manufacturer "IWARM TECH CO., LTD."; name `thermostat_name`, "小沃壁挂炉" or "第三方壁挂炉"; model "thermostat", "boiler" or "extBoiler" |
| `Discovery.Registrations` | custom_components/ciaowarm/__init__.py:76-104 | one registry call per created device, in device order |
| `Discovery.RegistrationsAppend` | custom_components/ciaowarm/__init__.py:68-104 | the registry calls of consecutive runs of entries are concatenated |
| `Discovery.KeyVisits` | custom_components/ciaowarm/__init__.py:70-104 | reference definition of the key loop: the visits of each iterated key, appended in key order |
| `Discovery.EntryVisits` | custom_components/ciaowarm/__init__.py:69-104 | reference definition of one gateway entry's visits: the key loop over its keys in dict order (proved by `EntryMembership`, `EntryCount`) |
| `Discovery.Walk` | custom_components/ciaowarm/__init__.py:68-104 | reference definition of both passes' traversal: each gateway entry's visits, appended in entry order (proved by `WalkMembership`, `WalkCount`, `WalkAppend`) |
| `Discovery.PayloadSafe` | custom_components/ciaowarm/__init__.py:68-104 | a pass raises no KeyError or TypeError exactly when `message_info` and every `thermostats`/`boilers` value is iterable, each entry is a dict with `gateway_id`, and the ids and names the pass reads are present |
| `Discovery.WalkAppend` | custom_components/ciaowarm/__init__.py:68 | devices follow gateway order: walking two runs of entries is walking the first, then the second |
| `Discovery.FieldVisitsMembership` | custom_components/ciaowarm/__init__.py:71-104 | one key yields exactly the records listed under it, tagged with its kind and the gateway |
| `Discovery.KeyVisitsMembership` | custom_components/ciaowarm/__init__.py:70-104 | the key loop yields a record exactly when its kind's key is iterated, the entry lists it there and it carries the entry's gateway |
| `Discovery.EntryMembership` | custom_components/ciaowarm/__init__.py:69-104 | an entry yields exactly the records it lists under the three device keys, with its `gateway_id` |
| `Discovery.WalkMembership` | custom_components/ciaowarm/__init__.py:68-104 | the whole walk visits a record exactly when some entry lists it; nothing under other keys |
| `Discovery.EntryTagged` | custom_components/ciaowarm/__init__.py:69-74 | every device an entry yields carries that entry's `gateway_id` |
| `Discovery.FieldVisitsCount` | custom_components/ciaowarm/__init__.py:71-104 | one key yields as many devices as it lists records, and none for other keys |
| `Discovery.KeyVisitsCount` | custom_components/ciaowarm/__init__.py:70-104 | the key loop yields one device per `thermostats` element, one per `boilers` element and one for `extBoiler` |
| `Discovery.EntryCount` | custom_components/ciaowarm/__init__.py:69-104 | an entry yields exactly its expected number of devices |
| `Discovery.WalkCount` | custom_components/ciaowarm/__init__.py:67-105 | `len(device_list)` is the sum of those counts over all entries |
| `Discovery.IdentifierKindsDisjoint` | custom_components/ciaowarm/__init__.py:75-98 | devices of different kinds never share a registry identifier |
| `Discovery.IdentifierInjective` | custom_components/ciaowarm/__init__.py:75-98 | within a kind, integer (or string) ids give the same identifier exactly when they are equal |
| `Discovery.Receives` | custom_components/ciaowarm/__init__.py:171-182 | a known device takes a visited record exactly when it has the record's kind and its id `==` the record's id (for an extBoiler, the entry's `gateway_id`) |
| `Discovery.Matching` | custom_components/ciaowarm/__init__.py:169-183 | reference definition: the records of the visits a device receives, in visit order (proved by `MatchingMembership`, `MatchingAppend`) |
| `Discovery.Received` | custom_components/ciaowarm/__init__.py:164-183 | reference definition of one refresh's deliveries to a device: `Matching` over the walk (proved by `ReceivedIff`) |
| `Discovery.MatchingAppend` | custom_components/ciaowarm/__init__.py:164-183 | what a device receives from consecutive runs of records is concatenated |
| `Discovery.MatchingMembership` | custom_components/ciaowarm/__init__.py:170-183 | a device receives a record exactly when some visit of its kind carries that record and an equal id |
| `Discovery.ReceivedStep` | custom_components/ciaowarm/__init__.py:164 | one more gateway entry appends what its records deliver |
| `Discovery.ReceivedIff` | custom_components/ciaowarm/__init__.py:164-183 | the refresh matching rule, both directions: the record is under the device's kind key in some entry and its id (for an extBoiler the entry's `gateway_id`) equals the device's; no cross-kind delivery |
| `Discovery.MatchIgnoresGateway` | custom_components/ciaowarm/__init__.py:169-178 | thermostats and boilers are matched by id alone, whatever gateway lists them |
| `Discovery.RefreshReachesDiscovered` | custom_components/ciaowarm/__init__.py:164-183 | a refresh with the setup payload reaches every device created from it |
| `Integration.Device.constructor` | custom_components/ciaowarm/__init__.py:74 | a device keeps its kind, account, gateway and record; its id is `thermostat_id`, `boiler_id` or `gateway_id`; no updates yet |
| `Integration.Device.Update` | custom_components/ciaowarm/__init__.py:172 | `update(record)` appends the record to the device's history |
| `Integration.XiaowoData.constructor` | custom_components/ciaowarm/__init__.py:132-137 | the account data keeps phone, token, the device-info URL, the token header and the given device list |
| `Integration.XiaowoData.Deliver` | custom_components/ciaowarm/__init__.py:170-172 | the device loop updates exactly the devices of the record's kind with an equal id, and leaves the others unchanged |
| `Integration.XiaowoData.DeliverAll` | custom_components/ciaowarm/__init__.py:169-178 | the record loop delivers each record in order, as the matching spec says |
| `Integration.XiaowoData.RefreshField` | custom_components/ciaowarm/__init__.py:167-183 | the three branches on a key deliver that key's records; other keys change nothing |
| `Integration.XiaowoData.RefreshEntry` | custom_components/ciaowarm/__init__.py:165-183 | the key loop over one entry delivers the entry's visits in order |
| `Integration.XiaowoData.RefreshEntries` | custom_components/ciaowarm/__init__.py:164-183 | the gateway loop leaves each device with its old history followed by `Received(...)` for its kind and id |
| `Integration.XiaowoData.Refresh` | custom_components/ciaowarm/__init__.py:139-185 | same device list; a rejected reply returns False and changes nothing; a transport error returns None and changes nothing; an accepted reply returns None after the matching deliveries |
| `Integration.SetupEntry` | custom_components/ciaowarm/__init__.py:30-121 | True exactly when phone and token are set and the reply validates; then one fresh device per visited record in walk order, one registry entry each, and each device holds what the eager refresh delivered; otherwise no devices and no registry calls |
| `Integration.StartData` | custom_components/ciaowarm/__init__.py:108-109 | the account data holds the new device list unchanged, and each device then holds exactly what the eager refresh delivered to its kind and id |
| `Integration.DiscoverAll` | custom_components/ciaowarm/__init__.py:67-105 | the gateway loop builds distinct fresh devices matching the walk, with the registry calls in the same order |
| `Integration.DiscoverEntry` | custom_components/ciaowarm/__init__.py:69-105 | the key loop of one entry builds its devices and registry calls in key order |
| `Integration.DiscoverField` | custom_components/ciaowarm/__init__.py:71-104 | one key builds the devices its branch creates; other keys build none |
| `Integration.DiscoverRecords` | custom_components/ciaowarm/__init__.py:72-104 | one fresh device and one registry call per record, in order |
| `Integration.Register` | custom_components/ciaowarm/__init__.py:75-104 | each branch passes the registry the identifier, manufacturer, name and model `RegistrationOf` gives for the record's visit |
| `ConfigFlow.FormDefaults` | custom_components/ciaowarm/config_flow.py:68-75 | the form is prefilled with the submitted phone and key, or with empty strings when nothing was submitted |
| `ConfigFlow.StepRaises` | custom_components/ciaowarm/config_flow.py:47-48 | the step raises TypeError exactly for a decoded true boolean or non-zero number (`in` on it), or a list or string containing `message_code` (indexing it) |
| `ConfigFlow.CheckError` | custom_components/ciaowarm/config_flow.py:30-65 | `cannot_connect` exactly for a transport error or a non-200 status; accepted exactly for a dict with `message_code == 0`; `invalid_credentials` exactly for a present non-zero code; `unexpected_response` exactly for an undecodable, empty or code-less body; never `invalid_response` |
| `ConfigFlow.StepUser` | custom_components/ciaowarm/config_flow.py:21-79 | the step-by-step error map ends as `CheckError` says; acceptance creates an entry titled with the phone holding phone and key; no input shows the empty form |
| `ConfigFlow.ValidatedIsAccepted` | custom_components/ciaowarm/config_flow.py:36-61 | credentials are accepted for every reply the device-info validation accepts and refused for every API-error reply; `cannot_connect` matches transport and HTTP errors |
| `ConfigFlow.AcceptedWithoutInfo` | custom_components/ciaowarm/config_flow.py:47-56 | a reply holding only `message_code: 0` creates the entry though it lacks `message_info` |
| `Base.UniqueId` | custom_components/ciaowarm/base.py:17 | the unique id is `xiaowo.` followed by `str(device_id)` |
| `Base.XiaowoEntity.constructor` | custom_components/ciaowarm/base.py:16-18 | the entity keeps its device id and derives its unique id from it |
| `Base.XiaowoEntity.DeviceInfo` | custom_components/ciaowarm/base.py:20-25 | the identifiers are exactly the one pair (domain, device id) |
| `Base.UniqueIdInjective` | custom_components/ciaowarm/base.py:17 | string (or integer) device ids give equal unique ids exactly when they are equal |
| `Base.UniqueIdIgnoresType` | custom_components/ciaowarm/base.py:17 | the string `"7"` and the integer 7 give the same unique id |
| `Base.EntityJoinsRegisteredDevice` | custom_components/ciaowarm/base.py:16-25 | an entity given the identifier registered at setup belongs to that registry device |
| `Base.CommandBody` | custom_components/ciaowarm/base.py:32-39 | the body's member names are the six fields, in order |
| `Base.CommandRequest` | custom_components/ciaowarm/base.py:29-43 | the PUT goes to the device-info URL, with the `token` header set to the device's token, carrying the command body |
| `Base.CommandBodyKeys` | custom_components/ciaowarm/base.py:32-39 | the body has exactly the keys phone, gateway_id, thermostat_id, boiler_id, option_key and option_value |
| `Base.CommandBodyValues` | custom_components/ciaowarm/base.py:32-39 | each field reads back the device's attribute or the option passed in, unchanged |
| `Base.CommandFieldsDistinct` | custom_components/ciaowarm/base.py:32-39 | the six field names are pairwise different |
| `Base.CommandRaises` | custom_components/ciaowarm/base.py:44-46 | `_send_command` raises exactly at status 200 on an undecodable body or a decoded non-dict (`.get` on it) |
| `Base.CommandSucceeded` | custom_components/ciaowarm/base.py:44-54 | True exactly when the status is 200 and `message_code` is present and equals 0; a missing code, another status or a transport error gives False |
| `Base.ValidatedCommandSucceeds` | custom_components/ciaowarm/base.py:44-47 | every reply the device-info validation accepts is a successful command reply |
| `Base.SucceedsWithoutInfo` | custom_components/ciaowarm/base.py:46-47 | a reply without `message_info` can still confirm a command, though the device-info validation rejects it |
| `Base.SameAcceptanceAsCredentialCheck` | custom_components/ciaowarm/base.py:44-54 | a command succeeds on exactly the replies for which onboarding accepts the credentials |
| `Scenarios.GatewayWalk` | custom_components/ciaowarm/__init__.py:68-74 | one gateway entry `g1` with one thermostat record yields exactly one thermostat visit tagged `g1` |
| `Scenarios.GatewayReceived` | custom_components/ciaowarm/__init__.py:164-172 | refreshing with that entry delivers its record to exactly the matching devices |
| `Scenarios.FirstPoll` | custom_components/ciaowarm/__init__.py:49-105 | the reply validates, and setup creates one thermostat with id 5 on `g1` and registers it as `t5`, "Room", "thermostat" |
| `Scenarios.SecondPoll` | custom_components/ciaowarm/__init__.py:164-172 | a later reply with `temp: 21` goes to the thermostat with id 5 only, and to no boiler |

## Left out

- HTTP, aiohttp sessions, timeouts and JSON decoding are an input `Response`. The `response.text()` read in the error paths is not modelled. Nor is an aiohttp content-type error from `response.json()`, which the code catches as a client error.
- Floating-point JSON numbers are left out: numbers are integers. `str()` of a string is the string itself, but `repr()` inside lists and dicts does not escape quotes or special characters.
- Home Assistant framework calls are left out: `dr.async_get`, `async_track_time_interval` and its 20-second interval, `async_forward_entry_setups`, `update_listener`, `hass.data` and the voluptuous form schema. `async_get_or_create` is modelled only by the `(identifier, manufacturer, name, model)` entries it is given; the manufacturer is carried in each `Registration`.
- Logging is left out.
- `const.py` is not part of this model. Its device classes become the closed kind `Thermostat | Boiler | ExtBoiler`, and the classes are assumed not to inherit from one another. `device.update` becomes an appended history entry. A device's id attribute is taken to be the id in the record it was created from. The unseen entity subclasses' choice of `device_id` is left open: `XiaowoEntity` takes any JSON value.
- `DOMAIN` is taken to be `ciaowarm`, the component directory's name, which Home Assistant requires it to equal. `REQUEST_URL_PREFIX` is a parameter. `CONF_PHONE` and `CONF_KEY` are the two fields of `Credentials`.
- Integration.SetupEntry: an exception raised by the platform forwarding or the listener registration after the refresh is not modelled, so setup returns True once the first refresh has run.
- Integration.XiaowoData.Refresh: a transport error raised partway through a refresh cannot happen in the model, because the whole reply is an input decided before the devices are updated.
- Concurrency between the poll loop and commands is left out: the model is sequential.
- Python exceptions that escape the code are preconditions rather than modelled outcomes:
  - `KeyError` on `gateway_id`, `thermostat_id`, `boiler_id` or `thermostat_name`;
  - `TypeError` from `in` or indexing on non-dict JSON;
  - `AttributeError` from `.get` on a non-dict command reply;
  - a decode error in `_send_command`, which is not caught.
