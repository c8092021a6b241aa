# SoftHome bridge client, rooms and SSDP discovery in Dafny

This project models the core of SoftHome, a home-automation server. It covers
three parts:

- The Philips Hue client in `SoftHome/MachineInterface/models.py`:
  - the `PhilipsHueBridge` record: `register`, `update_config`, `get_light`,
    `set_light`, `set_group`, `create_sensor`, `set_sensor_content`,
    `run_scene` and the three `get_*_id_by_name` lookups;
  - `Sensor.import_all` and `Light.import_all`, which copy the bridge's
    inventory into stored rows;
  - the `on`, `off`, `set_brightness` and `set_color` commands of a stored
    `Light`.
- Rooms and groups in `SoftHome/operations/models.py`:
  - `Room.add_connection` and `Room.remove_connection`, including the
    mirrored row on the other room;
  - `Group.add_light` and `Group.remove_light`.
  - As written the file cannot be imported: `Group` names `Room` at line 15,
    and `Room` is only defined at line 74, so loading it raises NameError
    and none of these methods can be reached. The model assumes that
    reference is resolved, as the string `"Room"` would resolve it.
- SSDP discovery in `modules/ssdp.py`:
  - the M-SEARCH message;
  - keeping one answer per `location`;
  - `parse_ip_address`.

Modules, one concept each:

- `Wrappers`: Option and Result.
- `Strings`: the Python `str` operations the code relies on: `find`,
  `lstrip`, `str(int)` and `int(str)`, `Decimal(str)`, and joining and
  splitting at CRLF.
- `Json`: decoded JSON values as ordered key/value lists.
  - Python's errors appear as `Failure` values: KeyError, TypeError,
    IndexError, AttributeError, Timeout, NotJson.
  - It also defines dict indexing and `in` on JSON values.
- `HueWire`: the HTTP exchange.
  - `request` becomes a script of replies, one used up per request.
  - Every request sent is appended to a log.
  - `Run` is a loop that sends one request per item and stops at the first
    exception.
- `HuePayloads`: the request bodies and addresses.
- `HueRegistration`: the scan of the registration answer.
- `HueLookup`: searches by name, and the scene choice of `run_scene`.
- `HueBridge`: the `PhilipsHueBridge` class.
  - Its fields are the record's fields plus the wire's `log` and `replies`.
  - Its methods update those fields in place.
- `Reconcile`: Django's `update_or_create` over a table of rows.
  - The table is a class whose `rows` are updated in place.
  - Lemmas cover the order and the idempotence of a batch.
- `Devices`: the sensor and light importers and the `Light` class.
- `Rooms`: the `RoomConnection` and `LightGroup` tables.
- `Ssdp`: the search message, de-duplication, and `parse_ip_address`.

Two behaviours of the code are easy to miss:

- A malformed inventory record ends the whole import with the exception
  Python raises; the records after it are not imported. The rows stored
  before the error stay stored.
- Where the code has an evident bug, the model has two members: one for the
  code as written, with a lemma that exhibits the bug, and a corrected one
  that the rest of the model uses. The rows of the corrected members say so,
  and the Findings table lists the pairs.

## Model

| member | source | states |
|---|---|---|
| Strings.FindFrom | modules/ssdp.py:58 | `str.find`: -1 or the first index from which the pattern occurs; nothing before it matches |
| Strings.LStrip | modules/ssdp.py:68 | `str.lstrip(chars)`: the result is a suffix; every character removed is in the set; the first character kept is not (the set of a text is `CharsOf`) |
| Strings.NatToString | SoftHome/MachineInterface/models.py:297 | `str(n)` of a non-negative int is non-empty, all digits, with no leading zero |
| Strings.ParseNatToString | SoftHome/MachineInterface/models.py:115 | reading the digits of `str(n)` gives back `n` |
| Strings.NegativeText | SoftHome/MachineInterface/models.py:297 | `str(n)` of a negative int is `-` followed by the digits of `-n` |
| Strings.ParseIntToString | SoftHome/MachineInterface/models.py:115 | `int(str(n)) == n` for every int |
| Strings.SplitJoin | modules/ssdp.py:36-40 | splitting a CRLF-joined list of lines without carriage returns gives the lines back |
| Json.Keys | SoftHome/MachineInterface/models.py:140 | `list(d.keys())` in insertion order |
| Json.Get | SoftHome/MachineInterface/models.py:58 | `d.get(key)` is present exactly when the key is, and then is a stored pair |
| Json.Put | SoftHome/MachineInterface/models.py:332 | `d[key] = v`: the key then maps to `v`; every other key keeps its value |
| Json.PutKeys | SoftHome/MachineInterface/models.py:332 | assigning an existing key keeps the key order; a new key goes last |
| Json.GetAbsent | SoftHome/MachineInterface/models.py:58 | a key on no pair is absent |
| Json.Remove | SoftHome/MachineInterface/models.py:429 | after removing a key it is absent; every other key keeps its value |
| Json.Member | SoftHome/MachineInterface/models.py:312 | `v[key]` succeeds exactly on a dict holding the key; otherwise KeyError on a dict, TypeError on anything else |
| Json.Truncate | SoftHome/MachineInterface/models.py:121 | `int()` of a float drops the fraction toward zero: the int is on the float's side of zero and less than one away |
| Json.Single | SoftHome/MachineInterface/models.py:329 | `{k: v}` has the one key `k`, mapped to `v` |
| HueWire.Received | SoftHome/MachineInterface/models.py:254-271 | a request succeeds exactly when the bridge answers; otherwise it fails with `Timeout` (the AttributeError or `socket.timeout` the code raises) or a decoding error |
| HueWire.Run | SoftHome/MachineInterface/models.py:337-349 | the loop collecting one result per item has one result per item when no exception stops it |
| HueWire.RunSnoc | SoftHome/MachineInterface/models.py:337-349 | one more item adds one more request and one more result, or the exception of that pass |
| HueWire.RunStops | SoftHome/MachineInterface/models.py:337-349 | once a pass raises, the later items are never sent |
| HueWire.RunAdvance | SoftHome/MachineInterface/models.py:337-349 | a loop pass either raises, which ends the whole call, or appends its reply to the results |
| Reconcile.IndexOf | SoftHome/MachineInterface/models.py:54-70 | the position of the first row with a key, or none when no row has it |
| Reconcile.UpsertSpec | SoftHome/MachineInterface/models.py:54-70 | `update_or_create`: the row is stored; an existing key is updated in place; a new key adds one row; other rows and unique keys are kept |
| Reconcile.UpsertAllSnoc | SoftHome/MachineInterface/models.py:41-73 | a batch is its updates one after another, in order |
| Reconcile.DeriveAllSpec | SoftHome/MachineInterface/models.py:41-73 | the rows derived before the first failing record, each from its record, and that record's exception |
| Reconcile.LastValuesSnoc | SoftHome/MachineInterface/models.py:41-73 | the last values given for a key, after one more entry |
| Reconcile.KeepsRowsStep | SoftHome/MachineInterface/models.py:54-70 | one more update keeps every old row and adds only keys of the batch |
| Reconcile.AppliesEntriesStep | SoftHome/MachineInterface/models.py:54-70 | one more update leaves every key with the last values the batch gave it |
| Reconcile.UpsertAllShape | SoftHome/MachineInterface/models.py:41-73 | after a batch, old rows keep their place, new keys are added, and each key holds its last values |
| Reconcile.UpsertAllIdempotent | SoftHome/MachineInterface/models.py:41-73 | importing the same inventory twice stores what one import stores |
| Reconcile.Table.constructor | SoftHome/MachineInterface/models.py:54 | a new table holds no rows |
| Reconcile.Table.UpdateOrCreate | SoftHome/MachineInterface/models.py:54-70 | stores the row, reports whether it was created, and keeps keys unique |
| Reconcile.Table.ImportEntries | SoftHome/MachineInterface/models.py:41-73 | the loop stores the derived rows in order, stops at the first failing record, and returns the rows or that exception |
| HuePayloads.BaseData | SoftHome/MachineInterface/models.py:326-329 | a dict parameter is the body; otherwise the body is `{parameter: value}` |
| HuePayloads.WithTransition | SoftHome/MachineInterface/models.py:331-332 | `transitiontime` is added when given; every other key is unchanged |
| HuePayloads.LightData | SoftHome/MachineInterface/models.py:326-332 | the `set_light` body: the setting asked for, the transition time if any, and nothing else |
| HuePayloads.TextsOf | SoftHome/MachineInterface/models.py:478 | `[str(x) for x in value]` succeeds exactly when every item has a `str`, and keeps the order |
| HuePayloads.GroupData | SoftHome/MachineInterface/models.py:473-484 | the `set_group` body: a dict as given; `lights` as a list of strings, a single int wrapped in a list; anything else as `set_light` builds it |
| HuePayloads.NewSensorData | SoftHome/MachineInterface/models.py:364-377 | `state` and `config` are sent only when they are non-empty dicts |
| HuePayloads.SensorContentAsWritten | SoftHome/MachineInterface/models.py:423-429 | `del data["lastupdated"]` succeeds only when the body holds `lastupdated`, and raises KeyError otherwise |
| HuePayloads.SensorContentAsWrittenRejectsField | SoftHome/MachineInterface/models.py:425-429 | any single field except `lastupdated` makes `set_sensor_content` raise KeyError |
| HuePayloads.SensorContent | SoftHome/MachineInterface/models.py:423-429 | the body without `lastupdated`, every other key as given, equal to the code's body whenever the code succeeds |
| HuePayloads.NamePath | SoftHome/MachineInterface/models.py:339-340 | a rename goes to the light's own address, which is the code's address when one light is given |
| HuePayloads.NamePathAsWrittenMissesLights | SoftHome/MachineInterface/models.py:340 | renaming lights 1 and 2 together sends both renames to `/lights/[1, 2]` and not to either light |
| HueRegistration.ScanKey | SoftHome/MachineInterface/models.py:239-249 | a key either stores the token, stops on error 101 or 7, raises, or changes nothing |
| HueRegistration.ScanKeys | SoftHome/MachineInterface/models.py:238-249 | a stopped scan stays stopped, and only 101 and 7 are returned as refusals |
| HueRegistration.ScanLine | SoftHome/MachineInterface/models.py:238-249 | the same for one line of the answer |
| HueRegistration.ScanLines | SoftHome/MachineInterface/models.py:237-249 | the same for all lines |
| HueRegistration.ScanResponse | SoftHome/MachineInterface/models.py:236-249 | a refusal from the registration answer is always 101 or 7 |
| HueRegistration.ScanKeysStops | SoftHome/MachineInterface/models.py:238-249 | keys after the scan stops change nothing |
| HueRegistration.ScanLinesStops | SoftHome/MachineInterface/models.py:237-249 | lines after the scan stops change nothing |
| HueRegistration.ScanLineKeys | SoftHome/MachineInterface/models.py:238-249 | the inner loop computes the scan of one line |
| HueRegistration.ScanAnswerLines | SoftHome/MachineInterface/models.py:237-249 | the outer loop computes the scan of all lines, iterating the answer as Python does (`Iterate`: a list its items, a dict its keys, a text its characters, TypeError otherwise); a refusal is 101 or 7 |
| HueRegistration.SuccessKey | SoftHome/MachineInterface/models.py:239 | the key `success` contains `success` and does not contain `error` |
| HueRegistration.ErrorKey | SoftHome/MachineInterface/models.py:242 | the key `error` contains `error` and does not contain `success` |
| HueRegistration.SuccessStoresToken | SoftHome/MachineInterface/models.py:239-241 | a success line stores its username as the bridge user |
| HueRegistration.ErrorLineRefuses | SoftHome/MachineInterface/models.py:237-249 | after any lines that did not stop the scan, an error line with 101 or 7 stops it with that refusal, keeps the user stored so far, and every later line is ignored |
| HueRegistration.TokenKeptOnRefusal | SoftHome/MachineInterface/models.py:239-245 | a success line followed by an error 101 or 7 keeps the token and returns the refusal |
| HueLookup.FirstNamedFromSpec | SoftHome/MachineInterface/models.py:311-314 | not found exactly when every entry has a name and none matches; a found id belongs to the first entry carrying the name; an error comes from an entry without a name, with no earlier match |
| HueLookup.SearchNamed | SoftHome/MachineInterface/models.py:311-314 | the search loop computes the first match |
| HueLookup.Lookup | SoftHome/MachineInterface/models.py:308-314 | one GET of the whole inventory is sent and one reply used up |
| HueLookup.LookupFindsFirst | SoftHome/MachineInterface/models.py:311-313 | a name carried by an entry, with none before it, finds that entry's id |
| HueLookup.FirstNamedUpTo | SoftHome/MachineInterface/models.py:311-313 | the search passes over the entries before the first match |
| HueLookup.GroupsNamed | SoftHome/MachineInterface/models.py:545 | exactly the groups with the name |
| HueLookup.ScenesNamed | SoftHome/MachineInterface/models.py:546 | exactly the scenes with the name (their order is stated by `FirstNamedWithLights`) |
| HueLookup.TextLeTotal | SoftHome/MachineInterface/models.py:559 | any two strings are ordered one way or the other |
| HueLookup.InsertText | SoftHome/MachineInterface/models.py:559 | inserting into a sorted list keeps it sorted and adds exactly that element |
| HueLookup.SortTexts | SoftHome/MachineInterface/models.py:559 | `sorted` returns a sorted permutation |
| HueLookup.FirstWithLights | SoftHome/MachineInterface/models.py:560-563 | the scene found has exactly those lights and no scene before it has them; none is found exactly when no scene has them |
| HueLookup.FirstNamedFound | SoftHome/MachineInterface/models.py:546-563 | by induction over the scenes: the scene found among those carrying the name is the first of all scenes with both the name and the lights |
| HueLookup.FirstNamedWithLights | SoftHome/MachineInterface/models.py:546-563 | filtering by name keeps the order: the scene found is the first of all scenes with both the name and the lights; none is found exactly when no scene has both |
| HueLookup.SceneChoiceSpec | SoftHome/MachineInterface/models.py:538-563 | one group and one scene with the names give exactly that pair; with several scenes a choice is made exactly when a scene with the name has the group's sorted lights, and it is the first such scene; the group is the only one with its name; nothing is chosen for a missing or shared group name or a missing scene |
| HueBridge.RegistrationScan | SoftHome/MachineInterface/models.py:236-249 | a refusal of `register` is 101 or 7 |
| HueBridge.ConfigOf | SoftHome/MachineInterface/models.py:284-286 | the stored configuration is the reply's `swversion`, `bridgeid` and `mac` |
| HueBridge.LightStepIs | SoftHome/MachineInterface/models.py:338-347 | the step function is one pass of the `set_light` loop |
| HueBridge.GroupStepIs | SoftHome/MachineInterface/models.py:490-502 | the step function is one pass of the `set_group` loop |
| HueBridge.CreationOf | SoftHome/MachineInterface/models.py:381-385 | the id under `success` of the first line, or the first line when it has no `success`; both directions |
| HueBridge.LightQuery | SoftHome/MachineInterface/models.py:298-306 | the whole state, a descriptive field, or a field of `state`, with False when `state` is missing the field |
| HueBridge.RunSceneAsWritten | SoftHome/MachineInterface/models.py:545-546 | on a record lacking `groups` or `scenes` as an attribute the call raises AttributeError; with both it makes the scene choice |
| HueBridge.RunSceneRaisesOnBridge | SoftHome/MachineInterface/models.py:545-546 | no attribute of a bridge record (its columns and methods, those of `Device`, the relations towards a device) is named `groups`, so every call raises AttributeError |
| HueBridge.SetLightSendsEach | SoftHome/MachineInterface/models.py:338-349 | for lights given by id (`IndexRefs`), one PUT per light to its state (`StateRequests`, under `'/api/' + user`), in order, and the answers collected in order |
| HueBridge.StateStep | SoftHome/MachineInterface/models.py:346-347 | one pass for a light given by id sends one PUT and keeps the answer |
| HueBridge.RenameSendsEach | SoftHome/MachineInterface/models.py:339-340 | with the address corrected, each light of a rename gets its own request |
| HueBridge.SetGroupSendsEach | SoftHome/MachineInterface/models.py:489-503 | for groups given by id, one PUT per group, to the group for `name` or `lights` and to its action otherwise, in order, and the answers collected in order |
| HueBridge.SetGroupUnknownName | SoftHome/MachineInterface/models.py:491-497 | a group name that is not found ends `set_group` with None after the lookup |
| HueBridge.PhilipsHueBridge.constructor | SoftHome/MachineInterface/models.py:211-215 | the record's defaults: user, bridge id and software version `'None'` |
| HueBridge.PhilipsHueBridge.Send | SoftHome/MachineInterface/models.py:254-271 | one request is logged and one reply used up |
| HueBridge.PhilipsHueBridge.Register | SoftHome/MachineInterface/models.py:221-252 | the registration request, then a refusal (101 or 7) or an exception, keeping a token a success line stored before it, or the user stored and the configuration read |
| HueBridge.PhilipsHueBridge.UpdateConfig | SoftHome/MachineInterface/models.py:280-287 | one GET of the configuration; the fields are stored in order until one is missing |
| HueBridge.PhilipsHueBridge.IdByName | SoftHome/MachineInterface/models.py:308-314 | the lookup on the wire, as `Lookup` and `FirstNamedFromSpec` describe it |
| HueBridge.PhilipsHueBridge.GetLight | SoftHome/MachineInterface/models.py:290-306 | the whole inventory, or the light's state or one field, a name being looked up first |
| HueBridge.PhilipsHueBridge.SetLight | SoftHome/MachineInterface/models.py:316-349 | one pass per light, in order, with the body built once; corrected: the code as written is HuePayloads.NamePathAsWrittenMissesLights |
| HueBridge.PhilipsHueBridge.SendToLights | SoftHome/MachineInterface/models.py:337-349 | the loop computes `Run` over the lights |
| HueBridge.PhilipsHueBridge.SendToLight | SoftHome/MachineInterface/models.py:339-347 | one pass: a rename, a PUT to the state, or a lookup and then a PUT; corrected: the code as written is HuePayloads.NamePathAsWrittenMissesLights |
| HueBridge.PhilipsHueBridge.SetGroup | SoftHome/MachineInterface/models.py:466-506 | a body that cannot be built raises before anything is sent; otherwise one pass per group, None for an unknown name |
| HueBridge.PhilipsHueBridge.SendToGroups | SoftHome/MachineInterface/models.py:489-503 | the loop computes `Run` over the groups |
| HueBridge.PhilipsHueBridge.SendToGroup | SoftHome/MachineInterface/models.py:490-502 | one pass: lookup of a name, then a PUT to the group or its action |
| HueBridge.PhilipsHueBridge.CreateSensor | SoftHome/MachineInterface/models.py:360-385 | one POST of the new sensor; the new id or the first answer line |
| HueBridge.PhilipsHueBridge.SetSensorContent | SoftHome/MachineInterface/models.py:416-434 | False without a request for another structure; otherwise one PUT of the content without `lastupdated`; corrected: the code as written is HuePayloads.SensorContentAsWritten |
| HueBridge.PhilipsHueBridge.ActivateScene | SoftHome/MachineInterface/models.py:527-530 | one PUT of the scene to the group's action |
| HueBridge.PhilipsHueBridge.RunScene | SoftHome/MachineInterface/models.py:532-563 | the chosen scene is activated and True returned; without a choice nothing is sent; corrected: the code as written is HueBridge.RunSceneAsWritten |
| Devices.ItemAt | SoftHome/MachineInterface/models.py:46-51 | `state[key]` on a list state: the item is one of the list's, a negative index counts from the end, IndexError outside, TypeError for an index that is not an int or bool |
| Devices.ItemAtFromEnd | SoftHome/MachineInterface/models.py:46-51 | index `n - len(items)` gives the same item as `n`, and a bool indexes like 0 or 1 |
| Devices.FirstItemReading | SoftHome/MachineInterface/models.py:43-52 | a list state reads nothing exactly when all its items are `lastupdated`; a reading is an item of the list; an error comes from indexing by the first other item |
| Devices.FirstFieldReading | SoftHome/MachineInterface/models.py:43-52 | the value of the first state key other than `lastupdated`, or none when there is none |
| Devices.StateReading | SoftHome/MachineInterface/models.py:43-52 | a dict reads its first entry other than `lastupdated`; a list reads nothing exactly when every item is `lastupdated`, and otherwise one of its items; an empty text reads nothing; a value that is not iterable raises TypeError |
| Devices.SensorRow | SoftHome/MachineInterface/models.py:54-70 | the lookup fields and the defaults of the sensor's `update_or_create`; the state value is the state's reading (`StateReading`), 0 without one, `'false'` and `'true'` as 0 and 1, and `Decimal` otherwise (`ReadingValue`, `SensorStateValue`) |
| Devices.LightColor | SoftHome/MachineInterface/models.py:101-108 | `ct` gives the temperature and its conversion; the `xy` branch always raises; otherwise the defaults 153 and `[0.31306, 0.32318]` |
| Devices.LightRow | SoftHome/MachineInterface/models.py:110-131 | the lookup fields and the defaults of the light's `update_or_create` |
| Devices.ImportSensors | SoftHome/MachineInterface/models.py:36-74 | nothing for another api; otherwise one GET and the inventory dict's entries (`Collection`) stored in order until the first bad record |
| Devices.ImportLights | SoftHome/MachineInterface/models.py:95-134 | the same for lights |
| Devices.CommandSendsOne | SoftHome/MachineInterface/models.py:139-140 | a command sends one PUT to the light's state and is accepted (`Confirmed`) exactly when the reply's first line has no `error` |
| Devices.Percent | SoftHome/MachineInterface/models.py:160 | `brightness*255/100` as true division: a percentage from 0 to 100 gives a level from 0 to 255, and 100 gives 255 |
| Devices.Light.constructor | SoftHome/MachineInterface/models.py:77-90 | a stored light with the given columns, and no `ct` attribute yet |
| Devices.Light.Command | SoftHome/MachineInterface/models.py:138-140 | the bridge command of one light |
| Devices.Light.On | SoftHome/MachineInterface/models.py:136-145 | None for another api; otherwise the command, and the light on only when it is accepted |
| Devices.Light.Off | SoftHome/MachineInterface/models.py:147-156 | the same, switching off |
| Devices.Light.SetBrightness | SoftHome/MachineInterface/models.py:158-169 | the level, scaled for a percentage, is stored only when the command is accepted |
| Devices.Light.SetColor | SoftHome/MachineInterface/models.py:171-180 | the attribute `ct` is set only when the command is accepted; `ct` is no column, so the stored `color_temperature` never changes |
| Rooms.Mirror | SoftHome/operations/models.py:97-105 | left and right swap, top and bottom swap, any other side becomes top |
| Rooms.MirrorInvolution | SoftHome/operations/models.py:97-105 | mirroring twice gives the side back |
| Rooms.WithoutConnection | SoftHome/operations/models.py:109-115 | no row from the room to the other remains, nor back with `symm`; every other row is kept |
| Rooms.ConnectionIsSymmetric | SoftHome/operations/models.py:89-107 | a symmetric connection joins the rooms both ways, the way back on the mirrored side |
| Rooms.AddConnectionIdempotent | SoftHome/operations/models.py:89-95 | adding the same connection twice stores nothing more |
| Rooms.RemoveUndoesAdd | SoftHome/operations/models.py:89-115 | removing a symmetric connection undoes adding it and keeps the rows between other rooms |
| Rooms.ConnectionTable.constructor | SoftHome/operations/models.py:129-133 | an empty table |
| Rooms.ConnectionTable.GetOrCreate | SoftHome/operations/models.py:90-95 | the row is stored; created exactly when it was absent |
| Rooms.ConnectionTable.AddConnection | SoftHome/operations/models.py:89-107 | the row asked for and, with `symm`, the mirrored row back; corrected: the code as written is Rooms.ConnectionTable.AddConnectionAsWritten |
| Rooms.ConnectionTable.AddConnectionAsWritten | SoftHome/operations/models.py:89-107 | with `symm` the row asked for is stored, TypeError is raised, and no row back is created |
| Rooms.ConnectionTable.RemoveConnection | SoftHome/operations/models.py:109-115 | both directions removed with `symm` |
| Rooms.LightGroupTable.constructor | SoftHome/operations/models.py:60-65 | an empty table |
| Rooms.LightGroupTable.AddLight | SoftHome/operations/models.py:46-51 | the existing row, or a new row with the defaults |
| Rooms.LightGroupTable.RemoveLight | SoftHome/operations/models.py:53-57 | the light's row in the group is gone and nothing else changes |
| Rooms.AddThenRemoveLight | SoftHome/operations/models.py:46-57 | adding and then removing a light leaves the rows as they were |
| Ssdp.CutHost | modules/ssdp.py:70-74 | the text before a `:` at index 1 or later; else before a `/` at index 1 or later; else the whole text |
| Ssdp.CutHostSeparators | modules/ssdp.py:70-74 | the host keeps no port separator, and no `/` when it was cut there |
| Ssdp.ParseIpAddress | modules/ssdp.py:57-76 | an empty location fails; a `//` at index 10 or earlier strips the prefix's characters; otherwise a location starting with a digit is cut, and any other is -1 |
| Ssdp.LStripStopsAt | modules/ssdp.py:68 | `lstrip` stops at the first character not in the set |
| Ssdp.HostAfterSlashes | modules/ssdp.py:58-68 | with `//` the host is cut from a suffix after the slashes |
| Ssdp.DottedAddressUnchanged | modules/ssdp.py:60-64 | a bare dotted address comes back as it is |
| Ssdp.ParseIpAddressStripsHostLetters | modules/ssdp.py:68 | `http://hue/` gives `ue`, where the intended parse gives `hue` |
| Ssdp.ParseIpAddressIntended | modules/ssdp.py:57-76 | the host after `//` is cut from the text after the slashes |
| Ssdp.IntendedAgrees | modules/ssdp.py:68 | the two parses agree when the host does not start with a character of the prefix |
| Ssdp.SearchLines | modules/ssdp.py:36-40 | seven lines, the last two empty, so the message ends in a blank line |
| Ssdp.GroupPortText | modules/ssdp.py:35 | the port is written `1900` |
| Ssdp.SearchLinesUnbroken | modules/ssdp.py:36-40 | no line of the message holds a carriage return |
| Ssdp.SearchMessageLines | modules/ssdp.py:36-47 | splitting the message at CRLF gives back its lines |
| Ssdp.SearchHost | modules/ssdp.py:35-47 | the HOST line names the multicast group `239.255.255.250:1900` |
| Ssdp.LastValuesKeyed | modules/ssdp.py:51 | the answer kept for a location is the last one received with it |
| Ssdp.KeptRow | modules/ssdp.py:51 | every row holds an answer of its location, received last among those |
| Ssdp.CollectedDistinct | modules/ssdp.py:51-54 | no two answers returned share a location |
| Ssdp.CollectedCovers | modules/ssdp.py:51-54 | every location received has an answer returned |
| Ssdp.CollectedLast | modules/ssdp.py:51-54 | each answer returned is the last one received for its location |
| Ssdp.CollectedOnePerLocation | modules/ssdp.py:42-54 | the answers returned are the values of the dict keyed by location (`Keyed`, `Collected`): no two share a location, every location received has one, and it is the last received |
| Ssdp.KeyedSnoc | modules/ssdp.py:51 | each answer received updates the dict in order |
| Ssdp.Collect | modules/ssdp.py:42-54 | the receive loop returns one answer per location, the last received for each |

## Left out

- Sockets, HTTP and timers: `request`'s connection and `discover`'s socket
  become a script of replies or a sequence of received answers. The retries
  and the timeout loop of `discover` become one sequence of answers.
- The header parsing of `SSDPResponse` is left out; an answer is its four
  fields.
- `build_discovered` is left out: it writes a file.
- `convert_color` is a parameter of the light import. Its floating-point
  formula is not modelled.
- Devices.Percent: the result is a real number, not a float. Float rounding
  is not modelled.
- `Group.import_all` and `PhilipsHueBridge.import_all` are left out. The
  first fails on any group: `cls.objects.create` is passed fields a `Group`
  does not have (`device`, `brightness`, `ct`, ...) and raises TypeError,
  before the write by index into an empty list that would fail next. The
  second calls the two importers, which are modelled, and then
  `LightGroup.import_all`, which `LightGroup` does not define: it raises
  AttributeError after the lights and sensors have been stored.
- The exception a timed-out request raises: a timeout while sending reaches
  a handler that formats `self.ip`, which the bridge record lacks, and so
  raises AttributeError; a timeout while reading the answer raises an
  uncaught `socket.timeout`. Both are the one `Timeout` failure here.
- The rule engine (`Condition`, `Rule`, `Action`) is outside this model.
- The NameError raised when `SoftHome/operations/models.py` is loaded
  (`Room` used at line 15 before its definition at line 74) is not modelled:
  the Rooms module describes the methods as if the module loaded.
- Creating the `default_machine` user in `register` is left out. The owner
  is a parameter.
- Django is left out:
  - field coercion and constraints;
  - `DecimalField` rounding to two places;
  - `save` and the database itself, which becomes in-memory tables.
- `str.isnumeric` is modelled on ASCII digits only.
- `int()` and `Decimal()` accept only the plain signed digit forms modelled
  in Strings. Whitespace, underscores and exponents are not modelled.
- The transition time is an int. `int(round(...))` of a float is not
  modelled.
- Dict aliasing is not modelled: `set_light` with a dict parameter adds
  `transitiontime` to the caller's dict.
- Other bridge methods are not part of this model:
  - `get_sensor` with an id;
  - `set_sensor`, `delete_sensor`;
  - `get_group`, `create_group`, `delete_group`;
  - `get_scene`;
  - the schedules;
  - `Room.get_connections` and `get_all_connections`.
- HuePayloads.TextsOf: `str` of a float is not modelled and fails.
  HuePayloads.GroupData inherits this.
- HuePayloads.NewSensorData: states only the optional `state` and `config`
  keys, not the seven fixed keys.
- HuePayloads.ReprOf: quotes inside a name are not escaped the way `repr`
  does.
- Json.PyStr: defined for strings, ints, bools and None. A float, list or
  dict fails instead of giving its text.
- Duplicate keys in a JSON object are not modelled; the decoder keeps the
  last one.
- HueBridge.PhilipsHueBridge.Register: a username that is not a string is
  not stored; the bridge user keeps `'None'`, because the field holds text.
- HueBridge.BridgeAttributes: lists the names the records declare and the
  primary key and manager, not every method Django gives a model; none of
  those is named `groups` or `scenes` either.
- HueBridge.PhilipsHueBridge.RunScene: returns false where the code returns
  None.

## Findings

| source | as written | input that shows it | evidently intended | confidence | as-written member | corrected member |
|---|---|---|---|---|---|---|
| SoftHome/operations/models.py:90-106 | `connection` is rebound to the stored row, and the row is then passed back as the connection type | `a.add_connection(b, 2, 1)` with `symm=True` | store the row back from `b` to `a` with the same type on the mirrored side | not executed | Rooms.ConnectionTable.AddConnectionAsWritten | Rooms.ConnectionTable.AddConnection |
| SoftHome/MachineInterface/models.py:426-429 | `del data["lastupdated"]` raises KeyError when the body has no such key | `set_sensor_content(1, 'on', True)` | drop `lastupdated` only when present | not executed | HuePayloads.SensorContentAsWrittenRejectsField | HuePayloads.SensorContent |
| SoftHome/MachineInterface/models.py:340 | a rename goes to `str(light_id)`, the whole argument, not the light of this pass | `set_light([1, 2], 'name', 'x')` sends both to `/lights/[1, 2]` | each rename to its own light's address | not executed | HuePayloads.NamePathAsWrittenMissesLights | HueBridge.RenameSendsEach |
| SoftHome/MachineInterface/models.py:545-546 | `self.groups` and `self.scenes` are not attributes of the bridge record | any `run_scene(g, s)` | read the bridge's groups and scenes | not executed | HueBridge.RunSceneRaisesOnBridge | HueBridge.PhilipsHueBridge.RunScene |
| modules/ssdp.py:68 | `lstrip(prefix)` strips a set of characters, so leading host characters found in the prefix go too | `parse_ip_address("http://hue/")` returns `ue` | drop the prefix, keeping the whole host | not executed | Ssdp.ParseIpAddressStripsHostLetters | Ssdp.ParseIpAddressIntended |
