/** The sensors and lights of a Hue bridge as stored devices: `Sensor.import_all`
    and `Light.import_all` read the bridge's inventory and update or create one
    stored row per device; a stored `Light` is switched and dimmed through its
    bridge. */
module Devices {
  import opened Wrappers
  import opened Strings
  import opened Json
  import opened HueWire
  import opened HuePayloads
  import opened Reconcile
  import opened HueBridge

  /** The bridge as the importers read it: its owner, its own device row, its
      address and its MAC address. */
  datatype Controller = Controller(owner: string, device: string, ipAddress: string, macAddress: Json)

  // ---------------------------------------------------------------------------
  // Sensors

  /** The fields `update_or_create` looks a sensor up by. */
  datatype SensorKey = SensorKey(owner: string, sensorType: Json, modelId: Json, uniqueId: Json, controller: string,
                                 controllerIndex: int, name: Json, deviceType: string, api: string)

  /** The `defaults` a sensor row is given. */
  datatype SensorValues = SensorValues(state: real, reachable: bool, ipAddress: string, macAddress: Json)

  /** `items[index]` on a list: an int or a bool index, negative ones counted
      from the end. */
  function ItemAt(items: seq<Json>, index: Json): (r: Outcome<Json>)
    ensures index.JInt? && 0 <= index.i < |items| ==> r == Ok(items[index.i])
    ensures index.JInt? && -|items| <= index.i < 0 ==> r == Ok(items[|items| + index.i])
    ensures index.JInt? && !(-|items| <= index.i < |items|) ==> r == Err(IndexError)
    ensures !index.JInt? && !index.JBool? ==> r == Err(TypeError)
    ensures r.Ok? ==> r.value in items
  {
    match index
    case JInt(n) =>
      if 0 <= n < |items| then Ok(items[n])
      else if -|items| <= n < 0 then Ok(items[|items| + n])
      else Err(IndexError)
    case JBool(b) =>
      var n := if b then 1 else 0;
      if n < |items| then Ok(items[n]) else Err(IndexError)
    case _ => Err(TypeError)
  }

  /** The value under the first key of a sensor's state dict that is not
      `lastupdated`; None when there is no other key. */
  function FirstFieldReading(fields: Fields): (r: Option<Json>)
    ensures r.None? <==> forall i | 0 <= i < |fields| :: fields[i].0 == "lastupdated"
    ensures r.Some? ==>
              exists i | 0 <= i < |fields| ::
                && fields[i].0 != "lastupdated" && fields[i].1 == r.value
                && forall j | 0 <= j < i :: fields[j].0 == "lastupdated"
  {
    if fields == [] then None
    else if fields[0].0 != "lastupdated" then Some(fields[0].1)
    else
      var r := FirstFieldReading(fields[1..]);
      assert forall i | 0 < i < |fields| :: fields[1..][i - 1] == fields[i];
      r
  }

  /** A negative index counts from the end: `items[n - len(items)]` is
      `items[n]`, and a bool indexes like 0 or 1. */
  lemma {:induction false} ItemAtFromEnd(items: seq<Json>, n: int)
    requires 0 <= n < |items|
    ensures ItemAt(items, JInt(n - |items|)) == ItemAt(items, JInt(n)) == Ok(items[n])
    ensures n <= 1 ==> ItemAt(items, JBool(n == 1)) == Ok(items[n])
  {
    assert |items| + (n - |items|) == n;
  }

  /** The reading of a state given as a list: its items are visited as keys,
      and the first that is not the text `lastupdated` indexes the list. */
  function FirstItemReading(items: seq<Json>, from: nat): (r: Outcome<Option<Json>>)
    requires from <= |items|
    ensures r == Ok(None) <==> forall i | from <= i < |items| :: items[i] == JStr("lastupdated")
    ensures r.Ok? && r.value.Some? ==> r.value.value in items
    ensures r.Err? ==>
              exists i | from <= i < |items| ::
                && items[i] != JStr("lastupdated") && ItemAt(items, items[i]) == Err(r.error)
                && forall j | from <= j < i :: items[j] == JStr("lastupdated")
    decreases |items| - from
  {
    if from == |items| then Ok(None)
    else if items[from] != JStr("lastupdated") then
      var v :- ItemAt(items, items[from]);
      Ok(Some(v))
    else FirstItemReading(items, from + 1)
  }

  /** The value the loop `for key in state: if key != 'lastupdated': ... break`
      reads: the first entry of a dict that is not `lastupdated`; an empty
      list or text reads nothing; indexing a text, or looping over a value
      that is not iterable, raises. */
  function StateReading(state: Json): (r: Outcome<Option<Json>>)
    ensures state.JObj? ==> r == Ok(FirstFieldReading(state.fields))
    ensures state.JStr? ==> (r == Ok(None) <==> state.s == [])
    ensures state.JArr? ==> (r == Ok(None) <==> forall i | 0 <= i < |state.items| :: state.items[i] == JStr("lastupdated"))
    ensures state.JArr? && r.Ok? && r.value.Some? ==> r.value.value in state.items
    ensures !(state.JObj? || state.JArr? || state.JStr?) ==> r == Err(TypeError)
  {
    match state
    case JObj(fields) => Ok(FirstFieldReading(fields))
    case JArr(items) => FirstItemReading(items, 0)
    case JStr(s) => if s == [] then Ok(None) else Err(TypeError)
    case _ => Err(TypeError)
  }

  /** The stored reading: the texts `'false'` and `'true'` read 0 and 1, any
      other value is converted by `Decimal`. */
  function ReadingValue(v: Json): (r: Outcome<real>)
    ensures v == JStr("false") ==> r == Ok(0.0)
    ensures v == JStr("true") ==> r == Ok(1.0)
    ensures v.JInt? ==> r == Ok(v.i as real)
    ensures v.JBool? ==> r == Ok(if v.b then 1.0 else 0.0)
    ensures v.JStr? && v.s != "false" && v.s != "true" ==> (r.Ok? <==> ParseDecimal(v.s).Some?)
  {
    if v == JStr("false") then Ok(0.0)
    else if v == JStr("true") then Ok(1.0)
    else PyDecimal(v)
  }

  /** `state_value`: 0 unless the state has a reading. */
  function SensorStateValue(state: Json): (r: Outcome<real>)
    ensures StateReading(state) == Ok(None) ==> r == Ok(0.0)
    ensures StateReading(state).Ok? && StateReading(state).value.Some? ==> r == ReadingValue(StateReading(state).value.value)
    ensures StateReading(state).Err? ==> r == Err(StateReading(state).error)
  {
    var reading :- StateReading(state);
    if reading.None? then Ok(0.0) else ReadingValue(reading.value)
  }

  /** One sensor of the inventory, under the id `id`, as the row
      `update_or_create` is called with; the first exception in the order
      the code evaluates the arguments is raised instead. */
  function SensorRow(c: Controller, api: string, id: string, entry: Json): (r: Outcome<Row<SensorKey, SensorValues>>)
    ensures r.Ok? ==> entry.JObj?
    ensures r.Ok? ==>
              && Member(entry, "type") == Ok(r.value.key.sensorType)
              && Member(entry, "modelid") == Ok(r.value.key.modelId)
              && Member(entry, "name") == Ok(r.value.key.name)
              && PyInt(JStr(id)) == Ok(r.value.key.controllerIndex)
              && (r.value.key.uniqueId == if HasKey(entry.fields, "uniqueid") then Get(entry.fields, "uniqueid").value else JNull)
    ensures r.Ok? ==> var state := Member(entry, "state"); state.Ok? && SensorStateValue(state.value) == Ok(r.value.values.state)
    ensures r.Ok? ==>
              r.value.key.owner == c.owner && r.value.key.controller == c.device
              && r.value.key.deviceType == "sensor" && r.value.key.api == api
              && r.value.values.reachable && r.value.values.ipAddress == c.ipAddress && r.value.values.macAddress == c.macAddress
    ensures !entry.JObj? ==> r == Err(TypeError)
  {
    var state :- Member(entry, "state");
    var value :- SensorStateValue(state);
    var sensorType :- Member(entry, "type");
    var modelId :- Member(entry, "modelid");
    var uniqueId := match Get(entry.fields, "uniqueid") case Some(u) => u case None => JNull;
    var index :- PyInt(JStr(id));
    var name :- Member(entry, "name");
    Ok(Row(SensorKey(c.owner, sensorType, modelId, uniqueId, c.device, index, name, "sensor", api),
           SensorValues(value, true, c.ipAddress, c.macAddress)))
  }

  function SensorDerivation(c: Controller, api: string): ((string, Json)) -> Outcome<Row<SensorKey, SensorValues>>
  {
    (p: (string, Json)) => SensorRow(c, api, p.0, p.1)
  }

  // ---------------------------------------------------------------------------
  // Lights

  /** The fields `update_or_create` looks a light up by. */
  datatype LightKey = LightKey(owner: string, modelId: Json, uniqueId: Json, controller: string, controllerIndex: int,
                               name: Json, deviceType: string, api: string)

  /** The `defaults` a light row is given. */
  datatype LightValues = LightValues(on: Json, brightness: int, colorTemperature: int, colorCieXy: Json,
                                     colormode: Json, alert: Json, reachable: Json, lightType: Json,
                                     ipAddress: string, macAddress: Json)

  const DefaultColorTemperature: int := 153
  const DefaultColorCieXy: Json := JStr("[0.31306, 0.32318]")

  /** The colour of a light's state: with a `ct` entry, its integer value and
      its conversion; with only an `xy` entry, the conversion of `int(xy)`
      goes into the integer colour-temperature column, which cannot store
      it; with neither, the column defaults. `convert` is `convert_color`. */
  function LightColor(state: Json, convert: Json -> Outcome<Json>): (r: Outcome<(int, Json)>)
    ensures In("ct", state) == Ok(true) ==>
              r == (match Member(state, "ct")
                    case Err(e) => Err(e)
                    case Ok(ct) =>
                      match PyInt(ct)
                      case Err(e) => Err(e)
                      case Ok(n) => match convert(ct) case Err(e) => Err(e) case Ok(xy) => Ok((n, xy)))
    ensures In("ct", state) == Ok(false) && In("xy", state) == Ok(true) ==> r.Err?
    ensures In("ct", state) == Ok(false) && In("xy", state) == Ok(false) ==> r == Ok((DefaultColorTemperature, DefaultColorCieXy))
  {
    var hasCt :- In("ct", state);
    if hasCt then
      var ct :- Member(state, "ct");
      var n :- PyInt(ct);
      var xy :- convert(ct);
      Ok((n, xy))
    else
      var hasXy :- In("xy", state);
      if hasXy then
        var xy :- Member(state, "xy");
        var n :- PyInt(xy);
        var _ :- convert(JInt(n));
        Err(ValueError)
      else Ok((DefaultColorTemperature, DefaultColorCieXy))
  }

  /** The defaults of a light read from the `state` of its entry. */
  predicate ReadsState(state: Json, convert: Json -> Outcome<Json>, v: LightValues)
  {
    var bri := Member(state, "bri");
    && Member(state, "on") == Ok(v.on)
    && bri.Ok? && PyInt(bri.value) == Ok(v.brightness)
    && LightColor(state, convert) == Ok((v.colorTemperature, v.colorCieXy))
    && Member(state, "colormode") == Ok(v.colormode)
    && Member(state, "alert") == Ok(v.alert)
    && Member(state, "reachable") == Ok(v.reachable)
  }

  /** One light of the inventory, under the id `id`, as the row
      `update_or_create` is called with. */
  function LightRow(c: Controller, api: string, convert: Json -> Outcome<Json>, id: string, entry: Json)
    : (r: Outcome<Row<LightKey, LightValues>>)
    ensures r.Ok? ==>
              && Member(entry, "modelid") == Ok(r.value.key.modelId)
              && Member(entry, "uniqueid") == Ok(r.value.key.uniqueId)
              && Member(entry, "name") == Ok(r.value.key.name)
              && Member(entry, "type") == Ok(r.value.values.lightType)
              && PyInt(JStr(id)) == Ok(r.value.key.controllerIndex)
    ensures r.Ok? ==> Member(entry, "state").Ok? && ReadsState(Member(entry, "state").value, convert, r.value.values)
    ensures r.Ok? ==>
              r.value.key.owner == c.owner && r.value.key.controller == c.device
              && r.value.key.deviceType == "light bulb" && r.value.key.api == api
              && r.value.values.ipAddress == c.ipAddress && r.value.values.macAddress == c.macAddress
  {
    var state :- Member(entry, "state");
    var color :- LightColor(state, convert);
    var modelId :- Member(entry, "modelid");
    var uniqueId :- Member(entry, "uniqueid");
    var index :- PyInt(JStr(id));
    var name :- Member(entry, "name");
    var on :- Member(state, "on");
    var bri :- Member(state, "bri");
    var brightness :- PyInt(bri);
    var colormode :- Member(state, "colormode");
    var alert :- Member(state, "alert");
    var reachable :- Member(state, "reachable");
    var lightType :- Member(entry, "type");
    Ok(Row(LightKey(c.owner, modelId, uniqueId, c.device, index, name, "light bulb", api),
           LightValues(on, brightness, color.0, color.1, colormode, alert, reachable, lightType, c.ipAddress, c.macAddress)))
  }

  function LightDerivation(c: Controller, api: string, convert: Json -> Outcome<Json>)
    : ((string, Json)) -> Outcome<Row<LightKey, LightValues>>
  {
    (p: (string, Json)) => LightRow(c, api, convert, p.0, p.1)
  }

  // ---------------------------------------------------------------------------
  // Importing

  function ControllerOf(bridge: PhilipsHueBridge): Controller
    reads bridge
  {
    Controller(bridge.owner, bridge.id, bridge.ipAddress, bridge.macAddress)
  }

  /** The inventory the bridge answers with: a dict of entries by id. */
  function Inventory(reply: Outcome<Json>): Outcome<Fields>
  {
    var body :- reply;
    Collection(body)
  }

  /** `Sensor.import_all`: for the `philips` api, read the bridge's sensors and
      update or create one row per sensor, in the inventory's order; the
      first sensor that cannot be read raises, the rows written before it
      staying written. Any other api imports nothing. */
  method ImportSensors(api: string, bridge: PhilipsHueBridge, table: Table<SensorKey, SensorValues>)
    returns (r: Outcome<seq<Row<SensorKey, SensorValues>>>)
    requires table.Valid()
    modifies bridge`log, bridge`replies, table
    ensures table.Valid()
    ensures api != "philips" ==> r == Ok([]) && bridge.Exchange() == old(bridge.Exchange()) && table.rows == old(table.rows)
    ensures api == "philips" ==>
              && bridge.Exchange() == Call(old(bridge.Exchange()), Request(GET, ApiPath(bridge.bridgeUser, "/sensors/"), None)).0
              && var inventory := Inventory(Received(old(bridge.replies)));
              && (inventory.Err? ==> r == Err(inventory.error) && table.rows == old(table.rows))
              && (inventory.Ok? ==>
                    var plan := DeriveAll(inventory.value, SensorDerivation(ControllerOf(bridge), api));
                    && table.rows == UpsertAll(old(table.rows), plan.rows)
                    && (r.Ok? <==> plan.failure.None?)
                    && (r.Ok? ==> r.value == plan.rows)
                    && (r.Err? ==> r.error == plan.failure.value))
  {
    if api != "philips" {
      return Ok([]);
    }
    var reply := bridge.Send(Request(GET, ApiPath(bridge.bridgeUser, "/sensors/"), None));
    if reply.Err? {
      return Err(reply.error);
    }
    var entries := Collection(reply.value);
    if entries.Err? {
      return Err(entries.error);
    }
    r := table.ImportEntries(entries.value, SensorDerivation(ControllerOf(bridge), api));
  }

  /** `Light.import_all`, in the same way; `convert` is `convert_color`. */
  method ImportLights(api: string, bridge: PhilipsHueBridge, table: Table<LightKey, LightValues>,
                      convert: Json -> Outcome<Json>)
    returns (r: Outcome<seq<Row<LightKey, LightValues>>>)
    requires table.Valid()
    modifies bridge`log, bridge`replies, table
    ensures table.Valid()
    ensures api != "philips" ==> r == Ok([]) && bridge.Exchange() == old(bridge.Exchange()) && table.rows == old(table.rows)
    ensures api == "philips" ==>
              && bridge.Exchange() == Call(old(bridge.Exchange()), Request(GET, ApiPath(bridge.bridgeUser, "/lights/"), None)).0
              && var inventory := Inventory(Received(old(bridge.replies)));
              && (inventory.Err? ==> r == Err(inventory.error) && table.rows == old(table.rows))
              && (inventory.Ok? ==>
                    var plan := DeriveAll(inventory.value, LightDerivation(ControllerOf(bridge), api, convert));
                    && table.rows == UpsertAll(old(table.rows), plan.rows)
                    && (r.Ok? <==> plan.failure.None?)
                    && (r.Ok? ==> r.value == plan.rows)
                    && (r.Err? ==> r.error == plan.failure.value))
  {
    if api != "philips" {
      return Ok([]);
    }
    var reply := bridge.Send(Request(GET, ApiPath(bridge.bridgeUser, "/lights/"), None));
    if reply.Err? {
      return Err(reply.error);
    }
    var entries := Collection(reply.value);
    if entries.Err? {
      return Err(entries.error);
    }
    r := table.ImportEntries(entries.value, LightDerivation(ControllerOf(bridge), api, convert));
  }

  // ---------------------------------------------------------------------------
  // Commands to one light

  /** `'error' in result[-1][0].keys()` read the other way round: whether the
      last reply's first line reports no error. */
  function Confirmed(replies: seq<Json>): (r: Outcome<bool>)
    ensures replies == [] ==> r == Err(IndexError)
    ensures replies != [] && FirstLine(replies[|replies| - 1]).Ok? ==>
              r == Ok(!HasKey(FirstLine(replies[|replies| - 1]).value, "error"))
  {
    if replies == [] then Err(IndexError)
    else
      var line :- FirstLine(replies[|replies| - 1]);
      Ok(!HasKey(line, "error"))
  }

  /** `hub.set_light(controller_index, name, value, transition_time)` on the
      wire, and whether the bridge accepted it. */
  function Commanded(w: Wire, user: string, index: int, name: string, value: Json, transitionTime: Option<int>)
    : (Wire, Outcome<bool>)
  {
    var res := Run(w, [Index(index)], LightStep(user, Field(name), LightData(Field(name), value, transitionTime)));
    (res.0, if res.1.Err? then Err(res.1.error) else Confirmed(res.1.value))
  }

  /** A command to one light sends exactly one request, to the light's state,
      whatever the bridge answers; it is accepted exactly when the bridge
      answers with a first line that holds no `error` key. */
  lemma CommandSendsOne(w: Wire, user: string, index: int, name: string, value: Json, transitionTime: Option<int>)
    requires name != "name"
    ensures var c := Commanded(w, user, index, name, value, transitionTime);
      && c.0.log == w.log + [Request(PUT, StatePath(user, IntToString(index)), Some(JObj(LightData(Field(name), value, transitionTime))))]
      && c.0.replies == Rest(w.replies)
      && (c.1 == Ok(true) <==>
            && w.replies != [] && w.replies[0].Answer?
            && FirstLine(w.replies[0].body).Ok? && !HasKey(FirstLine(w.replies[0].body).value, "error"))
  {
    var data := LightData(Field(name), value, transitionTime);
    var step := LightStep(user, Field(name), data);
    LightStepIs(user, Field(name), data);
    assert step(w, Index(index)) == LightRequest(user, Field(name), data, w, Index(index));
    RunSnoc(w, [], Index(index), step);
    assert [] + [Index(index)] == [Index(index)];
  }

  /** `brightness*255/100`: true division of a number; anything else raises. */
  function Percent(brightness: Json): (r: Outcome<Json>)
    ensures brightness.JInt? ==> r == Ok(JReal((brightness.i * 255) as real / 100.0))
    ensures !(brightness.JInt? || brightness.JReal? || brightness.JBool?) ==> r == Err(TypeError)
    ensures r.Ok? ==> r.value.JReal?
    ensures brightness.JInt? && 0 <= brightness.i <= 100 ==> 0.0 <= r.value.r <= 255.0
    ensures brightness == JInt(100) ==> r == Ok(JReal(255.0))
  {
    match brightness
    case JInt(i) => Ok(JReal((i * 255) as real / 100.0))
    case JBool(b) => Ok(JReal(if b then 2.55 else 0.0))
    case JReal(x) => Ok(JReal(x * 255.0 / 100.0))
    case _ => Err(TypeError)
  }

  /** A stored light of a Hue bridge. Its commands return None for another
      api, True when the bridge accepted the command (the new setting is
      then stored), and False when it reported an error. */
  class Light {
    const api: string
    const controller: string
    const controllerIndex: int
    var state: Json
    var brightness: Json
    /** The stored `color_temperature` column. */
    var colorTemperature: Json
    /** The plain attribute `ct` that `set_color` assigns; it is no column,
        so `save()` does not store it. */
    var ct: Option<Json>

    constructor (api: string, controller: string, controllerIndex: int, state: Json, brightness: Json,
                 colorTemperature: Json)
      ensures this.api == api && this.controller == controller && this.controllerIndex == controllerIndex
      ensures this.state == state && this.brightness == brightness && this.colorTemperature == colorTemperature
      ensures ct.None?
    {
      this.colorTemperature := colorTemperature;
      this.api := api;
      this.controller := controller;
      this.controllerIndex := controllerIndex;
      this.state := state;
      this.brightness := brightness;
      ct := None;
    }

    /** One command through the bridge. */
    method Command(hub: PhilipsHueBridge, name: string, value: Json, transitionTime: Option<int>) returns (r: Outcome<bool>)
      modifies hub`log, hub`replies
      ensures (hub.Exchange(), r) == Commanded(old(hub.Exchange()), hub.bridgeUser, controllerIndex, name, value, transitionTime)
    {
      var result := hub.SetLight(One(Index(controllerIndex)), Field(name), value, transitionTime);
      if result.Err? {
        return Err(result.error);
      }
      r := Confirmed(result.value);
    }

    /** `on` */
    method On(hub: PhilipsHueBridge, transitionTime: Option<int>) returns (r: Outcome<Option<bool>>)
      requires hub.id == controller
      modifies this`state, hub`log, hub`replies
      ensures api != "philips" ==> r == Ok(None) && hub.Exchange() == old(hub.Exchange()) && state == old(state)
      ensures api == "philips" ==>
                var c := Commanded(old(hub.Exchange()), hub.bridgeUser, controllerIndex, "on", JBool(true), transitionTime);
                && hub.Exchange() == c.0
                && r == (if c.1.Err? then Err(c.1.error) else Ok(Some(c.1.value)))
                && state == (if c.1 == Ok(true) then JBool(true) else old(state))
    {
      if api != "philips" {
        return Ok(None);
      }
      var accepted := Command(hub, "on", JBool(true), transitionTime);
      if accepted.Err? {
        return Err(accepted.error);
      }
      if accepted.value {
        state := JBool(true);
      }
      r := Ok(Some(accepted.value));
    }

    /** `off` */
    method Off(hub: PhilipsHueBridge, transitionTime: Option<int>) returns (r: Outcome<Option<bool>>)
      requires hub.id == controller
      modifies this`state, hub`log, hub`replies
      ensures api != "philips" ==> r == Ok(None) && hub.Exchange() == old(hub.Exchange()) && state == old(state)
      ensures api == "philips" ==>
                var c := Commanded(old(hub.Exchange()), hub.bridgeUser, controllerIndex, "on", JBool(false), transitionTime);
                && hub.Exchange() == c.0
                && r == (if c.1.Err? then Err(c.1.error) else Ok(Some(c.1.value)))
                && state == (if c.1 == Ok(true) then JBool(false) else old(state))
    {
      if api != "philips" {
        return Ok(None);
      }
      var accepted := Command(hub, "on", JBool(false), transitionTime);
      if accepted.Err? {
        return Err(accepted.error);
      }
      if accepted.value {
        state := JBool(false);
      }
      r := Ok(Some(accepted.value));
    }

    /** `set_brightness`: a percentage is rescaled to 0-255 first, for every api. */
    method SetBrightness(hub: PhilipsHueBridge, level: Json, percentage: bool, transitionTime: Option<int>)
      returns (r: Outcome<Option<bool>>)
      requires hub.id == controller
      modifies this`brightness, hub`log, hub`replies
      ensures var value := if percentage then Percent(level) else Ok(level);
        && (value.Err? ==> r == Err(value.error) && hub.Exchange() == old(hub.Exchange()) && brightness == old(brightness))
        && (value.Ok? && api != "philips" ==>
              r == Ok(None) && hub.Exchange() == old(hub.Exchange()) && brightness == old(brightness))
        && (value.Ok? && api == "philips" ==>
              var c := Commanded(old(hub.Exchange()), hub.bridgeUser, controllerIndex, "bri", value.value, transitionTime);
              && hub.Exchange() == c.0
              && r == (if c.1.Err? then Err(c.1.error) else Ok(Some(c.1.value)))
              && brightness == (if c.1 == Ok(true) then value.value else old(brightness)))
    {
      var value := level;
      if percentage {
        var scaled := Percent(level);
        if scaled.Err? {
          return Err(scaled.error);
        }
        value := scaled.value;
      }
      if api != "philips" {
        return Ok(None);
      }
      var accepted := Command(hub, "bri", value, transitionTime);
      if accepted.Err? {
        return Err(accepted.error);
      }
      if accepted.value {
        brightness := value;
      }
      r := Ok(Some(accepted.value));
    }

    /** `set_color`: the colour temperature is sent as `ct` and kept in the
        attribute `ct`; the stored `color_temperature` never changes. */
    method SetColor(hub: PhilipsHueBridge, temperature: Json, transitionTime: Option<int>) returns (r: Outcome<Option<bool>>)
      requires hub.id == controller
      modifies this`ct, hub`log, hub`replies
      ensures api != "philips" ==> r == Ok(None) && hub.Exchange() == old(hub.Exchange()) && ct == old(ct)
      ensures api == "philips" ==>
                var c := Commanded(old(hub.Exchange()), hub.bridgeUser, controllerIndex, "ct", temperature, transitionTime);
                && hub.Exchange() == c.0
                && r == (if c.1.Err? then Err(c.1.error) else Ok(Some(c.1.value)))
                && ct == (if c.1 == Ok(true) then Some(temperature) else old(ct))
      ensures colorTemperature == old(colorTemperature)
    {
      if api != "philips" {
        return Ok(None);
      }
      var accepted := Command(hub, "ct", temperature, transitionTime);
      if accepted.Err? {
        return Err(accepted.error);
      }
      if accepted.value {
        ct := Some(temperature);
      }
      r := Ok(Some(accepted.value));
    }
  }
}
