/** The request bodies and addresses the bridge client builds before it sends
    anything: the payloads of `set_light`, `set_group`, `create_sensor` and
    `set_sensor_content`, and the addresses of light requests. */
module HuePayloads {
  import opened Wrappers
  import opened Strings
  import opened Json
  import opened HueWire

  /** The `parameter` argument: a dict of settings sent as given, or the name
      of one setting whose value is the `value` argument. */
  datatype Param = Patch(fields: Fields) | Field(name: string)

  /** `data = parameter` for a dict, `data = {parameter: value}` otherwise. */
  function BaseData(param: Param, value: Json): (data: Fields)
    ensures param.Patch? ==> data == param.fields
    ensures param.Field? ==> Keys(data) == [param.name] && Get(data, param.name) == Some(value)
  {
    match param
    case Patch(fields) => fields
    case Field(name) => Single(name, value)
  }

  /** `data['transitiontime'] = int(round(transitiontime))` when one is given
      (the caller passes the rounded number). */
  function WithTransition(data: Fields, transitiontime: Option<int>): (r: Fields)
    ensures transitiontime.None? ==> r == data
    ensures transitiontime.Some? ==> Get(r, "transitiontime") == Some(JInt(transitiontime.value))
    ensures forall k | k != "transitiontime" :: Get(r, k) == Get(data, k)
  {
    match transitiontime
    case None => data
    case Some(t) => Put(data, "transitiontime", JInt(t))
  }

  /** The body of every request `set_light` sends: the dict argument as given
      or `{parameter: value}`, with the transition time added only when one
      is given. */
  function LightData(param: Param, value: Json, transitiontime: Option<int>): (data: Fields)
    ensures transitiontime.None? ==> data == BaseData(param, value)
    ensures transitiontime.Some? ==> Get(data, "transitiontime") == Some(JInt(transitiontime.value))
    ensures param.Field? && param.name != "transitiontime" ==> Get(data, param.name) == Some(value)
    ensures param.Field? ==> forall k | k != param.name && k != "transitiontime" :: Get(data, k).None?
    ensures param.Patch? ==> forall k | k != "transitiontime" :: Get(data, k) == Get(param.fields, k)
  {
    WithTransition(BaseData(param, value), transitiontime)
  }

  /** `[str(x) for x in items]`. The text of a float, a list or a dict is not
      computed here; such an element is reported as a TypeError. */
  function TextsOf(items: seq<Json>): (r: Outcome<seq<Json>>)
    ensures r.Ok? <==> forall i | 0 <= i < |items| :: PyStr(items[i]).Ok?
    ensures r.Ok? ==> |r.value| == |items|
    ensures r.Ok? ==> forall i | 0 <= i < |items| :: r.value[i] == JStr(PyStr(items[i]).value)
  {
    if items == [] then Ok([])
    else
      var first :- PyStr(items[0]);
      var rest :- TextsOf(items[1..]);
      Ok([JStr(first)] + rest)
  }

  /** The body of every request `set_group` sends. For the `'lights'`
      setting a list value, or an int value wrapped in a list (a bool is an
      int to Python), becomes the list of its elements' texts. */
  function GroupData(param: Param, value: Json, transitiontime: Option<int>): (r: Outcome<Fields>)
    ensures param.Patch? ==> r == Ok(WithTransition(param.fields, transitiontime))
    ensures param == Field("lights") && value.JArr? ==>
              r.Ok? == TextsOf(value.items).Ok? &&
              (r.Ok? ==> Get(r.value, "lights") == Some(JArr(TextsOf(value.items).value)))
    ensures param == Field("lights") && value.JInt? ==>
              r == Ok(WithTransition(Single("lights", JArr([JStr(IntToString(value.i))])), transitiontime))
    ensures param.Field? && !(param.name == "lights" && (value.JArr? || value.JInt? || value.JBool?)) ==>
              r == Ok(LightData(param, value, transitiontime))
  {
    match param
    case Patch(fields) => Ok(WithTransition(fields, transitiontime))
    case Field(name) =>
      if name == "lights" && (value.JArr? || value.JInt? || value.JBool?) then
        var items := if value.JArr? then value.items else [value];
        var texts :- TextsOf(items);
        assert value.JInt? ==> texts == [JStr(IntToString(value.i))];
        Ok(WithTransition(Single(name, JArr(texts)), transitiontime))
      else Ok(LightData(param, value, transitiontime))
  }

  /** `isinstance(v, dict) and v != {}` */
  predicate NonEmptyDict(v: Json)
  {
    v.JObj? && v.fields != []
  }

  /** The body `create_sensor` posts: the seven descriptive fields, then
      `state` and `config`, each only when it is a non-empty dict. */
  function NewSensorData(name: Json, modelid: Json, swversion: Json, sensorType: Json, uniqueid: Json,
                         manufacturername: Json, state: Json, config: Json, recycle: Json): (data: Fields)
    ensures Get(data, "state") == if NonEmptyDict(state) then Some(state) else None
    ensures Get(data, "config") == if NonEmptyDict(config) then Some(config) else None
  {
    var described := [("name", name), ("modelid", modelid), ("swversion", swversion), ("type", sensorType),
                      ("uniqueid", uniqueid), ("manufacturername", manufacturername), ("recycle", recycle)];
    GetAbsent(described, "state");
    GetAbsent(described, "config");
    var withState := if NonEmptyDict(state) then Put(described, "state", state) else described;
    if NonEmptyDict(config) then Put(withState, "config", config) else withState
  }

  /** The body of `set_sensor_content` as the code builds it: a copy of the
      dict argument or `{parameter: value}`, then `del data["lastupdated"]`,
      which raises KeyError when the key is not there. */
  function SensorContentAsWritten(param: Param, value: Json): (r: Outcome<Fields>)
    ensures r.Ok? <==> HasKey(BaseData(param, value), "lastupdated")
    ensures r.Err? ==> r.error == KeyError("lastupdated")
  {
    var data := BaseData(param, value);
    if HasKey(data, "lastupdated") then Ok(Remove(data, "lastupdated")) else Err(KeyError("lastupdated"))
  }

  /** Setting any single field other than `lastupdated` always fails as written. */
  lemma SensorContentAsWrittenRejectsField(name: string, value: Json)
    requires name != "lastupdated"
    ensures SensorContentAsWritten(Field(name), value) == Err(KeyError("lastupdated"))
  {
    assert Keys(Single(name, value)) == [name];
  }

  /** The body the comment beside the deletion asks for: the data without a
      `lastupdated` entry, whether or not it had one. */
  function SensorContent(param: Param, value: Json): (data: Fields)
    ensures !HasKey(data, "lastupdated")
    ensures forall k | k != "lastupdated" :: Get(data, k) == Get(BaseData(param, value), k)
    ensures SensorContentAsWritten(param, value).Ok? ==> data == SensorContentAsWritten(param, value).value
  {
    Remove(BaseData(param, value), "lastupdated")
  }

  // ---------------------------------------------------------------------------
  // Addresses of light requests

  /** `'/api/' + user + '/lights/' + id + '/state'` */
  function StatePath(user: string, id: string): string
  {
    ApiPath(user, "/lights/" + id + "/state")
  }

  /** `repr` of one id inside a list: an int as its digits, a str quoted
      (the escaping of quotes inside a name is not modelled). */
  function ReprOf(r: Ref): string
  {
    match r
    case Index(n) => IntToString(n)
    case Name(s) => "'" + s + "'"
  }

  function ReprItems(refs: seq<Ref>): string
  {
    if refs == [] then "" else if |refs| == 1 then ReprOf(refs[0]) else ReprOf(refs[0]) + ", " + ReprItems(refs[1..])
  }

  /** `str(light_id)` of the whole argument. */
  function TargetText(t: Target): string
  {
    match t
    case One(r) => RefText(r)
    case Many(refs) => "[" + ReprItems(refs) + "]"
  }

  /** The address a rename goes to AS WRITTEN: every pass of the loop uses
      `str(light_id)`, the text of the whole argument, not the current light. */
  function NamePathAsWritten(user: string, t: Target): string
  {
    ApiPath(user, "/lights/" + TargetText(t))
  }

  /** The address a rename of one light goes to: that light's own address. */
  function NamePath(user: string, light: Ref): (p: string)
    ensures forall t: Target | t == One(light) :: p == NamePathAsWritten(user, t)
  {
    ApiPath(user, "/lights/" + RefText(light))
  }

  /** Renaming the lights 1 and 2 in one call sends both renames to the
      address `/lights/[1, 2]`, which is neither light's. */
  lemma NamePathAsWrittenMissesLights()
    ensures NamePathAsWritten("u", Many([Index(1), Index(2)])) == "/api/u/lights/[1, 2]"
    ensures NamePath("u", Index(1)) == "/api/u/lights/1" && NamePath("u", Index(2)) == "/api/u/lights/2"
  {
    assert IntToString(1) == "1" && IntToString(2) == "2";
    assert ReprItems([Index(1), Index(2)]) == "1, 2";
  }
}
