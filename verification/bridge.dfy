/** The `PhilipsHueBridge` record and the requests it sends. Its `request`
    is the wire of HueWire: the bridge keeps the log of requests it has sent
    and the script of replies still to come. */
module HueBridge {
  import opened Wrappers
  import opened Strings
  import opened Json
  import opened HueWire
  import opened HuePayloads
  import opened HueRegistration
  import opened HueLookup

  /** What `register` ends with: the bridge, a refusal code, or an exception. */
  datatype Registration = Registered | RegistrationError(code: int) | Raised(failure: Failure)

  /** What `create_sensor` returns: `(new_id, None)` or `(None, result[0])`. */
  datatype Creation = Created(id: Json) | Rejected(line: Fields)

  /** Why `set_group` stops early: an exception, or a group name that is not
      found (the method then returns None). */
  datatype GroupStop = Raise(failure: Failure) | NoSuchGroup

  /** `POST /api {"devicetype": "python_hue"}` */
  const RegisterRequest: Request := Request(POST, "/api", Some(JObj([("devicetype", JStr("python_hue"))])))

  function ConfigRequest(user: string): Request
  {
    Request(GET, ApiPath(user, "/config/"), None)
  }

  /** The scan of the registration answer, or the exception of the request itself. */
  function RegistrationScan(reply: Outcome<Json>): (s: Scan)
    ensures KnownRefusal(s)
  {
    match reply
    case Err(e) => Scan(Unregistered.user, Some(Broken(e)))
    case Ok(body) => ScanResponse(body)
  }

  /** The three configuration fields `update_config` stores, or the
      exception of the request or of the first one missing. */
  function ConfigOf(reply: Outcome<Json>): (r: Outcome<(Json, Json, Json)>)
    ensures r.Ok? ==> reply.Ok? && Member(reply.value, "swversion") == Ok(r.value.0)
    ensures r.Ok? ==> Member(reply.value, "bridgeid") == Ok(r.value.1) && Member(reply.value, "mac") == Ok(r.value.2)
  {
    var body :- reply;
    var sw :- Member(body, "swversion");
    var bid :- Member(body, "bridgeid");
    var mac :- Member(body, "mac");
    Ok((sw, bid, mac))
  }

  /** `str(light_id)` after a name lookup: the id found, or `False`. */
  function IdText(found: Option<string>): string
  {
    match found
    case Some(id) => id
    case None => "False"
  }

  // ---------------------------------------------------------------------------
  // One pass of the `set_light` and `set_group` loops

  /** The request `set_light` sends for one light: a rename goes to the
      light's own address; any other setting goes to `/lights/<id>/state`,
      a light given by name being looked up first. */
  function LightRequest(user: string, param: Param, data: Fields, w: Wire, light: Ref): (Wire, Outcome<Json>)
  {
    if param == Field("name") then Call(w, Request(PUT, NamePath(user, light), Some(JObj(data))))
    else
      match light
      case Index(n) => Call(w, Request(PUT, StatePath(user, IntToString(n)), Some(JObj(data))))
      case Name(s) =>
        var (w1, found) := Lookup(w, user, Lights, s);
        match found
        case Err(e) => (w1, Err(e))
        case Ok(id) => Call(w1, Request(PUT, StatePath(user, IdText(id)), Some(JObj(data))))
  }

  function LightStep(user: string, param: Param, data: Fields): (Wire, Ref) -> (Wire, Outcome<Json>)
  {
    (w: Wire, light: Ref) => LightRequest(user, param, data, w, light)
  }

  /** `step` does for each light what `set_light` does. The loops and
      lemmas below take the step through this predicate, so that a request is
      worked out only where a proof looks at it. */
  ghost predicate IsLightStep(step: (Wire, Ref) -> (Wire, Outcome<Json>), user: string, param: Param, data: Fields)
  {
    forall w: Wire, light: Ref {:trigger LightRequest(user, param, data, w, light)} ::
      step(w, light) == LightRequest(user, param, data, w, light)
  }

  lemma LightStepIs(user: string, param: Param, data: Fields)
    ensures IsLightStep(LightStep(user, param, data), user, param, data)
  {
  }

  /** The address `set_group` sends to: the group itself for its name or
      its lights, its `action` for anything else. */
  function GroupPath(user: string, param: Param, id: string): string
  {
    if param == Field("name") || param == Field("lights") then ApiPath(user, "/groups/" + id)
    else ApiPath(user, "/groups/" + id + "/action")
  }

  /** The request `set_group` sends for one group; a group name that is not
      found stops the loop. */
  function GroupRequest(user: string, param: Param, data: Fields, w: Wire, group: Ref): (Wire, Result<Json, GroupStop>)
  {
    var (w1, found) :=
      match group
      case Index(n) => (w, Ok(Some(IntToString(n))))
      case Name(s) => Lookup(w, user, Groups, s);
    match found
    case Err(e) => (w1, Err(Raise(e)))
    case Ok(None) => (w1, Err(NoSuchGroup))
    case Ok(Some(id)) =>
      var (w2, reply) := Call(w1, Request(PUT, GroupPath(user, param, id), Some(JObj(data))));
      match reply
      case Err(e) => (w2, Err(Raise(e)))
      case Ok(body) => (w2, Ok(body))
  }

  function GroupStep(user: string, param: Param, data: Fields): (Wire, Ref) -> (Wire, Result<Json, GroupStop>)
  {
    (w: Wire, group: Ref) => GroupRequest(user, param, data, w, group)
  }

  /** `step` does for each group what `set_group` does. */
  ghost predicate IsGroupStep(step: (Wire, Ref) -> (Wire, Result<Json, GroupStop>), user: string, param: Param, data: Fields)
  {
    forall w: Wire, group: Ref {:trigger GroupRequest(user, param, data, w, group)} ::
      step(w, group) == GroupRequest(user, param, data, w, group)
  }

  lemma GroupStepIs(user: string, param: Param, data: Fields)
    ensures IsGroupStep(GroupStep(user, param, data), user, param, data)
  {
  }

  /** `set_group`'s result: the replies, None after an unknown group name, or the exception. */
  function GroupOutcome(r: Result<seq<Json>, GroupStop>): Outcome<Option<seq<Json>>>
  {
    match r
    case Ok(replies) => Ok(Some(replies))
    case Err(NoSuchGroup) => Ok(None)
    case Err(Raise(e)) => Err(e)
  }

  // ---------------------------------------------------------------------------
  // Replies

  /** What `create_sensor` makes of the bridge's answer: `result[0]` must be
      a dict; with a `success` key its `['success']['id']` is the new id,
      otherwise the line itself is returned. */
  function CreationOf(body: Json): (r: Outcome<Creation>)
    ensures r.Ok? ==> body.JArr? && body.items != [] && body.items[0].JObj?
    ensures r.Ok? && r.value.Created? ==> Member2(body.items[0], "success", "id") == Ok(r.value.id)
    ensures r.Ok? && r.value.Rejected? ==>
              r.value.line == body.items[0].fields && !HasKey(body.items[0].fields, "success")
    ensures body.JArr? && body.items != [] && body.items[0].JObj? && !HasKey(body.items[0].fields, "success") ==>
              r.Ok? && r.value.Rejected?
  {
    var line :- FirstLine(body);
    if HasKey(line, "success") then
      var id :- Member2(JObj(line), "success", "id");
      Ok(Created(id))
    else Ok(Rejected(line))
  }

  /** What `get_light` returns from a light's state: the whole state, one of
      the light's descriptive fields, or a field of its `state` dict, where a
      missing field (KeyError) reads as False. */
  function LightQuery(state: Json, parameter: Option<string>): (r: Outcome<Json>)
    ensures parameter.None? ==> r == Ok(state)
    ensures parameter.Some? && parameter.value in DescriptiveFields ==> r == Member(state, parameter.value)
    ensures parameter.Some? && parameter.value !in DescriptiveFields ==>
              && (r.Err? ==> !r.error.KeyError? && r == Member2(state, "state", parameter.value))
              && (r.Ok? && r.value != JBool(false) ==> r == Member2(state, "state", parameter.value))
              && (state.JObj? && !HasKey(state.fields, "state") ==> r == Ok(JBool(false)))
  {
    match parameter
    case None => Ok(state)
    case Some(p) =>
      if p in DescriptiveFields then Member(state, p)
      else
        match Member2(state, "state", p)
        case Err(KeyError(_)) => Ok(JBool(false))
        case other => other
  }

  const DescriptiveFields: set<string> := {"name", "type", "uniqueid", "swversion"}

  /** `get_light`'s reading of a reply: the reply's exception, or the query on the state. */
  function QueryReply(reply: Outcome<Json>, parameter: Option<string>): Outcome<Json>
  {
    var state :- reply;
    LightQuery(state, parameter)
  }

  function LightGet(user: string, id: string): Request
  {
    Request(GET, ApiPath(user, "/lights/" + id), None)
  }

  /** `PUT /api/<user>/groups/<group>/action {"scene": <scene>}` */
  function ActivateRequest(user: string, groupId: string, sceneId: string): Request
  {
    Request(PUT, ApiPath(user, "/groups/" + groupId + "/action"), Some(JObj([("scene", JStr(sceneId))])))
  }

  /** The columns `PhilipsHueBridge` declares. */
  const BridgeColumns: set<string> := {"device", "bridge_user", "bridge_id", "swversion"}

  /** The methods `PhilipsHueBridge` declares. */
  const BridgeMethods: set<string> :=
    {"register", "request", "import_all", "update_config", "get_light", "get_light_id_by_name",
     "set_light", "get_sensor_id_by_name", "create_sensor", "get_sensor", "set_sensor",
     "set_sensor_content", "delete_sensor", "get_group", "get_group_id_by_name", "set_group",
     "create_group", "delete_group", "get_scene", "activate_scene", "run_scene",
     "get_schedule", "create_schedule", "create_group_schedule", "delete_schedule"}

  /** What the record inherits from `Device`: its columns and method, the
      primary key and the manager. */
  const DeviceAttributes: set<string> :=
    {"user", "name", "ip_address", "mac_address", "last_updated", "created", "enabled",
     "device_type", "api", "get_user_device_list", "id", "pk", "objects"}

  /** The reverse relations other records declare towards a device. */
  const DeviceRelations: set<string> :=
    {"philips_device", "wifi_device", "sensor_device", "light_device", "outlet_device",
     "sensor_controller", "light_controller", "get_outlet", "grouped_in",
     "condition_set", "action_set", "wifihistory_set"}

  /** The attribute names a `PhilipsHueBridge` record answers to. */
  const BridgeAttributes: set<string> := BridgeColumns + BridgeMethods + DeviceAttributes + DeviceRelations

  /** `run_scene` as written, on a record whose attribute names are `attrs`:
      it first reads `self.groups`, then `self.scenes`, and only with both
      in hand chooses a group and a scene. */
  function RunSceneAsWritten(attrs: set<string>, groups: seq<GroupInfo>, scenes: seq<SceneInfo>,
                             groupName: string, sceneName: string): (r: Outcome<Option<(GroupInfo, SceneInfo)>>)
    ensures r.Err? <==> "groups" !in attrs || "scenes" !in attrs
    ensures r.Err? ==> r.error == AttributeError
    ensures r.Ok? ==> r.value == SceneChoice(groups, scenes, groupName, sceneName)
  {
    if "groups" !in attrs then Err(AttributeError)
    else if "scenes" !in attrs then Err(AttributeError)
    else Ok(SceneChoice(groups, scenes, groupName, sceneName))
  }

  lemma NoGroupsMethod()
    ensures "groups" !in BridgeMethods
  {
  }

  lemma NoGroupsInherited()
    ensures "groups" !in DeviceAttributes && "groups" !in DeviceRelations
  {
  }

  /** No attribute of a bridge record is named `groups`. */
  lemma NoGroupsAttribute()
    ensures "groups" !in BridgeAttributes
  {
    NoGroupsMethod();
    NoGroupsInherited();
  }

  /** A bridge record has no attribute `groups`, so every `run_scene` call
      raises AttributeError before any request is sent, whatever the groups
      and scenes on the bridge are. */
  lemma RunSceneRaisesOnBridge(groups: seq<GroupInfo>, scenes: seq<SceneInfo>, groupName: string, sceneName: string)
    ensures RunSceneAsWritten(BridgeAttributes, groups, scenes, groupName, sceneName) == Err(AttributeError)
  {
    NoGroupsAttribute();
  }

  // ---------------------------------------------------------------------------
  // What a loop of `set_light` requests does

  function IndexRefs(ids: seq<int>): (refs: seq<Ref>)
    ensures |refs| == |ids| && forall i | 0 <= i < |ids| :: refs[i] == Index(ids[i])
  {
    seq(|ids|, i requires 0 <= i < |ids| => Index(ids[i]))
  }

  function StateRequests(user: string, ids: seq<int>, data: Fields): (reqs: seq<Request>)
    ensures |reqs| == |ids|
    ensures forall i | 0 <= i < |ids| :: reqs[i] == Request(PUT, StatePath(user, IntToString(ids[i])), Some(JObj(data)))
  {
    seq(|ids|, i requires 0 <= i < |ids| => Request(PUT, StatePath(user, IntToString(ids[i])), Some(JObj(data))))
  }

  lemma IndexRefsSnoc(ids: seq<int>)
    requires ids != []
    ensures IndexRefs(ids) == IndexRefs(ids[..|ids| - 1]) + [Index(ids[|ids| - 1])]
  {
  }

  lemma StateRequestsSnoc(user: string, ids: seq<int>, data: Fields)
    requires ids != []
    ensures var n := |ids| - 1;
      StateRequests(user, ids, data) ==
        StateRequests(user, ids[..n], data) + [Request(PUT, StatePath(user, IntToString(ids[n])), Some(JObj(data)))]
  {
  }

  /** Setting anything but the name on lights given by id sends one request
      to each light's state, in the order given, and collects the bridge's
      answers in that order, as long as the bridge answers each one. */
  lemma {:induction false} SetLightSendsEach(w: Wire, user: string, param: Param, data: Fields, ids: seq<int>,
                                             step: (Wire, Ref) -> (Wire, Outcome<Json>))
    requires IsLightStep(step, user, param, data) && param != Field("name")
    requires |ids| <= |w.replies| && forall i | 0 <= i < |ids| :: w.replies[i].Answer?
    ensures var res := Run(w, IndexRefs(ids), step);
      && res.0 == Wire(w.log + StateRequests(user, ids, data), w.replies[|ids|..])
      && res.1.Ok? && |res.1.value| == |ids|
      && forall i | 0 <= i < |ids| :: res.1.value[i] == w.replies[i].body
  {
    if ids == [] {
      assert IndexRefs(ids) == [];
    } else {
      var n := |ids| - 1;
      SetLightSendsEach(w, user, param, data, ids[..n], step);
      IndexRefsSnoc(ids);
      StateRequestsSnoc(user, ids, data);
      var prev := Run(w, IndexRefs(ids[..n]), step);
      assert prev.0.replies == w.replies[n..];
      StateStep(prev.0, user, param, data, ids[n], step);
      RunSnoc(w, IndexRefs(ids[..n]), Index(ids[n]), step);
      assert w.replies[n..][1..] == w.replies[n + 1..];
    }
  }

  /** One pass of the loop on a light given by id, when the bridge answers. */
  lemma StateStep(w: Wire, user: string, param: Param, data: Fields, n: int, step: (Wire, Ref) -> (Wire, Outcome<Json>))
    requires IsLightStep(step, user, param, data) && param != Field("name")
    requires w.replies != [] && w.replies[0].Answer?
    ensures step(w, Index(n)) ==
      (Wire(w.log + [Request(PUT, StatePath(user, IntToString(n)), Some(JObj(data)))], w.replies[1..]), Ok(w.replies[0].body))
  {
    assert step(w, Index(n)) == LightRequest(user, param, data, w, Index(n));
  }

  /** Renaming several lights in one call sends each rename to that light's
      own address. */
  lemma {:induction false} RenameSendsEach(w: Wire, user: string, data: Fields, lights: seq<Ref>,
                                           step: (Wire, Ref) -> (Wire, Outcome<Json>))
    requires IsLightStep(step, user, Field("name"), data)
    requires |lights| <= |w.replies| && forall i | 0 <= i < |lights| :: w.replies[i].Answer?
    ensures var res := Run(w, lights, step);
      && res.1.Ok?
      && res.0.replies == w.replies[|lights|..]
      && |res.0.log| == |w.log| + |lights|
      && res.0.log[..|w.log|] == w.log
      && forall i | 0 <= i < |lights| :: res.0.log[|w.log| + i] == Request(PUT, NamePath(user, lights[i]), Some(JObj(data)))
  {
    if lights != [] {
      var n := |lights| - 1;
      RenameSendsEach(w, user, data, lights[..n], step);
      var prev := Run(w, lights[..n], step);
      assert step(prev.0, lights[n]) == LightRequest(user, Field("name"), data, prev.0, lights[n]);
      assert lights == lights[..n] + [lights[n]];
      RunSnoc(w, lights[..n], lights[n], step);
      assert w.replies[n..][1..] == w.replies[n + 1..];
    }
  }

  function GroupRequests(user: string, param: Param, ids: seq<int>, data: Fields): (reqs: seq<Request>)
    ensures |reqs| == |ids|
    ensures forall i | 0 <= i < |ids| :: reqs[i] == Request(PUT, GroupPath(user, param, IntToString(ids[i])), Some(JObj(data)))
  {
    seq(|ids|, i requires 0 <= i < |ids| => Request(PUT, GroupPath(user, param, IntToString(ids[i])), Some(JObj(data))))
  }

  lemma GroupRequestsSnoc(user: string, param: Param, ids: seq<int>, data: Fields)
    requires ids != []
    ensures var n := |ids| - 1;
      GroupRequests(user, param, ids, data) ==
        GroupRequests(user, param, ids[..n], data) + [Request(PUT, GroupPath(user, param, IntToString(ids[n])), Some(JObj(data)))]
  {
  }

  /** One pass of the `set_group` loop on a group given by id, when the
      bridge answers. */
  lemma GroupIndexStep(w: Wire, user: string, param: Param, data: Fields, n: int,
                       step: (Wire, Ref) -> (Wire, Result<Json, GroupStop>))
    requires IsGroupStep(step, user, param, data)
    requires w.replies != [] && w.replies[0].Answer?
    ensures step(w, Index(n)) ==
      (Wire(w.log + [Request(PUT, GroupPath(user, param, IntToString(n)), Some(JObj(data)))], w.replies[1..]), Ok(w.replies[0].body))
  {
    assert step(w, Index(n)) == GroupRequest(user, param, data, w, Index(n));
  }

  /** Groups given by id need no lookup: `set_group` sends one request to
      each group, to the group itself for its name or lights and to its
      action otherwise, in the order given, and collects the answers in that
      order, as long as the bridge answers each one. */
  lemma {:induction false} SetGroupSendsEach(w: Wire, user: string, param: Param, data: Fields, ids: seq<int>,
                                             step: (Wire, Ref) -> (Wire, Result<Json, GroupStop>))
    requires IsGroupStep(step, user, param, data)
    requires |ids| <= |w.replies| && forall i | 0 <= i < |ids| :: w.replies[i].Answer?
    ensures var res := Run(w, IndexRefs(ids), step);
      && res.0 == Wire(w.log + GroupRequests(user, param, ids, data), w.replies[|ids|..])
      && res.1.Ok? && |res.1.value| == |ids|
      && forall i | 0 <= i < |ids| :: res.1.value[i] == w.replies[i].body
  {
    if ids == [] {
      assert IndexRefs(ids) == [];
    } else {
      var n := |ids| - 1;
      SetGroupSendsEach(w, user, param, data, ids[..n], step);
      IndexRefsSnoc(ids);
      GroupRequestsSnoc(user, param, ids, data);
      var prev := Run(w, IndexRefs(ids[..n]), step);
      assert prev.0.replies == w.replies[n..];
      GroupIndexStep(prev.0, user, param, data, ids[n], step);
      RunSnoc(w, IndexRefs(ids[..n]), Index(ids[n]), step);
      assert w.replies[n..][1..] == w.replies[n + 1..];
    }
  }

  /** A group name that is not found ends `set_group` with None after the
      lookup, before anything is sent to the group. */
  lemma SetGroupUnknownName(w: Wire, user: string, param: Param, data: Fields, name: string)
    requires Lookup(w, user, Groups, name).1 == Ok(None)
    ensures Run(w, [Name(name)], GroupStep(user, param, data)) == (Lookup(w, user, Groups, name).0, Err(NoSuchGroup))
    ensures GroupOutcome(Run(w, [Name(name)], GroupStep(user, param, data)).1) == Ok(None)
  {
    assert [Name(name)][..0] == [];
  }

  // ---------------------------------------------------------------------------

  class PhilipsHueBridge {
    /** The bridge's own Device row, its owner, and its address. */
    const id: string
    const owner: string
    const ipAddress: string
    var macAddress: Json
    var bridgeUser: string
    var bridgeId: Json
    var swversion: Json
    var log: seq<Request>
    var replies: seq<Reply>

    function Exchange(): Wire
      reads this
    {
      Wire(log, replies)
    }

    /** A bridge record with the column defaults, that has sent nothing yet. */
    constructor (id: string, owner: string, ipAddress: string, replies: seq<Reply>)
      ensures this.id == id && this.owner == owner && this.ipAddress == ipAddress
      ensures macAddress == JNull && bridgeUser == "None" && bridgeId == JStr("None") && swversion == JStr("None")
      ensures log == [] && this.replies == replies
    {
      this.id := id;
      this.owner := owner;
      this.ipAddress := ipAddress;
      macAddress := JNull;
      bridgeUser := "None";
      bridgeId := JStr("None");
      swversion := JStr("None");
      log := [];
      this.replies := replies;
    }

    /** `request`: send one request and decode the reply. */
    method Send(req: Request) returns (r: Outcome<Json>)
      modifies this`log, this`replies
      ensures (Exchange(), r) == Call(old(Exchange()), req)
    {
      r := Received(replies);
      log := log + [req];
      replies := Rest(replies);
    }

    /** `register`: create the bridge record, post the registration request,
        scan its answer, and on success read the bridge's configuration. */
    static method Register(id: string, owner: string, ipAddress: string, replies: seq<Reply>)
      returns (bridge: PhilipsHueBridge, outcome: Registration)
      ensures fresh(bridge) && bridge.id == id && bridge.owner == owner && bridge.ipAddress == ipAddress
      ensures var scan := RegistrationScan(Received(replies));
        && (scan.halt.Some? ==>
              && bridge.log == [RegisterRequest]
              && bridge.bridgeUser == (if scan.user.JStr? then scan.user.s else "None")
              && outcome == (if scan.halt.value.Refused? then RegistrationError(scan.halt.value.code)
                             else Raised(scan.halt.value.failure)))
        && (scan.halt.None? && !scan.user.JStr? ==> bridge.log == [RegisterRequest] && outcome == Raised(TypeError))
        && (scan.halt.None? && scan.user.JStr? ==>
              && bridge.bridgeUser == scan.user.s
              && bridge.log == [RegisterRequest, ConfigRequest(scan.user.s)]
              && (outcome == Registered <==> ConfigOf(Received(Rest(replies))).Ok?)
              && (outcome == Registered ==>
                    (bridge.swversion, bridge.bridgeId, bridge.macAddress) == ConfigOf(Received(Rest(replies))).value))
      ensures outcome.RegistrationError? ==> outcome.code == 101 || outcome.code == 7
    {
      bridge := new PhilipsHueBridge(id, owner, ipAddress, replies);
      var response := bridge.Send(RegisterRequest);
      if response.Err? {
        return bridge, Raised(response.error);
      }
      var iterated := Iterate(response.value);
      if iterated.Err? {
        return bridge, Raised(iterated.error);
      }
      var scan := ScanAnswerLines(iterated.value);
      if scan.halt.Some? {
        if scan.user.JStr? {
          bridge.bridgeUser := scan.user.s;
        }
        if scan.halt.value.Refused? {
          return bridge, RegistrationError(scan.halt.value.code);
        }
        return bridge, Raised(scan.halt.value.failure);
      }
      var user := scan.user;
      if !user.JStr? {
        return bridge, Raised(TypeError);
      }
      bridge.bridgeUser := user.s;
      var config := bridge.UpdateConfig();
      outcome := if config.Ok? then Registered else Raised(config.error);
    }

    /** `update_config`: read the configuration and store its `swversion`,
        `bridgeid` and `mac`, in that order, until one is missing. */
    method UpdateConfig() returns (r: Outcome<()>)
      modifies this`log, this`replies, this`swversion, this`bridgeId, this`macAddress
      ensures log == old(log) + [ConfigRequest(bridgeUser)] && replies == Rest(old(replies))
      ensures r.Ok? <==> ConfigOf(Received(old(replies))).Ok?
      ensures r.Err? ==> r.error == ConfigOf(Received(old(replies))).error
      ensures var reply := Received(old(replies));
        var sw := if reply.Ok? then Member(reply.value, "swversion") else Err(reply.error);
        var bid := if sw.Ok? then Member(reply.value, "bridgeid") else Err(sw.error);
        var config := ConfigOf(reply);
        && swversion == (if sw.Ok? then sw.value else old(swversion))
        && bridgeId == (if bid.Ok? then bid.value else old(bridgeId))
        && macAddress == (if config.Ok? then config.value.2 else old(macAddress))
    {
      var response := Send(ConfigRequest(bridgeUser));
      if response.Err? {
        return Err(response.error);
      }
      var sw := Member(response.value, "swversion");
      if sw.Err? {
        return Err(sw.error);
      }
      swversion := sw.value;
      var bid := Member(response.value, "bridgeid");
      if bid.Err? {
        return Err(bid.error);
      }
      bridgeId := bid.value;
      var mac := Member(response.value, "mac");
      if mac.Err? {
        return Err(mac.error);
      }
      macAddress := mac.value;
      return Ok(());
    }

    /** `get_light_id_by_name`, `get_sensor_id_by_name`, `get_group_id_by_name`:
        fetch the whole inventory and return the id of the first entry with
        the name (None standing for False). */
    method IdByName(inventory: Inventory, name: string) returns (r: Outcome<Option<string>>)
      modifies this`log, this`replies
      ensures (Exchange(), r) == Lookup(old(Exchange()), bridgeUser, inventory, name)
    {
      ghost var found := Lookup(Exchange(), bridgeUser, inventory, name);
      var reply := Send(Request(GET, ApiPath(bridgeUser, InventoryTail(inventory)), None));
      assert Exchange() == found.0 && found.1 == LookupIn(reply, name);
      if reply.Err? {
        return Err(reply.error);
      }
      var entries := Collection(reply.value);
      if entries.Err? {
        return Err(entries.error);
      }
      r := SearchNamed(entries.value, name);
    }

    /** `get_light`: the whole inventory without an id; otherwise the light's
        state, or one field of it. A name is looked up first. */
    method GetLight(light: Option<Ref>, parameter: Option<string>) returns (r: Outcome<Json>)
      modifies this`log, this`replies
      ensures light.None? ==> (Exchange(), r) == Call(old(Exchange()), Request(GET, ApiPath(bridgeUser, "/lights/"), None))
      ensures light.Some? && light.value.Index? ==>
                var call := Call(old(Exchange()), LightGet(bridgeUser, IntToString(light.value.n)));
                Exchange() == call.0 && r == QueryReply(call.1, parameter)
      ensures light.Some? && light.value.Name? ==>
                var found := Lookup(old(Exchange()), bridgeUser, Lights, light.value.s);
                && (found.1.Err? ==> Exchange() == found.0 && r == Err(found.1.error))
                && (found.1.Ok? ==>
                      var call := Call(found.0, LightGet(bridgeUser, IdText(found.1.value)));
                      Exchange() == call.0 && r == QueryReply(call.1, parameter))
    {
      var id: string;
      match light {
        case None =>
          r := Send(Request(GET, ApiPath(bridgeUser, "/lights/"), None));
          return;
        case Some(Index(n)) =>
          id := IntToString(n);
        case Some(Name(s)) =>
          var found := IdByName(Lights, s);
          if found.Err? {
            return Err(found.error);
          }
          id := IdText(found.value);
      }
      var state := Send(LightGet(bridgeUser, id));
      r := QueryReply(state, parameter);
    }

    /** `set_light`: one request per light, in the order given, with the
        payload `LightData` builds; the replies are collected in order and
        the first exception ends the loop. */
    method SetLight(target: Target, param: Param, value: Json, transitiontime: Option<int>) returns (r: Outcome<seq<Json>>)
      modifies this`log, this`replies
      ensures (Exchange(), r) ==
              Run(old(Exchange()), Refs(target), LightStep(bridgeUser, param, LightData(param, value, transitiontime)))
    {
      var data := LightData(param, value, transitiontime);
      LightStepIs(bridgeUser, param, data);
      r := SendToLights(param, data, Refs(target), LightStep(bridgeUser, param, data));
    }

    /** The loop of `set_light`: one pass per light, in order, collecting the
        replies until one raises. */
    method SendToLights(param: Param, data: Fields, lights: seq<Ref>, ghost step: (Wire, Ref) -> (Wire, Outcome<Json>))
      returns (r: Outcome<seq<Json>>)
      requires IsLightStep(step, bridgeUser, param, data)
      modifies this`log, this`replies
      ensures (Exchange(), r) == Run(old(Exchange()), lights, step)
    {
      ghost var w0 := Exchange();
      var results := [];
      var i := 0;
      while i < |lights|
        invariant 0 <= i <= |lights|
        invariant Run(w0, lights[..i], step) == (Exchange(), Ok(results))
      {
        var light := lights[i];
        var reply := SendToLight(param, data, light, step);
        RunAdvance(w0, lights, i, step, results);
        if reply.Err? {
          return Err(reply.error);
        }
        results := results + [reply.value];
        i := i + 1;
      }
      assert lights[..i] == lights;
      r := Ok(results);
    }

    /** One pass of the `set_light` loop. */
    method SendToLight(param: Param, data: Fields, light: Ref, ghost step: (Wire, Ref) -> (Wire, Outcome<Json>))
      returns (reply: Outcome<Json>)
      requires IsLightStep(step, bridgeUser, param, data)
      modifies this`log, this`replies
      ensures (Exchange(), reply) == LightRequest(bridgeUser, param, data, old(Exchange()), light)
      ensures (Exchange(), reply) == step(old(Exchange()), light)
    {
      if param == Field("name") {
        reply := Send(Request(PUT, NamePath(bridgeUser, light), Some(JObj(data))));
        return;
      }
      var id: string;
      match light {
        case Index(n) =>
          id := IntToString(n);
        case Name(s) =>
          var found := IdByName(Lights, s);
          if found.Err? {
            return Err(found.error);
          }
          id := IdText(found.value);
      }
      reply := Send(Request(PUT, StatePath(bridgeUser, id), Some(JObj(data))));
    }

    /** One pass of the `set_group` loop. */
    method SendToGroup(param: Param, data: Fields, group: Ref, ghost step: (Wire, Ref) -> (Wire, Result<Json, GroupStop>))
      returns (reply: Result<Json, GroupStop>)
      requires IsGroupStep(step, bridgeUser, param, data)
      modifies this`log, this`replies
      ensures (Exchange(), reply) == GroupRequest(bridgeUser, param, data, old(Exchange()), group)
      ensures (Exchange(), reply) == step(old(Exchange()), group)
    {
      var found: Outcome<Option<string>>;
      match group {
        case Index(n) =>
          found := Ok(Some(IntToString(n)));
        case Name(s) =>
          found := IdByName(Groups, s);
      }
      if found.Err? {
        return Err(Raise(found.error));
      }
      if found.value.None? {
        return Err(NoSuchGroup);
      }
      var sent := Send(Request(PUT, GroupPath(bridgeUser, param, found.value.value), Some(JObj(data))));
      reply := if sent.Err? then Err(Raise(sent.error)) else Ok(sent.value);
    }

    /** `set_group`: the payload is built first (its exception ends the call
        before any request); then one request per group, a name being looked
        up first and an unknown name ending the call with None. */
    method SetGroup(target: Target, param: Param, value: Json, transitiontime: Option<int>)
      returns (r: Outcome<Option<seq<Json>>>)
      modifies this`log, this`replies
      ensures var data := GroupData(param, value, transitiontime);
        && (data.Err? ==> r == Err(data.error) && Exchange() == old(Exchange()))
        && (data.Ok? ==>
              var res := Run(old(Exchange()), Refs(target), GroupStep(bridgeUser, param, data.value));
              Exchange() == res.0 && r == GroupOutcome(res.1))
    {
      var built := GroupData(param, value, transitiontime);
      if built.Err? {
        return Err(built.error);
      }
      GroupStepIs(bridgeUser, param, built.value);
      var sent := SendToGroups(param, built.value, Refs(target), GroupStep(bridgeUser, param, built.value));
      r := GroupOutcome(sent);
    }

    /** The loop of `set_group`: one pass per group, in order, until one stops it. */
    method SendToGroups(param: Param, data: Fields, groups: seq<Ref>, ghost step: (Wire, Ref) -> (Wire, Result<Json, GroupStop>))
      returns (r: Result<seq<Json>, GroupStop>)
      requires IsGroupStep(step, bridgeUser, param, data)
      modifies this`log, this`replies
      ensures (Exchange(), r) == Run(old(Exchange()), groups, step)
    {
      ghost var w0 := Exchange();
      var results := [];
      var i := 0;
      while i < |groups|
        invariant 0 <= i <= |groups|
        invariant Run(w0, groups[..i], step) == (Exchange(), Ok(results))
      {
        var group := groups[i];
        var reply := SendToGroup(param, data, group, step);
        RunAdvance(w0, groups, i, step, results);
        if reply.Err? {
          return Err(reply.error);
        }
        results := results + [reply.value];
        i := i + 1;
      }
      assert groups[..i] == groups;
      r := Ok(results);
    }

    /** `create_sensor`: post the new sensor and read the first line of the answer. */
    method CreateSensor(name: Json, modelid: Json, softwareVersion: Json, sensorType: Json, uniqueid: Json,
                        manufacturername: Json, state: Json, config: Json, recycle: Json)
      returns (r: Outcome<Creation>)
      modifies this`log, this`replies
      ensures log == old(log) + [Request(POST, ApiPath(bridgeUser, "/sensors/"), Some(JObj(
                NewSensorData(name, modelid, softwareVersion, sensorType, uniqueid, manufacturername, state, config, recycle))))]
      ensures replies == Rest(old(replies))
      ensures var reply := Received(old(replies));
        r == if reply.Err? then Err(reply.error) else CreationOf(reply.value)
    {
      var data := NewSensorData(name, modelid, softwareVersion, sensorType, uniqueid, manufacturername, state, config, recycle);
      var reply := Send(Request(POST, ApiPath(bridgeUser, "/sensors/"), Some(JObj(data))));
      if reply.Err? {
        return Err(reply.error);
      }
      r := CreationOf(reply.value);
    }

    /** `set_sensor_content`: only the `state` and `config` structures can be
        set (anything else returns False without a request); the body is the
        data without its `lastupdated` entry. */
    method SetSensorContent(sensor: Ref, param: Param, value: Json, structure: string) returns (r: Outcome<Json>)
      modifies this`log, this`replies
      ensures structure != "state" && structure != "config" ==> r == Ok(JBool(false)) && Exchange() == old(Exchange())
      ensures structure == "state" || structure == "config" ==>
                (Exchange(), r) == Call(old(Exchange()), Request(PUT, ApiPath(bridgeUser, "/sensors/" + RefText(sensor) + "/" + structure),
                                                                 Some(JObj(SensorContent(param, value)))))
    {
      if structure != "state" && structure != "config" {
        return Ok(JBool(false));
      }
      var data := SensorContent(param, value);
      r := Send(Request(PUT, ApiPath(bridgeUser, "/sensors/" + RefText(sensor) + "/" + structure), Some(JObj(data))));
    }

    /** `activate_scene` */
    method ActivateScene(groupId: string, sceneId: string) returns (r: Outcome<Json>)
      modifies this`log, this`replies
      ensures (Exchange(), r) == Call(old(Exchange()), ActivateRequest(bridgeUser, groupId, sceneId))
    {
      r := Send(ActivateRequest(bridgeUser, groupId, sceneId));
    }

    /** `run_scene`, given the bridge's groups and scenes: activate the scene
        `SceneChoice` picks and return True, or send nothing and return None
        (false here). The activation's answer is not looked at; its exception
        is passed on. */
    method RunScene(groups: seq<GroupInfo>, scenes: seq<SceneInfo>, groupName: string, sceneName: string)
      returns (r: Outcome<bool>)
      modifies this`log, this`replies
      ensures var choice := SceneChoice(groups, scenes, groupName, sceneName);
        && (choice.None? ==> r == Ok(false) && Exchange() == old(Exchange()))
        && (choice.Some? ==>
              var call := Call(old(Exchange()), ActivateRequest(bridgeUser, choice.value.0.groupId, choice.value.1.sceneId));
              Exchange() == call.0 && r == (if call.1.Err? then Err(call.1.error) else Ok(true)))
    {
      var named := GroupsNamed(groups, groupName);
      var candidates := ScenesNamed(scenes, sceneName);
      ghost var choice := SceneChoice(groups, scenes, groupName, sceneName);
      if |named| != 1 {
        return Ok(false);
      }
      var group := named[0];
      if |candidates| == 0 {
        return Ok(false);
      }
      var chosen: SceneInfo;
      if |candidates| == 1 {
        chosen := candidates[0];
      } else {
        var groupLights := SortTexts(group.lights);
        var i := 0;
        while i < |candidates|
          invariant 0 <= i <= |candidates|
          invariant FirstWithLights(candidates[i..], groupLights) == FirstWithLights(candidates, groupLights)
        {
          assert candidates[i..][1..] == candidates[i + 1..];
          if candidates[i].lights == groupLights {
            break;
          }
          i := i + 1;
        }
        if i == |candidates| {
          assert choice.None?;
          return Ok(false);
        }
        chosen := candidates[i];
      }
      assert choice == Some((group, chosen));
      var reply := ActivateScene(group.groupId, chosen.sceneId);
      r := if reply.Err? then Err(reply.error) else Ok(true);
    }
  }
}
