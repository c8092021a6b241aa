/** The bridge client's searches: finding a light, sensor or group id by its
    name (`get_light_id_by_name`, `get_sensor_id_by_name`,
    `get_group_id_by_name`), and choosing the scene `run_scene` activates. */
module HueLookup {
  import opened Wrappers
  import opened Strings
  import opened Json
  import opened HueWire

  // ---------------------------------------------------------------------------
  // Ids by name

  /** `name == entry['name']` once `entry['name']` has not raised: a str
      equals only the same str, compared exactly (case-sensitive). */
  predicate NameIs(entry: Json, name: string)
  {
    Member(entry, "name") == Ok(JStr(name))
  }

  /** The first `i` entries all have a name, and none has the name sought. */
  predicate NoneNamedBefore(entries: Fields, name: string, i: int)
    requires i <= |entries|
  {
    forall j | 0 <= j < i :: Member(entries[j].1, "name").Ok? && !NameIs(entries[j].1, name)
  }

  /** The loop `for id in entries: if name == entries[id]['name']: return id`
      from position `i` on; `None` stands for the `return False` after it. */
  function FirstNamedFrom(entries: Fields, name: string, i: nat): Outcome<Option<string>>
    requires i <= |entries|
    decreases |entries| - i
  {
    if i == |entries| then Ok(None)
    else
      match Member(entries[i].1, "name")
      case Err(e) => Err(e)
      case Ok(v) => if v == JStr(name) then Ok(Some(entries[i].0)) else FirstNamedFrom(entries, name, i + 1)
  }

  /** What the search finds: nothing exactly when every entry has a name and
      none is the one sought; an id only of an entry carrying the name with
      none before it; an error only from an entry without a name, again with
      none before it carrying the name. */
  lemma {:induction false} FirstNamedFromSpec(entries: Fields, name: string, i: nat)
    requires i <= |entries| && NoneNamedBefore(entries, name, i)
    decreases |entries| - i
    ensures var r := FirstNamedFrom(entries, name, i);
      && (r == Ok(None) <==> NoneNamedBefore(entries, name, |entries|))
      && (r.Ok? && r.value.Some? ==>
            exists k | i <= k < |entries| ::
              entries[k].0 == r.value.value && NameIs(entries[k].1, name) && NoneNamedBefore(entries, name, k))
      && (r.Err? ==>
            exists k | i <= k < |entries| ::
              Member(entries[k].1, "name") == Err(r.error) && NoneNamedBefore(entries, name, k))
  {
    if i < |entries| {
      var m := Member(entries[i].1, "name");
      if m.Ok? && m.value != JStr(name) {
        FirstNamedFromSpec(entries, name, i + 1);
      }
    }
  }

  /** The id of the first entry named `name`, `None` when there is none. */
  function FirstNamed(entries: Fields, name: string): Outcome<Option<string>>
  {
    FirstNamedFrom(entries, name, 0)
  }

  /** The search loop of the lookups: the entries in order, stopping at the
      first that has no name or has the name sought. */
  method SearchNamed(entries: Fields, name: string) returns (r: Outcome<Option<string>>)
    ensures r == FirstNamed(entries, name)
  {
    var i := 0;
    while i < |entries|
      invariant 0 <= i <= |entries| && NoneNamedBefore(entries, name, i)
      invariant FirstNamedFrom(entries, name, i) == FirstNamed(entries, name)
    {
      var entryName := Member(entries[i].1, "name");
      if entryName.Err? {
        return Err(entryName.error);
      }
      if entryName.value == JStr(name) {
        return Ok(Some(entries[i].0));
      }
      i := i + 1;
    }
    return Ok(None);
  }

  /** The three inventories a name can be looked up in. */
  datatype Inventory = Lights | Sensors | Groups

  function InventoryTail(inventory: Inventory): string
  {
    match inventory
    case Lights => "/lights/"
    case Sensors => "/sensors/"
    case Groups => "/groups/"
  }

  /** What a lookup makes of the reply to `GET /api/<user>/<inventory>/`. */
  function LookupIn(reply: Outcome<Json>, name: string): Outcome<Option<string>>
  {
    match reply
    case Err(e) => Err(e)
    case Ok(body) =>
      match Collection(body)
      case Err(e) => Err(e)
      case Ok(entries) => FirstNamed(entries, name)
  }

  /** A lookup on the wire: one GET of the whole inventory, then the search. */
  function Lookup(w: Wire, user: string, inventory: Inventory, name: string): (res: (Wire, Outcome<Option<string>>))
    ensures res.0.log == w.log + [Request(GET, ApiPath(user, InventoryTail(inventory)), None)]
    ensures res.0.replies == Rest(w.replies)
  {
    var (w1, reply) := Call(w, Request(GET, ApiPath(user, InventoryTail(inventory)), None));
    (w1, LookupIn(reply, name))
  }

  /** The lookup finds the first entry of a dict inventory carrying the name. */
  lemma LookupFindsFirst(body: Fields, name: string, k: nat)
    requires k < |body| && NameIs(body[k].1, name) && NoneNamedBefore(body, name, k)
    ensures LookupIn(Ok(JObj(body)), name) == Ok(Some(body[k].0))
  {
    FirstNamedUpTo(body, name, 0, k);
  }

  lemma {:induction false} FirstNamedUpTo(entries: Fields, name: string, i: nat, k: nat)
    requires i <= k < |entries| && NameIs(entries[k].1, name) && NoneNamedBefore(entries, name, k)
    ensures FirstNamedFrom(entries, name, i) == Ok(Some(entries[k].0))
    decreases k - i
  {
    if i < k {
      var m := Member(entries[i].1, "name");
      assert m.Ok? && m.value != JStr(name);
      assert FirstNamedFrom(entries, name, i) == FirstNamedFrom(entries, name, i + 1);
      FirstNamedUpTo(entries, name, i + 1, k);
    }
  }

  // ---------------------------------------------------------------------------
  // Choosing a scene

  /** A group of `self.groups` and a scene of `self.scenes`, as `run_scene`
      reads them: a name, an id, and the ids of the lights. */
  datatype GroupInfo = GroupInfo(name: string, groupId: string, lights: seq<string>)
  datatype SceneInfo = SceneInfo(name: string, sceneId: string, lights: seq<string>)

  /** `[x for x in groups if x.name == name]` */
  function GroupsNamed(groups: seq<GroupInfo>, name: string): (r: seq<GroupInfo>)
    ensures forall g | g in r :: g in groups && g.name == name
    ensures forall g | g in groups && g.name == name :: g in r
  {
    if groups == [] then []
    else (if groups[0].name == name then [groups[0]] else []) + GroupsNamed(groups[1..], name)
  }

  /** `[x for x in scenes if x.name == name]`, in their order. */
  function ScenesNamed(scenes: seq<SceneInfo>, name: string): (r: seq<SceneInfo>)
    ensures forall s | s in r :: s in scenes && s.name == name
    ensures forall s | s in scenes && s.name == name :: s in r
  {
    if scenes == [] then []
    else (if scenes[0].name == name then [scenes[0]] else []) + ScenesNamed(scenes[1..], name)
  }

  /** Python's `<=` on str: code point by code point, a prefix first. */
  predicate TextLe(a: string, b: string)
  {
    a == [] || (b != [] && (a[0] < b[0] || (a[0] == b[0] && TextLe(a[1..], b[1..]))))
  }

  lemma {:induction false} TextLeTotal(a: string, b: string)
    ensures TextLe(a, b) || TextLe(b, a)
  {
    if a != [] && b != [] && a[0] == b[0] {
      TextLeTotal(a[1..], b[1..]);
    }
  }

  predicate SortedTexts(s: seq<string>)
  {
    forall i | 0 < i < |s| :: TextLe(s[i - 1], s[i])
  }

  /** Inserting `x` into a sorted list keeps it sorted. */
  function InsertText(x: string, s: seq<string>): (r: seq<string>)
    requires SortedTexts(s)
    ensures SortedTexts(r) && multiset(r) == multiset(s) + multiset{x}
    ensures r != [] && (r[0] == x || (s != [] && r[0] == s[0]))
  {
    if s == [] then [x]
    else if TextLe(x, s[0]) then [x] + s
    else
      TextLeTotal(x, s[0]);
      var rest := InsertText(x, s[1..]);
      assert s == [s[0]] + s[1..];
      [s[0]] + rest
  }

  /** `sorted(lights)` */
  function SortTexts(s: seq<string>): (r: seq<string>)
    ensures SortedTexts(r) && multiset(r) == multiset(s)
  {
    if s == [] then []
    else
      assert s == [s[0]] + s[1..];
      InsertText(s[0], SortTexts(s[1..]))
  }

  /** The first scene whose light list equals `lights`. */
  function FirstWithLights(scenes: seq<SceneInfo>, lights: seq<string>): (r: Option<SceneInfo>)
    ensures r.Some? ==> r.value in scenes && r.value.lights == lights
    ensures r.Some? ==> exists i | 0 <= i < |scenes| :: scenes[i] == r.value && forall j | 0 <= j < i :: scenes[j].lights != lights
    ensures r.None? <==> forall s | s in scenes :: s.lights != lights
  {
    if scenes == [] then None
    else if scenes[0].lights == lights then Some(scenes[0])
    else FirstWithLights(scenes[1..], lights)
  }

  /** `scenes[i]` is the first scene that carries `name` and uses `lights`. */
  predicate FirstNamedAt(scenes: seq<SceneInfo>, name: string, lights: seq<string>, i: int)
  {
    && 0 <= i < |scenes| && scenes[i].name == name && scenes[i].lights == lights
    && forall j | 0 <= j < i :: !(scenes[j].name == name && scenes[j].lights == lights)
  }

  lemma FirstWithLightsCons(x: SceneInfo, rest: seq<SceneInfo>, lights: seq<string>)
    ensures FirstWithLights([x] + rest, lights) == if x.lights == lights then Some(x) else FirstWithLights(rest, lights)
  {
    assert ([x] + rest)[1..] == rest;
  }

  /** The scene found among those carrying the name is the first of all
      scenes that carries the name and has the lights. */
  lemma {:induction false} FirstNamedFound(scenes: seq<SceneInfo>, name: string, lights: seq<string>)
    requires FirstWithLights(ScenesNamed(scenes, name), lights).Some?
    ensures exists i :: FirstNamedAt(scenes, name, lights, i) && scenes[i] == FirstWithLights(ScenesNamed(scenes, name), lights).value
  {
    assert scenes != [];
    var found := FirstWithLights(ScenesNamed(scenes, name), lights).value;
    var tail := scenes[1..];
    var rest := ScenesNamed(tail, name);
    var first := scenes[0];
    if first.name == name {
      assert ScenesNamed(scenes, name) == [first] + rest;
      FirstWithLightsCons(first, rest, lights);
    } else {
      assert ScenesNamed(scenes, name) == rest;
    }
    if first.name == name && first.lights == lights {
      assert found == first;
      assert FirstNamedAt(scenes, name, lights, 0);
    } else {
      assert FirstWithLights(rest, lights) == Some(found);
      FirstNamedFound(tail, name, lights);
      var i :| FirstNamedAt(tail, name, lights, i) && tail[i] == found;
      FirstNamedAtShift(scenes, name, lights, i);
    }
  }

  lemma FirstNamedAtShift(scenes: seq<SceneInfo>, name: string, lights: seq<string>, i: int)
    requires scenes != [] && !(scenes[0].name == name && scenes[0].lights == lights)
    requires FirstNamedAt(scenes[1..], name, lights, i)
    ensures FirstNamedAt(scenes, name, lights, i + 1) && scenes[i + 1] == scenes[1..][i]
  {
  }

  /** `for scene in scenes` over the scenes carrying the name keeps their
      order: the scene found is the first of all scenes that carries the name
      and has the lights, and none is found exactly when no scene has both. */
  lemma FirstNamedWithLights(scenes: seq<SceneInfo>, name: string, lights: seq<string>)
    ensures var r := FirstWithLights(ScenesNamed(scenes, name), lights);
      && (r.Some? ==> exists i :: FirstNamedAt(scenes, name, lights, i) && scenes[i] == r.value)
      && (r.None? <==> forall s | s in scenes :: !(s.name == name && s.lights == lights))
  {
    if FirstWithLights(ScenesNamed(scenes, name), lights).Some? {
      FirstNamedFound(scenes, name, lights);
    }
  }



  /** The group and scene `run_scene` activates: exactly one group must carry
      the group name; a single scene carrying the scene name is taken as it
      is, and among several the first whose lights are the group's lights,
      sorted, is taken. */
  function SceneChoice(groups: seq<GroupInfo>, scenes: seq<SceneInfo>, groupName: string, sceneName: string)
    : Option<(GroupInfo, SceneInfo)>
  {
    var named := GroupsNamed(groups, groupName);
    var candidates := ScenesNamed(scenes, sceneName);
    if |named| != 1 || candidates == [] then None
    else if |candidates| == 1 then Some((named[0], candidates[0]))
    else
      match FirstWithLights(candidates, SortTexts(named[0].lights))
      case None => None
      case Some(s) => Some((named[0], s))
  }

  /** What the choice guarantees: the group is the only one with the group
      name, the scene carries the scene name, and when several scenes carry
      it the chosen one is the first that uses exactly the group's lights.
      A choice is made when one group has the name and either one scene has
      its name or some scene with its name uses the group's lights; nothing
      is chosen when the group name is missing or shared, or no scene has
      the name. */
  lemma SceneChoiceSpec(groups: seq<GroupInfo>, scenes: seq<SceneInfo>, groupName: string, sceneName: string)
    ensures var c := SceneChoice(groups, scenes, groupName, sceneName);
      && (c.Some? ==>
            && c.value.0 in groups && c.value.0.name == groupName
            && (forall g | g in groups && g.name == groupName :: g == c.value.0)
            && c.value.1 in scenes && c.value.1.name == sceneName
            && (|ScenesNamed(scenes, sceneName)| > 1 ==>
                  exists i :: FirstNamedAt(scenes, sceneName, SortTexts(c.value.0.lights), i) && scenes[i] == c.value.1))
      && ((forall s | s in scenes :: s.name != sceneName) ==> c.None?)
      && (|GroupsNamed(groups, groupName)| != 1 ==> c.None?)
      && (|GroupsNamed(groups, groupName)| == 1 && |ScenesNamed(scenes, sceneName)| == 1 ==>
            c == Some((GroupsNamed(groups, groupName)[0], ScenesNamed(scenes, sceneName)[0])))
      && (|GroupsNamed(groups, groupName)| == 1 && |ScenesNamed(scenes, sceneName)| > 1 ==>
            (c.Some? <==>
               exists s | s in scenes :: s.name == sceneName && s.lights == SortTexts(GroupsNamed(groups, groupName)[0].lights)))
  {
    var named := GroupsNamed(groups, groupName);
    var candidates := ScenesNamed(scenes, sceneName);
    if candidates != [] {
      assert candidates[0] in candidates;
    }
    if |named| == 1 {
      assert forall g | g in named :: g == named[0];
      FirstNamedWithLights(scenes, sceneName, SortTexts(named[0].lights));
    }
  }
}
