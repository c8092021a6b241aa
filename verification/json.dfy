/** Decoded JSON values as the bridge client sees them after `json.loads`, the
    Python exceptions the client's dictionary and conversion code can raise,
    and the handful of Python operations on those values it performs. */
module Json {
  import opened Wrappers
  import opened Strings

  /** An object keeps its pairs in document order, as a Python dict does;
      the keys of a decoded object are distinct. */
  datatype Json =
    | JNull
    | JBool(b: bool)
    | JInt(i: int)
    | JReal(r: real)
    | JStr(s: string)
    | JArr(items: seq<Json>)
    | JObj(fields: seq<(string, Json)>)

  type Fields = seq<(string, Json)>

  /** The exceptions of the modelled code. Timeout and NotJson come from the
      HTTP request itself (a socket timeout, a body `json.loads` rejects). */
  datatype Failure =
    | KeyError(key: string)
    | IndexError
    | TypeError
    | ValueError
    | AttributeError
    | InvalidDecimal
    | Timeout
    | NotJson

  type Outcome<T> = Result<T, Failure>

  /** The keys of a dict, in iteration order. */
  function Keys(fields: Fields): (ks: seq<string>)
    ensures |ks| == |fields|
    ensures forall i | 0 <= i < |fields| :: ks[i] == fields[i].0
  {
    if fields == [] then [] else [fields[0].0] + Keys(fields[1..])
  }

  /** `key in d` */
  predicate HasKey(fields: Fields, key: string)
  {
    key in Keys(fields)
  }

  /** `d.get(key)` */
  function Get(fields: Fields, key: string): (r: Option<Json>)
    ensures r.Some? <==> HasKey(fields, key)
    ensures r.Some? ==> (key, r.value) in fields
  {
    if fields == [] then None
    else if fields[0].0 == key then Some(fields[0].1)
    else
      assert Keys(fields) == [fields[0].0] + Keys(fields[1..]);
      Get(fields[1..], key)
  }

  /** `d[key] = value`: an existing key keeps its place, a new one goes last. */
  function Put(fields: Fields, key: string, value: Json): (r: Fields)
    ensures Get(r, key) == Some(value)
    ensures forall k | k != key :: Get(r, k) == Get(fields, k)
  {
    if fields == [] then [(key, value)]
    else if fields[0].0 == key then [(key, value)] + fields[1..]
    else
      assert Keys(fields) == [fields[0].0] + Keys(fields[1..]);
      [fields[0]] + Put(fields[1..], key, value)
  }

  /** An existing key keeps its place in the iteration order; a new key goes last. */
  lemma {:induction false} PutKeys(fields: Fields, key: string, value: Json)
    ensures HasKey(fields, key) ==> Keys(Put(fields, key, value)) == Keys(fields)
    ensures !HasKey(fields, key) ==> Keys(Put(fields, key, value)) == Keys(fields) + [key]
  {
    if fields != [] && fields[0].0 != key {
      var rest := Put(fields[1..], key, value);
      PutKeys(fields[1..], key, value);
      assert Keys(fields) == [fields[0].0] + Keys(fields[1..]);
      assert ([fields[0]] + rest)[1..] == rest;
    }
  }

  /** A key no pair carries is not found. */
  lemma {:induction false} GetAbsent(fields: Fields, key: string)
    requires forall j | 0 <= j < |fields| :: fields[j].0 != key
    ensures Get(fields, key) == None
  {
    assert !HasKey(fields, key);
  }

  /** `del d[key]` once the key is known to be there; keys of a decoded dict are
      distinct, so every pair with that key goes. */
  function Remove(fields: Fields, key: string): (r: Fields)
    ensures !HasKey(r, key)
    ensures forall k | k != key :: Get(r, k) == Get(fields, k)
    ensures |r| <= |fields|
  {
    if fields == [] then []
    else if fields[0].0 == key then Remove(fields[1..], key)
    else [fields[0]] + Remove(fields[1..], key)
  }

  /** `v[key]` for a string key: only a dict can be indexed by one. */
  function Member(v: Json, key: string): (r: Outcome<Json>)
    ensures r.Ok? <==> v.JObj? && HasKey(v.fields, key)
    ensures r.Err? ==> r.error == (if v.JObj? then KeyError(key) else TypeError)
  {
    match v
    case JObj(fields) =>
      (match Get(fields, key)
       case Some(x) => Ok(x)
       case None => Err(KeyError(key)))
    case _ => Err(TypeError)
  }

  /** `key in v` for a string key: dict keys, list items, or a substring. */
  function In(key: string, v: Json): Outcome<bool>
  {
    match v
    case JObj(fields) => Ok(HasKey(fields, key))
    case JArr(items) => Ok(JStr(key) in items)
    case JStr(s) => Ok(Contains(s, key))
    case _ => Err(TypeError)
  }

  /** What `for x in v` visits: a list's items, a dict's keys, a string's
      characters (each a one-character string); anything else raises. */
  function Iterate(v: Json): (r: Outcome<seq<Json>>)
    ensures r.Ok? <==> v.JArr? || v.JObj? || v.JStr?
    ensures r.Err? ==> r.error == TypeError
    ensures v.JArr? ==> r == Ok(v.items)
    ensures v.JObj? ==> |r.value| == |v.fields| && forall i | 0 <= i < |v.fields| :: r.value[i] == JStr(v.fields[i].0)
    ensures v.JStr? ==> |r.value| == |v.s| && forall i | 0 <= i < |v.s| :: r.value[i] == JStr([v.s[i]])
  {
    match v
    case JArr(items) => Ok(items)
    case JObj(fields) => Ok(seq(|fields|, i requires 0 <= i < |fields| => JStr(fields[i].0)))
    case JStr(s) => Ok(seq(|s|, i requires 0 <= i < |s| => JStr([s[i]])))
    case _ => Err(TypeError)
  }

  /** What `for k in v` visits when every visit then indexes `v` by `k`:
      the pairs of a dict; an empty list or string visits nothing; any other
      value raises (a number or null is not iterable, and indexing a
      non-empty list or string by its own items fails). */
  function Collection(v: Json): (r: Outcome<Fields>)
    ensures v.JObj? ==> r == Ok(v.fields)
  {
    match v
    case JObj(fields) => Ok(fields)
    case JArr(items) => if items == [] then Ok([]) else Err(TypeError)
    case JStr(s) => if s == [] then Ok([]) else Err(TypeError)
    case _ => Err(TypeError)
  }

  /** `v[0].keys()`: the first result line of a bridge reply, which must be a dict. */
  function FirstLine(v: Json): Outcome<Fields>
  {
    match v
    case JArr(items) =>
      if items == [] then Err(IndexError)
      else if items[0].JObj? then Ok(items[0].fields)
      else Err(AttributeError)
    case JObj(_) => Err(KeyError("0"))
    case JStr(s) => if s == [] then Err(IndexError) else Err(AttributeError)
    case _ => Err(TypeError)
  }

  /** `int(x)` truncates a float towards zero. */
  function Truncate(r: real): (n: int)
    ensures r >= 0.0 ==> 0 <= n && (n as real) <= r < (n as real) + 1.0
    ensures r < 0.0 ==> n <= 0 && (n as real) - 1.0 < r <= (n as real)
  {
    if r >= 0.0 then r.Floor else -((-r).Floor)
  }

  /** `int(v)` */
  function PyInt(v: Json): Outcome<int>
  {
    match v
    case JInt(i) => Ok(i)
    case JBool(b) => Ok(if b then 1 else 0)
    case JReal(r) => Ok(Truncate(r))
    case JStr(s) =>
      (match ParseInt(s)
       case Some(n) => Ok(n)
       case None => Err(ValueError))
    case _ => Err(TypeError)
  }

  /** `Decimal(v)` */
  function PyDecimal(v: Json): Outcome<real>
  {
    match v
    case JInt(i) => Ok(i as real)
    case JBool(b) => Ok(if b then 1.0 else 0.0)
    case JReal(r) => Ok(r)
    case JStr(s) =>
      (match ParseDecimal(s)
       case Some(d) => Ok(d)
       case None => Err(InvalidDecimal))
    case _ => Err(TypeError)
  }

  /** `str(v)` for the values the client turns into path and list elements. */
  function PyStr(v: Json): Outcome<string>
  {
    match v
    case JStr(s) => Ok(s)
    case JInt(i) => Ok(IntToString(i))
    case JBool(b) => Ok(if b then "True" else "False")
    case JNull => Ok("None")
    case _ => Err(TypeError)
  }

  /** `v == n` for a Python int `n`. */
  predicate EqualsInt(v: Json, n: int)
  {
    match v
    case JInt(i) => i == n
    case JReal(r) => r == n as real
    case JBool(b) => (if b then 1 else 0) == n
    case _ => false
  }

  /** A value stored into a text column. */
  function Text(v: Json): Outcome<string>
  {
    if v.JStr? then Ok(v.s) else Err(TypeError)
  }

  /** A value stored into a nullable text column. */
  function NullableText(v: Json): Outcome<Option<string>>
  {
    match v
    case JNull => Ok(None)
    case JStr(s) => Ok(Some(s))
    case _ => Err(TypeError)
  }

  /** A value stored into a boolean column. */
  function Flag(v: Json): Outcome<bool>
  {
    if v.JBool? then Ok(v.b) else Err(TypeError)
  }

  /** A dict display `{key: value}`. */
  function Single(key: string, value: Json): (fields: Fields)
    ensures Keys(fields) == [key] && Get(fields, key) == Some(value)
  {
    [(key, value)]
  }
}
