/** The bridge's HTTP exchange as the client sees it. `PhilipsHueBridge.request`
    opens a connection, sends one request and decodes the JSON reply; here the
    bridge is a script of replies consumed one per request, and every request
    sent is appended to a log. */
module HueWire {
  import opened Wrappers
  import opened Strings
  import opened Json

  datatype Verb = GET | PUT | POST | DELETE

  /** One request: its method, its address, and the body `json.dumps` sends
      for PUT and POST. */
  datatype Request = Request(verb: Verb, path: string, body: Option<Json>)

  /** What the bridge does with one request: answer with a decoded JSON
      document, let the socket time out, or answer with a body that is not JSON. */
  datatype Reply = Answer(body: Json) | TimedOut | Garbled

  /** The requests sent so far and the replies still to come. */
  datatype Wire = Wire(log: seq<Request>, replies: seq<Reply>)

  /** `'/api/' + bridge_user + tail` */
  function ApiPath(user: string, tail: string): (p: string)
    ensures |p| == 5 + |user| + |tail|
    ensures p[..5] == "/api/" && p[5..5 + |user|] == user && p[5 + |user|..] == tail
  {
    "/api/" + user + tail
  }

  /** The decoded reply to the next request: a request that times out fails
      with `Timeout`, a body that is not JSON makes `json.loads` raise; with
      no reply left the request times out. `Timeout` stands for what the code
      really raises: a timeout while sending reaches a handler that formats
      `self.ip`, which the bridge record lacks, so AttributeError; a timeout
      while reading the answer is an uncaught `socket.timeout`. */
  function Received(replies: seq<Reply>): (r: Outcome<Json>)
    ensures r.Err? ==> r.error == Timeout || r.error == NotJson
    ensures replies != [] && replies[0].Answer? <==> r.Ok?
  {
    if replies == [] then Err(Timeout)
    else
      match replies[0]
      case Answer(body) => Ok(body)
      case TimedOut => Err(Timeout)
      case Garbled => Err(NotJson)
  }

  function Rest(replies: seq<Reply>): seq<Reply>
  {
    if replies == [] then [] else replies[1..]
  }

  /** One call of `request`: the request is logged whatever happens, and one
      reply of the script is used up. */
  function Call(w: Wire, req: Request): (Wire, Outcome<Json>)
  {
    (Wire(w.log + [req], Rest(w.replies)), Received(w.replies))
  }

  // ---------------------------------------------------------------------------
  // Light, sensor and group identifiers

  /** A light, sensor or group as the caller names it: by its bridge id (an
      int) or by its name (a str). */
  datatype Ref = Index(n: int) | Name(s: string)

  /** `str(ref)` */
  function RefText(r: Ref): string
  {
    match r
    case Index(n) => IntToString(n)
    case Name(s) => s
  }

  /** The `light_id`/`group_id` argument: one id, or a list of them. */
  datatype Target = One(r: Ref) | Many(refs: seq<Ref>)

  /** The list the loop visits: a single int or str is wrapped in a list. */
  function Refs(t: Target): (rs: seq<Ref>)
    ensures t.One? ==> rs == [t.r]
  {
    match t
    case One(r) => [r]
    case Many(refs) => refs
  }

  // ---------------------------------------------------------------------------
  // A loop of requests that stops at the first failure

  /** Visiting `items` in order, each visit performing `step` on the wire and
      appending its value to a result list; the first visit that fails ends
      the loop with that failure. */
  function Run<X, Y, E>(w: Wire, items: seq<X>, step: (Wire, X) -> (Wire, Result<Y, E>)): (res: (Wire, Result<seq<Y>, E>))
    decreases |items|
    ensures res.1.Ok? ==> |res.1.value| == |items|
  {
    if items == [] then (w, Ok([]))
    else
      var n := |items| - 1;
      var (w1, r1) := Run(w, items[..n], step);
      if r1.Err? then (w1, Err(r1.error))
      else
        var (w2, r2) := step(w1, items[n]);
        match r2
        case Err(e) => (w2, Err(e))
        case Ok(y) => (w2, Ok(r1.value + [y]))
  }

  /** One more visit after a prefix that succeeded. */
  lemma RunSnoc<X, Y, E>(w: Wire, items: seq<X>, x: X, step: (Wire, X) -> (Wire, Result<Y, E>))
    requires Run(w, items, step).1.Ok?
    ensures var prev := Run(w, items, step);
      var next := step(prev.0, x);
      Run(w, items + [x], step) ==
        if next.1.Err? then (next.0, Err(next.1.error)) else (next.0, Ok(prev.1.value + [next.1.value]))
  {
    var all := items + [x];
    assert all[..|all| - 1] == items && all[|all| - 1] == x;
    var prev := Run(w, items, step);
    var next := step(prev.0, x);
    assert Run(w, all, step) == match next.1
      case Err(e) => (next.0, Err(e))
      case Ok(y) => (next.0, Ok(prev.1.value + [y]));
  }

  /** Once a visit has failed, the later items are never visited. */
  lemma {:induction false} RunStops<X, Y, E>(w: Wire, items: seq<X>, i: nat, step: (Wire, X) -> (Wire, Result<Y, E>))
    requires i <= |items| && Run(w, items[..i], step).1.Err?
    ensures Run(w, items, step) == Run(w, items[..i], step)
    decreases |items| - i
  {
    if i < |items| {
      var n := |items| - 1;
      assert items[..n][..i] == items[..i];
      RunStops(w, items[..n], i, step);
    } else {
      assert items[..i] == items;
    }
  }

  /** The next visit, seen from a loop that has visited the first `i` items
      without a failure: a failure ends the whole run, a success extends
      the results by one. */
  lemma RunAdvance<X, Y, E>(w: Wire, items: seq<X>, i: nat, step: (Wire, X) -> (Wire, Result<Y, E>), results: seq<Y>)
    requires i < |items| && Run(w, items[..i], step).1 == Ok(results)
    ensures var next := step(Run(w, items[..i], step).0, items[i]);
      && (next.1.Err? ==> Run(w, items, step) == (next.0, Err(next.1.error)))
      && (next.1.Ok? ==> Run(w, items[..i + 1], step) == (next.0, Ok(results + [next.1.value])))
  {
    assert items[..i + 1] == items[..i] + [items[i]];
    RunSnoc(w, items[..i], items[i], step);
    if step(Run(w, items[..i], step).0, items[i]).1.Err? {
      RunStops(w, items, i + 1, step);
    }
  }
}
