/** How `PhilipsHueBridge.register` reads the bridge's answer to the
    registration request: it visits every line of the answer and every key of
    each line; a key containing `success` stores `line['success']['username']`
    as the bridge user, and a key containing `error` whose
    `line['error']['type']` is 101 (link button not pressed) or 7 ends
    registration with that code. Any Python exception on the way ends it too. */
module HueRegistration {
  import opened Wrappers
  import opened Strings
  import opened Json

  /** Why the scan stopped early: a returned error code, or an exception. */
  datatype Halt = Refused(code: int) | Broken(failure: Failure)

  /** The scan so far: the token stored in `bridge_user` and whether the scan
      has stopped. */
  datatype Scan = Scan(user: Json, halt: Option<Halt>)

  /** Before the scan `bridge_user` holds the column default `'None'`. */
  const Unregistered: Scan := Scan(JStr("None"), None)

  /** Only the two codes the bridge client recognises ever end the scan as a refusal. */
  predicate KnownRefusal(s: Scan)
  {
    s.halt.Some? && s.halt.value.Refused? ==> s.halt.value.code == 101 || s.halt.value.code == 7
  }

  /** `line[k1][k2]` */
  function Member2(line: Json, k1: string, k2: string): Outcome<Json>
  {
    var inner :- Member(line, k1);
    Member(inner, k2)
  }

  /** One pass of the inner loop, for the key `key` of the line `line`. */
  function ScanKey(s: Scan, line: Json, key: Json): (r: Scan)
    requires s.halt.None?
    ensures KnownRefusal(r)
    ensures r.halt.None? && !(In("success", key) == Ok(true)) ==> r.user == s.user
  {
    match In("success", key)
    case Err(e) => Scan(s.user, Some(Broken(e)))
    case Ok(hasSuccess) =>
      var stored := if hasSuccess then Member2(line, "success", "username") else Ok(s.user);
      match stored
      case Err(e) => Scan(s.user, Some(Broken(e)))
      case Ok(user) =>
        match In("error", key)
        case Err(e) => Scan(user, Some(Broken(e)))
        case Ok(hasError) =>
          if !hasError then Scan(user, None)
          else
            match Member2(line, "error", "type")
            case Err(e) => Scan(user, Some(Broken(e)))
            case Ok(errorType) =>
              if EqualsInt(errorType, 101) then Scan(user, Some(Refused(101)))
              else if EqualsInt(errorType, 7) then Scan(user, Some(Refused(7)))
              else Scan(user, None)
  }

  /** The inner loop over the keys of one line, stopping once the scan halts. */
  function ScanKeys(s: Scan, line: Json, keys: seq<Json>): (r: Scan)
    decreases |keys|
    ensures KnownRefusal(s) ==> KnownRefusal(r)
    ensures s.halt.Some? ==> r == s
  {
    if keys == [] then s
    else
      var prev := ScanKeys(s, line, keys[..|keys| - 1]);
      if prev.halt.Some? then prev else ScanKey(prev, line, keys[|keys| - 1])
  }

  /** One pass of the outer loop: a line that cannot be iterated raises. */
  function ScanLine(s: Scan, line: Json): (r: Scan)
    ensures KnownRefusal(s) ==> KnownRefusal(r)
    ensures s.halt.Some? ==> r == s
  {
    if s.halt.Some? then s
    else
      match Iterate(line)
      case Err(e) => Scan(s.user, Some(Broken(e)))
      case Ok(keys) => ScanKeys(s, line, keys)
  }

  /** The outer loop over the lines of the answer. */
  function ScanLines(s: Scan, lines: seq<Json>): (r: Scan)
    decreases |lines|
    ensures KnownRefusal(s) ==> KnownRefusal(r)
    ensures s.halt.Some? ==> r == s
  {
    if lines == [] then s else ScanLine(ScanLines(s, lines[..|lines| - 1]), lines[|lines| - 1])
  }

  /** The whole answer: `for line in response` raises for a number, a bool or null. */
  function ScanResponse(response: Json): (r: Scan)
    ensures KnownRefusal(r)
  {
    match Iterate(response)
    case Err(e) => Scan(Unregistered.user, Some(Broken(e)))
    case Ok(lines) => ScanLines(Unregistered, lines)
  }

  /** Once the inner loop has halted, the later keys are never looked at. */
  lemma {:induction false} ScanKeysStops(s: Scan, line: Json, keys: seq<Json>, i: nat)
    requires i <= |keys| && ScanKeys(s, line, keys[..i]).halt.Some?
    ensures ScanKeys(s, line, keys) == ScanKeys(s, line, keys[..i])
    decreases |keys| - i
  {
    if i < |keys| {
      var n := |keys| - 1;
      assert keys[..n][..i] == keys[..i];
      ScanKeysStops(s, line, keys[..n], i);
    } else {
      assert keys[..i] == keys;
    }
  }

  /** Once the outer loop has halted, the later lines are never looked at. */
  lemma {:induction false} ScanLinesStops(s: Scan, lines: seq<Json>, i: nat)
    requires i <= |lines| && ScanLines(s, lines[..i]).halt.Some?
    ensures ScanLines(s, lines) == ScanLines(s, lines[..i])
    decreases |lines| - i
  {
    if i < |lines| {
      var n := |lines| - 1;
      assert lines[..n][..i] == lines[..i];
      ScanLinesStops(s, lines[..n], i);
    } else {
      assert lines[..i] == lines;
    }
  }

  /** The inner loop of `register` over the keys of one line, as it runs:
      it ends at the first key that stops the scan. */
  method ScanLineKeys(s: Scan, line: Json) returns (r: Scan)
    requires s.halt.None?
    ensures r == ScanLine(s, line)
  {
    var iterated := Iterate(line);
    if iterated.Err? {
      return Scan(s.user, Some(Broken(iterated.error)));
    }
    var keys := iterated.value;
    assert ScanLine(s, line) == ScanKeys(s, line, keys);
    r := s;
    var j := 0;
    while j < |keys|
      invariant 0 <= j <= |keys|
      invariant ScanKeys(s, line, keys[..j]) == r && r.halt.None?
    {
      var next := ScanKey(r, line, keys[j]);
      ScanKeysSnoc(s, line, keys, j);
      if next.halt.Some? {
        ScanKeysStops(s, line, keys, j + 1);
        return next;
      }
      r := next;
      j := j + 1;
    }
    assert keys[..j] == keys;
  }

  /** One more pass of the inner loop, while the scan has not stopped. */
  lemma ScanKeysSnoc(s: Scan, line: Json, keys: seq<Json>, j: nat)
    requires j < |keys| && ScanKeys(s, line, keys[..j]).halt.None?
    ensures ScanKeys(s, line, keys[..j + 1]) == ScanKey(ScanKeys(s, line, keys[..j]), line, keys[j])
  {
    assert keys[..j + 1][..j] == keys[..j];
  }

  /** The outer loop of `register` over the lines of the answer, as it runs:
      it ends at the first line that stops the scan. */
  method ScanAnswerLines(lines: seq<Json>) returns (r: Scan)
    ensures r == ScanLines(Unregistered, lines)
    ensures KnownRefusal(r)
  {
    r := Unregistered;
    var i := 0;
    while i < |lines|
      invariant 0 <= i <= |lines|
      invariant ScanLines(Unregistered, lines[..i]) == r && r.halt.None?
    {
      assert lines[..i + 1][..i] == lines[..i];
      var next := ScanLineKeys(r, lines[i]);
      if next.halt.Some? {
        ScanLinesStops(Unregistered, lines, i + 1);
        return next;
      }
      r := next;
      i := i + 1;
    }
    assert lines[..i] == lines;
  }

  // ---------------------------------------------------------------------------
  // What the scan makes of typical answers

  /** A line `{"success": {"username": token}}`. */
  function SuccessLine(token: string): Json
  {
    JObj([("success", JObj([("username", JStr(token))]))])
  }

  /** A line `{"error": {"type": code, ...}}`. */
  function ErrorLine(code: int, rest: Fields): Json
  {
    JObj([("error", JObj([("type", JInt(code))] + rest))])
  }

  lemma SuccessKey()
    ensures In("success", JStr("success")) == Ok(true) && In("error", JStr("success")) == Ok(false)
  {
    assert OccursAt("success", "success", 0);
    forall j | 0 <= j && j + 5 <= 7 ensures !OccursAt("success", "error", j) {
      assert "success"[j] != 'e';
      assert "success"[j..j + 5][0] == "success"[j];
    }
  }

  lemma ErrorKey()
    ensures In("success", JStr("error")) == Ok(false) && In("error", JStr("error")) == Ok(true)
  {
    assert OccursAt("error", "error", 0);
  }

  /** After any lines that did not stop the scan, a success line stores its
      token: the token of the LAST success line is the one kept. */
  lemma SuccessStoresToken(s: Scan, lines: seq<Json>, token: string)
    requires ScanLines(s, lines).halt.None?
    ensures ScanLines(s, lines + [SuccessLine(token)]) == Scan(JStr(token), None)
  {
    var all := lines + [SuccessLine(token)];
    assert all[..|all| - 1] == lines && all[|all| - 1] == SuccessLine(token);
    var prev := ScanLines(s, lines);
    var keys := Iterate(SuccessLine(token)).value;
    assert keys == [JStr("success")];
    SuccessKey();
    assert Member2(SuccessLine(token), "success", "username") == Ok(JStr(token));
    assert keys[..0] == [];
    assert ScanKeys(prev, SuccessLine(token), keys) == ScanKey(prev, SuccessLine(token), JStr("success"));
  }

  /** After any lines that did not stop the scan, a line reporting error 101
      or 7 refuses registration with that code, keeps whatever token an
      earlier success line stored, and leaves the lines after it unread. */
  lemma ErrorLineRefuses(s: Scan, lines: seq<Json>, code: int, rest: Fields, later: seq<Json>)
    requires ScanLines(s, lines).halt.None? && (code == 101 || code == 7)
    ensures ScanLines(s, lines + [ErrorLine(code, rest)] + later) == Scan(ScanLines(s, lines).user, Some(Refused(code)))
  {
    var line := ErrorLine(code, rest);
    var all := lines + [line] + later;
    var prev := ScanLines(s, lines);
    var keys := Iterate(line).value;
    assert keys == [JStr("error")];
    ErrorKey();
    assert Get([("type", JInt(code))] + rest, "type") == Some(JInt(code));
    assert Member2(line, "error", "type") == Ok(JInt(code));
    assert keys[..0] == [];
    assert ScanKey(prev, line, JStr("error")) == Scan(prev.user, Some(Refused(code)));
    assert ScanKeys(prev, line, keys) == ScanKey(prev, line, JStr("error"));
    var upTo := all[..|lines| + 1];
    assert upTo == lines + [line];
    assert upTo[..|upTo| - 1] == lines && upTo[|upTo| - 1] == line;
    assert ScanLines(s, upTo) == ScanLine(prev, line);
    ScanLinesStops(s, all, |lines| + 1);
  }

  /** A success line followed by a refusal: the token is stored before the
      refusal ends the scan. */
  lemma TokenKeptOnRefusal(token: string, code: int, rest: Fields)
    requires code == 101 || code == 7
    ensures ScanLines(Unregistered, [SuccessLine(token), ErrorLine(code, rest)]) == Scan(JStr(token), Some(Refused(code)))
  {
    SuccessStoresToken(Unregistered, [], token);
    assert [] + [SuccessLine(token)] == [SuccessLine(token)];
    ErrorLineRefuses(Unregistered, [SuccessLine(token)], code, rest, []);
    assert [SuccessLine(token)] + [ErrorLine(code, rest)] + [] == [SuccessLine(token), ErrorLine(code, rest)];
  }
}
