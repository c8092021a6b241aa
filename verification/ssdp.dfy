/** Discovery of a Hue bridge over SSDP: the M-SEARCH request `discover`
    multicasts (section 1.3 of the UPnP Device Architecture 1.1), the
    collection of the answers by their LOCATION header, and
    `parse_ip_address`, which takes the host out of a LOCATION URL. */
module Ssdp {
  import opened Wrappers
  import opened Strings
  import opened Reconcile

  // ---------------------------------------------------------------------------
  // parse_ip_address

  /** What `parse_ip_address` ends with: a host, the -1 it returns when the
      location neither has an early `//` nor starts with a digit, or the
      IndexError `ip_string[0]` raises on an empty location. */
  datatype Parsed = Address(host: string) | NoAddress | EmptyLocation

  /** `p` does not occur in `s` when its first character does not. */
  lemma FindAbsent(s: string, p: string)
    requires p != [] && p[0] !in s
    ensures Find(s, p) == -1
  {
  }

  /** A one-character pattern occurs exactly where that character is. */
  lemma OccursAtChar(s: string, c: char, j: int)
    requires 0 <= j < |s|
    ensures OccursAt(s, [c], j) <==> s[j] == c
  {
    assert |s[j..j + 1]| == 1 && s[j..j + 1][0] == s[j];
  }

  /** The part of `t` before its first `:`, or when there is none before
      its first `/`; the text is kept whole when that index is 0 or there is
      neither. */
  function CutHost(t: string): (r: string)
    ensures Find(t, ":") > 0 ==> r == t[..Find(t, ":")]
    ensures Find(t, ":") < 0 && Find(t, "/") > 0 ==> r == t[..Find(t, "/")]
    ensures Find(t, ":") == 0 || (Find(t, ":") < 0 && Find(t, "/") <= 0) ==> r == t
  {
    var colon := Find(t, ":");
    var end := if colon < 0 then Find(t, "/") else colon;
    if end > 0 then t[..end] else t
  }

  /** A cut at a `:` leaves no `:`; a cut at a `/` leaves neither. */
  lemma CutHostSeparators(t: string)
    ensures Find(t, ":") > 0 ==> ':' !in CutHost(t)
    ensures Find(t, ":") < 0 ==> ':' !in CutHost(t)
    ensures Find(t, ":") < 0 && Find(t, "/") > 0 ==> '/' !in CutHost(t)
  {
    var colon, slash := Find(t, ":"), Find(t, "/");
    forall j | 0 <= j < |t| && (colon < 0 || j < colon) ensures t[j] != ':' {
      OccursAtChar(t, ':', j);
    }
    forall j | 0 <= j < |t| && (slash < 0 || j < slash) ensures t[j] != '/' {
      OccursAtChar(t, '/', j);
    }
  }

  /** `parse_ip_address(ip_string)` as written. A `//` within the first
      eleven characters starts the host after it; otherwise the location
      must start with a digit and is taken whole. Then `lstrip` drops every
      leading character that occurs in the part before the host (a SET of
      characters, not that prefix), and the rest is cut by `CutHost`.
      Python's `isnumeric` is taken to be the ASCII digits. */
  function ParseIpAddress(location: string): (r: Parsed)
    ensures location == [] <==> r == EmptyLocation
    ensures var i := Find(location, "//");
      0 <= i <= 10 ==> r == Address(CutHost(LStrip(location, CharsOf(location[..i + 2]))))
    ensures var i := Find(location, "//");
      (i < 0 || i > 10) && location != [] ==>
        r == if IsDigit(location[0]) then Address(CutHost(location)) else NoAddress
  {
    var i := Find(location, "//");
    if i < 0 || i > 10 then
      if location == [] then EmptyLocation
      else if !IsDigit(location[0]) then NoAddress
      else
        assert CharsOf(location[..0]) == {};
        Address(CutHost(LStrip(location, CharsOf(location[..0]))))
    else Address(CutHost(LStrip(location, CharsOf(location[..i + 2]))))
  }

  /** `lstrip` stops at the first character outside the set. */
  lemma {:induction false} LStripStopsAt(s: string, chars: set<char>, n: nat)
    requires n <= |s| && forall j | 0 <= j < n :: s[j] in chars
    requires n < |s| ==> s[n] !in chars
    ensures LStrip(s, chars) == s[n..]
  {
    if n > 0 {
      LStripStopsAt(s[1..], chars, n - 1);
      assert s[1..][n - 1..] == s[n..];
    }
  }

  /** With an early `//` the host is taken from after it: every character up
      to and including the `//` is stripped. */
  lemma {:induction false} HostAfterSlashes(location: string)
    requires 0 <= Find(location, "//") <= 10
    ensures var i := Find(location, "//");
      ParseIpAddress(location).Address? &&
      exists k | i + 2 <= k <= |location| :: ParseIpAddress(location).host == CutHost(location[k..])
  {
    var i := Find(location, "//");
    var chars := CharsOf(location[..i + 2]);
    var t := LStrip(location, chars);
    var k := |location| - |t|;
    assert t == location[k..];
    assert i + 2 <= k;
    assert ParseIpAddress(location).host == CutHost(location[k..]);
  }

  /** A bare dotted address is returned unchanged. */
  lemma DottedAddressUnchanged(location: string)
    requires location != [] && IsDigit(location[0])
    requires forall j | 0 <= j < |location| :: IsDigit(location[j]) || location[j] == '.'
    ensures ParseIpAddress(location) == Address(location)
  {
    FindAbsent(location, "//");
    FindAbsent(location, ":");
    FindAbsent(location, "/");
  }

  /** A one-character pattern is found at the first place its character is. */
  lemma FindFirstChar(s: string, p: string, j: int)
    requires |p| == 1 && 0 <= j < |s| && s[j] == p[0]
    requires forall k | 0 <= k < j :: s[k] != p[0]
    ensures Find(s, p) == j
  {
    assert p == [p[0]];
    forall k | 0 <= k < j ensures !OccursAt(s, p, k) {
      OccursAtChar(s, p[0], k);
    }
    OccursAtChar(s, p[0], j);
  }

  /** Where `//` is in the example location. */
  lemma ExampleSlashes()
    ensures Find("http://hue/", "//") == 5
  {
    var s := "http://hue/";
    assert s[5..7] == "//";
    forall j | 0 <= j < 5 ensures !OccursAt(s, "//", j) {
      assert s[j] != '/';
      assert s[j..j + 2][0] == s[j];
    }
  }

  /** The example location stripped of the characters of `http://`. */
  lemma ExampleStrip()
    ensures LStrip("http://hue/", CharsOf("http://")) == "ue/"
  {
    var s := "http://hue/";
    var chars := CharsOf("http://");
    assert 'h' in chars && 't' in chars && 'p' in chars && ':' in chars && '/' in chars && 'u' !in chars;
    assert forall j | 0 <= j < 8 :: s[j] in chars;
    LStripStopsAt(s, chars, 8);
    assert s[8..] == "ue/";
  }

  /** The hosts left in the example, by either strip. */
  lemma ExampleHosts()
    ensures CutHost("ue/") == "ue" && CutHost("hue/") == "hue"
  {
    FindAbsent("ue/", ":");
    FindFirstChar("ue/", "/", 2);
    assert "ue/"[..2] == "ue";
    FindAbsent("hue/", ":");
    FindFirstChar("hue/", "/", 3);
    assert "hue/"[..3] == "hue";
  }

  /** The set-of-characters strip eats the start of a host whose letters
      occur in the scheme: `http://hue/` gives `ue`. */
  lemma ParseIpAddressStripsHostLetters()
    ensures ParseIpAddress("http://hue/") == Address("ue")
    ensures ParseIpAddressIntended("http://hue/") == Address("hue")
  {
    var s := "http://hue/";
    ExampleSlashes();
    assert s[..7] == "http://" && s[7..] == "hue/";
    ExampleStrip();
    ExampleHosts();
  }

  /** `parse_ip_address` as its name intends: the literal part up to and
      including an early `//` is removed, not every character occurring in it. */
  function ParseIpAddressIntended(location: string): (r: Parsed)
    ensures location == [] <==> r == EmptyLocation
    ensures var i := Find(location, "//");
      0 <= i <= 10 ==> r == Address(CutHost(location[i + 2..]))
    ensures var i := Find(location, "//");
      (i < 0 || i > 10) && location != [] ==> r == ParseIpAddress(location)
  {
    var i := Find(location, "//");
    if i < 0 || i > 10 then ParseIpAddress(location)
    else Address(CutHost(location[i + 2..]))
  }

  /** The two agree whenever the host does not start with a character of
      the part before it, as with a numeric address after `http://`. */
  lemma IntendedAgrees(location: string)
    requires var i := Find(location, "//");
      0 <= i <= 10 && (i + 2 < |location| ==> location[i + 2] !in location[..i + 2])
    ensures ParseIpAddress(location) == ParseIpAddressIntended(location)
  {
    var i := Find(location, "//");
    var chars := CharsOf(location[..i + 2]);
    forall j | 0 <= j < i + 2 ensures location[j] in chars {
      assert location[j] == location[..i + 2][j];
    }
    LStripStopsAt(location, chars, i + 2);
  }

  // ---------------------------------------------------------------------------
  // The search request

  /** The multicast group the search goes to. */
  const GroupAddress: string := "239.255.255.250"
  const GroupPort: int := 1900

  /** The lines of the M-SEARCH request: the request line, HOST, MAN, ST and
      MX headers, and two empty strings, so that the join ends with an empty line. */
  function SearchLines(service: string, mx: int): (lines: seq<string>)
    ensures |lines| == 7 && lines[5] == "" && lines[6] == ""
  {
    ["M-SEARCH * HTTP/1.1",
     "HOST: " + GroupAddress + ":" + IntToString(GroupPort),
     "MAN: \"ssdp:discover\"",
     "ST: " + service,
     "MX: " + IntToString(mx),
     "", ""]
  }

  /** The text `discover` sends: the lines joined by CRLF. */
  function SearchMessage(service: string, mx: int): string
  {
    Join(SearchLines(service, mx), CRLF)
  }

  lemma IntToStringNoCarriageReturn(n: int)
    ensures NoCarriageReturn(IntToString(n))
  {
    var s := NatToString(if n < 0 then -n else n);
    assert forall j | 0 <= j < |s| :: IsDigit(s[j]);
  }

  /** The port written out. */
  lemma GroupPortText()
    ensures IntToString(GroupPort) == "1900"
  {
    assert NatToString(1) == "1";
    assert NatToString(19) == "19";
    assert NatToString(190) == "190";
  }

  lemma NoCarriageReturnJoined(a: string, b: string)
    requires NoCarriageReturn(a) && NoCarriageReturn(b)
    ensures NoCarriageReturn(a + b)
  {
    forall j | 0 <= j < |a + b| ensures (a + b)[j] != '\r' {
      if j >= |a| {
        assert (a + b)[j] == b[j - |a|];
      }
    }
  }

  /** No line of the request holds a carriage return of its own. */
  lemma SearchLinesUnbroken(service: string, mx: int)
    requires NoCarriageReturn(service)
    ensures var lines := SearchLines(service, mx); forall i | 0 <= i < |lines| :: NoCarriageReturn(lines[i])
  {
    var lines := SearchLines(service, mx);
    IntToStringNoCarriageReturn(mx);
    IntToStringNoCarriageReturn(GroupPort);
    NoCarriageReturnJoined("HOST: " + GroupAddress + ":", IntToString(GroupPort));
    NoCarriageReturnJoined("ST: ", service);
    NoCarriageReturnJoined("MX: ", IntToString(mx));
  }

  /** The request reads back, line by line, as the search headers, the
      service and the wait time it was given, followed by an empty line. */
  lemma SearchMessageLines(service: string, mx: int)
    requires NoCarriageReturn(service)
    ensures SplitLines(SearchMessage(service, mx)) == SearchLines(service, mx)
  {
    var lines := SearchLines(service, mx);
    SearchLinesUnbroken(service, mx);
    SplitJoin(lines);
  }

  /** The HOST header names the SSDP multicast group. */
  lemma SearchHost(service: string, mx: int)
    ensures SearchLines(service, mx)[1] == "HOST: 239.255.255.250:1900"
  {
    GroupPortText();
  }

  // ---------------------------------------------------------------------------
  // Collecting the answers

  /** An answer to the search, by its LOCATION, USN, ST and CACHE-CONTROL
      headers (a missing header reads None). */
  datatype Response = Response(location: Option<string>, usn: Option<string>, st: Option<string>, cache: string)

  /** The assignments `responses[response.location] = response`, one per answer. */
  function Keyed(received: seq<Response>): (rows: seq<Row<Option<string>, Response>>)
    ensures |rows| == |received|
    ensures forall i | 0 <= i < |received| :: rows[i] == Row(received[i].location, received[i])
  {
    seq(|received|, i requires 0 <= i < |received| => Row(received[i].location, received[i]))
  }

  /** `list(responses.values())` once every answer received is in the dict. */
  function Collected(received: seq<Response>): (found: seq<Response>)
    ensures |found| == |UpsertAll([], Keyed(received))|
    ensures forall j | 0 <= j < |found| :: found[j] == UpsertAll([], Keyed(received))[j].values
  {
    var rows := UpsertAll([], Keyed(received));
    seq(|rows|, j requires 0 <= j < |rows| => rows[j].values)
  }

  /** The last answer with a location is a received answer with that
      location, and no later answer has it. */
  lemma {:induction false} LastValuesKeyed(received: seq<Response>, loc: Option<string>)
    ensures var last := LastValues(Keyed(received), loc);
      && (last.Some? ==>
            exists i | 0 <= i < |received| ::
              && received[i] == last.value && last.value.location == loc
              && forall k | i < k < |received| :: received[k].location != loc)
      && (last.None? ==> forall i | 0 <= i < |received| :: received[i].location != loc)
  {
    if received != [] {
      var n := |received| - 1;
      assert Keyed(received)[..n] == Keyed(received[..n]);
      LastValuesKeyed(received[..n], loc);
    }
  }

  /** Every row of the dict was put there by one of the assignments. */
  lemma {:induction false} RowsFromEntries<K, D>(entries: seq<Row<K, D>>)
    ensures forall i | 0 <= i < |UpsertAll([], entries)| :: LastValues(entries, UpsertAll([], entries)[i].key).Some?
  {
    if entries != [] {
      var n := |entries| - 1;
      var pre, e := entries[..n], entries[n];
      assert entries == pre + [e];
      RowsFromEntries(pre);
      var mid := UpsertAll([], pre);
      UpsertSpec(mid, e.key, e.values);
      var out := UpsertAll([], entries);
      forall i | 0 <= i < |out| ensures LastValues(entries, out[i].key).Some? {
        LastValuesSnoc(pre, e, out[i].key);
        if i < |mid| {
          assert out[i].key == mid[i].key;
        } else {
          assert out[i].key == e.key;
        }
      }
    }
  }

  /** The dict never holds more rows than assignments were made. */
  lemma {:induction false} FewerRows<K, D>(entries: seq<Row<K, D>>)
    ensures |UpsertAll([], entries)| <= |entries|
  {
    if entries != [] {
      var n := |entries| - 1;
      FewerRows(entries[..n]);
      UpsertSpec(UpsertAll([], entries[..n]), entries[n].key, entries[n].values);
    }
  }

  /** Each row of the dict holds, under its location, the last answer
      received from that location. */
  lemma KeptRow(received: seq<Response>, j: int)
    requires 0 <= j < |UpsertAll([], Keyed(received))|
    ensures var row := UpsertAll([], Keyed(received))[j];
      && row.values.location == row.key
      && exists i | 0 <= i < |received| ::
           received[i] == row.values && forall k | i < k < |received| :: received[k].location != row.key
  {
    var entries := Keyed(received);
    UpsertAllShape([], entries);
    RowsFromEntries(entries);
    LastValuesKeyed(received, UpsertAll([], entries)[j].key);
  }

  /** No two answers kept share a location. */
  lemma CollectedDistinct(received: seq<Response>)
    ensures var found := Collected(received);
      forall i, j | 0 <= i < j < |found| :: found[i].location != found[j].location
  {
    var rows := UpsertAll([], Keyed(received));
    UpsertAllShape([], Keyed(received));
    forall i, j | 0 <= i < j < |rows| ensures rows[i].values.location != rows[j].values.location {
      KeptRow(received, i);
      KeptRow(received, j);
    }
  }

  /** Every location answered from is kept. */
  lemma CollectedCovers(received: seq<Response>)
    ensures var found := Collected(received);
      forall i | 0 <= i < |received| :: exists j | 0 <= j < |found| :: found[j].location == received[i].location
  {
    var entries := Keyed(received);
    var rows, found := UpsertAll([], entries), Collected(received);
    UpsertAllShape([], entries);
    forall i | 0 <= i < |received|
      ensures exists j | 0 <= j < |found| :: found[j].location == received[i].location
    {
      assert entries[i] in entries;
      var j :| 0 <= j < |rows| && rows[j].key == entries[i].key;
      KeptRow(received, j);
      assert found[j].location == received[i].location;
    }
  }

  /** Every answer kept is the last one received from its location. */
  lemma CollectedLast(received: seq<Response>)
    ensures var found := Collected(received);
      forall j | 0 <= j < |found| ::
        exists i | 0 <= i < |received| ::
          received[i] == found[j] && forall k | i < k < |received| :: received[k].location != found[j].location
  {
    var found := Collected(received);
    forall j | 0 <= j < |found|
      ensures exists i | 0 <= i < |received| ::
                received[i] == found[j] && forall k | i < k < |received| :: received[k].location != found[j].location
    {
      KeptRow(received, j);
    }
  }

  /** What the de-duplication promises of the answers it keeps: no more
      of them than were received, no two from the same location, every
      location answered from among them, and for each location the answer
      received last. */
  predicate OnePerLocation(received: seq<Response>, found: seq<Response>)
  {
    && |found| <= |received|
    && (forall i, j | 0 <= i < j < |found| :: found[i].location != found[j].location)
    && (forall i | 0 <= i < |received| :: exists j | 0 <= j < |found| :: found[j].location == received[i].location)
    && (forall j | 0 <= j < |found| ::
          exists i | 0 <= i < |received| ::
            received[i] == found[j] && forall k | i < k < |received| :: received[k].location != found[j].location)
  }

  /** The dict of answers, once every answer is in, keeps one per location. */
  lemma CollectedOnePerLocation(received: seq<Response>)
    ensures OnePerLocation(received, Collected(received))
  {
    FewerRows(Keyed(received));
    CollectedDistinct(received);
    CollectedCovers(received);
    CollectedLast(received);
  }

  /** One more answer put in the dict. */
  lemma KeyedSnoc(received: seq<Response>, i: nat)
    requires i < |received|
    ensures UpsertAll([], Keyed(received[..i + 1]))
         == Upsert(UpsertAll([], Keyed(received[..i])), received[i].location, received[i])
  {
    assert Keyed(received[..i + 1]) == Keyed(received[..i]) + [Row(received[i].location, received[i])];
    UpsertAllSnoc([], Keyed(received[..i]), Row(received[i].location, received[i]));
  }

  /** The loop of `discover` over the answers received, in the order they
      came in, keeping one answer per location in a dict, and
      `list(responses.values())`. */
  method Collect(received: seq<Response>) returns (found: seq<Response>)
    ensures found == Collected(received)
    ensures OnePerLocation(received, found)
  {
    var responses: seq<Row<Option<string>, Response>> := [];
    for i := 0 to |received|
      invariant responses == UpsertAll([], Keyed(received[..i]))
    {
      KeyedSnoc(received, i);
      responses := Upsert(responses, received[i].location, received[i]);
    }
    assert received[..|received|] == received;
    found := seq(|responses|, j requires 0 <= j < |responses| => responses[j].values);
    CollectedOnePerLocation(received);
  }
}
