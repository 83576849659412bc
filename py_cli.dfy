/**
 * The Python remote-control client (start_stop.py). Unlike the Go client it sends a timestamp
 * and a SHA-256 hash of a canonical string with every start and stop, optionally an idTag and a
 * transaction id, and an API key header; a stop answered 404 is followed by a release whose body
 * holds only the cpid and the connector id.
 *
 * SHA-256 is the parameter `sha256`, the clock is the timestamp text `ts` passed to each
 * operation, and the HTTP library is the transport: a function from a request to its outcome.
 * A payload is a dict with its insertion order, the order json.dumps writes its keys in.
 */
module PyCli {
  import opened Wrappers
  import Decimal
  import Text

  const ApiBase := "http://host.docker.internal:8080"
  const ApiKey := "changeme-123"
  const DefaultIdTag := "DEMO_IDTAG"
  const Absent := "-"
  const StatusNotFound := 404

  const StartUrl := ApiBase + "/api/v1/start"
  const StopUrl := ApiBase + "/api/v1/stop"
  const ReleaseUrl := ApiBase + "/api/v1/release"

  /** The headers _do_json puts on every request. */
  const Headers: seq<(string, string)> :=
    [("Content-Type", "application/json"), ("X-API-Key", ApiKey), ("Connection", "close")]

  // ---------------------------------------------------------------------------------------
  // compute_hash
  // ---------------------------------------------------------------------------------------

  /** The string compute_hash feeds to SHA-256: `cpid|connector|idTag|tx|ts|-|-`. */
  function Canonical(cpid: string, connectorId: int, idTag: string, tx: string, ts: string): string {
    Text.Join([cpid, Decimal.IntToString(connectorId), idTag, tx, ts, Absent, Absent], '|')
  }

  predicate NoBar(s: string) {
    '|' !in s
  }

  lemma IntTextHasNoBar(n: int)
    ensures NoBar(Decimal.IntToString(n))
  {
    var d := Decimal.IntToString(n);
    if n < 0 {
      assert forall i :: 1 <= i < |d| ==> d[i] == d[1..][i - 1];
    }
  }

  /**
   * The canonical string has exactly seven '|'-separated fields, in the order cpid, connector,
   * idTag, tx, ts and two "-" placeholders, as long as the text fields hold no '|'.
   */
  lemma CanonicalFields(cpid: string, connectorId: int, idTag: string, tx: string, ts: string)
    requires NoBar(cpid) && NoBar(idTag) && NoBar(tx) && NoBar(ts)
    ensures Text.Split(Canonical(cpid, connectorId, idTag, tx, ts), '|') ==
      [cpid, Decimal.IntToString(connectorId), idTag, tx, ts, "-", "-"]
  {
    IntTextHasNoBar(connectorId);
    Text.SplitJoin([cpid, Decimal.IntToString(connectorId), idTag, tx, ts, Absent, Absent], '|');
  }

  /** Equal canonical strings come from equal fields (for fields without '|'). */
  lemma CanonicalInjective(cpid: string, n: int, idTag: string, tx: string, ts: string,
                           cpid': string, n': int, idTag': string, tx': string, ts': string)
    requires NoBar(cpid) && NoBar(idTag) && NoBar(tx) && NoBar(ts)
    requires NoBar(cpid') && NoBar(idTag') && NoBar(tx') && NoBar(ts')
    requires Canonical(cpid, n, idTag, tx, ts) == Canonical(cpid', n', idTag', tx', ts')
    ensures cpid == cpid' && n == n' && idTag == idTag' && tx == tx' && ts == ts'
  {
    CanonicalFields(cpid, n, idTag, tx, ts);
    CanonicalFields(cpid', n', idTag', tx', ts');
    Decimal.IntToStringInjective(n, n');
  }

  // ---------------------------------------------------------------------------------------
  // Payloads
  // ---------------------------------------------------------------------------------------

  datatype Json = JStr(str: string) | JInt(num: int)

  /** The payload keys; Name gives the text json.dumps writes for each. */
  datatype Key = Cpid | ConnectorId | IdTag | Timestamp | Hash | TransactionId

  function Name(k: Key): string {
    match k
    case Cpid => "cpid"
    case ConnectorId => "connectorId"
    case IdTag => "idTag"
    case Timestamp => "timestamp"
    case Hash => "hash"
    case TransactionId => "transactionId"
  }

  /**
   * A dict as json.dumps sees it: its keys in insertion order and the value stored under each.
   * A well-formed dict lists each stored key exactly once.
   */
  datatype Payload = Payload(keys: seq<Key>, values: map<Key, Json>)

  ghost predicate WellFormed(d: Payload) {
    && (forall i, j :: 0 <= i < j < |d.keys| ==> d.keys[i] != d.keys[j])
    && (forall k :: k in d.values <==> k in d.keys)
  }

  /** The value stored under `k`. */
  function Lookup(d: Payload, k: Key): (r: Option<Json>)
    ensures r.Some? <==> k in d.values
  {
    if k in d.values then Some(d.values[k]) else None
  }

  /**
   * `d[k] = v`: the value is stored (replacing any earlier one) and a new key goes to the end
   * of the order; an existing key keeps its place.
   */
  function Put(d: Payload, k: Key, v: Json): (r: Payload)
    ensures Lookup(r, k) == Some(v)
    ensures forall k' :: k' != k ==> Lookup(r, k') == Lookup(d, k')
    ensures WellFormed(d) ==> WellFormed(r)
    ensures k in d.values ==> r.keys == d.keys
    ensures k !in d.values ==> r.keys == d.keys + [k]
  {
    Payload(if k in d.values then d.keys else d.keys + [k], d.values[k := v])
  }

  /** The tx field of the canonical string: the id's decimal text, or "-" when absent. */
  function TxField(txId: Option<int>): string {
    match txId
    case Some(t) => Decimal.IntToString(t)
    case None => Absent
  }

  /**
   * start_charge's payload: cpid, connectorId, idTag, timestamp and hash, then transactionId
   * only when a transaction id is given. The hash covers the same timestamp that is sent.
   */
  function StartPayload(sha256: string -> string, cpid: string, connectorId: int, idTag: string,
                        txId: Option<int>, ts: string): (payload: Payload)
    ensures payload.keys ==
      [Cpid, ConnectorId, IdTag, Timestamp, Hash] + (if txId.Some? then [TransactionId] else [])
    ensures Lookup(payload, Cpid) == Some(JStr(cpid))
    ensures Lookup(payload, ConnectorId) == Some(JInt(connectorId))
    ensures Lookup(payload, IdTag) == Some(JStr(idTag))
    ensures Lookup(payload, Timestamp) == Some(JStr(ts))
    ensures Lookup(payload, Hash) == Some(JStr(sha256(Canonical(cpid, connectorId, idTag, TxField(txId), ts))))
    ensures Lookup(payload, TransactionId) == if txId.Some? then Some(JInt(txId.value)) else None
  {
    var txStr := if txId.Some? then Decimal.IntToString(txId.value) else Absent;
    var payload := Payload(
      [Cpid, ConnectorId, IdTag, Timestamp, Hash],
      map[Cpid := JStr(cpid), ConnectorId := JInt(connectorId), IdTag := JStr(idTag), Timestamp := JStr(ts),
          Hash := JStr(sha256(Canonical(cpid, connectorId, idTag, txStr, ts)))]);
    if txId.Some? then Put(payload, TransactionId, JInt(txId.value)) else payload
  }

  /**
   * stop_charge's payload: cpid, connectorId, timestamp and hash, then idTag only when given,
   * then transactionId only when given; the hash uses "-" for each absent field.
   */
  function StopPayload(sha256: string -> string, cpid: string, connectorId: int, idTag: Option<string>,
                       txId: Option<int>, ts: string): (payload: Payload)
    ensures payload.keys ==
      [Cpid, ConnectorId, Timestamp, Hash]
        + (if idTag.Some? then [IdTag] else [])
        + (if txId.Some? then [TransactionId] else [])
    ensures Lookup(payload, Cpid) == Some(JStr(cpid))
    ensures Lookup(payload, ConnectorId) == Some(JInt(connectorId))
    ensures Lookup(payload, Timestamp) == Some(JStr(ts))
    ensures Lookup(payload, Hash) ==
      Some(JStr(sha256(Canonical(cpid, connectorId, idTag.GetOr(Absent), TxField(txId), ts))))
    ensures Lookup(payload, IdTag) == if idTag.Some? then Some(JStr(idTag.value)) else None
    ensures Lookup(payload, TransactionId) == if txId.Some? then Some(JInt(txId.value)) else None
  {
    var idVal := if idTag.Some? then idTag.value else Absent;
    var txStr := if txId.Some? then Decimal.IntToString(txId.value) else Absent;
    var base := Payload(
      [Cpid, ConnectorId, Timestamp, Hash],
      map[Cpid := JStr(cpid), ConnectorId := JInt(connectorId), Timestamp := JStr(ts),
          Hash := JStr(sha256(Canonical(cpid, connectorId, idVal, txStr, ts)))]);
    var withTag := if idTag.Some? then Put(base, IdTag, JStr(idTag.value)) else base;
    if txId.Some? then Put(withTag, TransactionId, JInt(txId.value)) else withTag
  }

  /** The release payload holds only cpid and connectorId. */
  function ReleasePayload(cpid: string, connectorId: int): (p: Payload)
    ensures p.keys == [Cpid, ConnectorId] && WellFormed(p)
    ensures Lookup(p, Cpid) == Some(JStr(cpid)) && Lookup(p, ConnectorId) == Some(JInt(connectorId))
  {
    Payload([Cpid, ConnectorId], map[Cpid := JStr(cpid), ConnectorId := JInt(connectorId)])
  }

  // ---------------------------------------------------------------------------------------
  // parse_args
  // ---------------------------------------------------------------------------------------

  datatype Cmd =
    | StartCmd(cpid: string, connectorId: int, idTag: string, txId: Option<int>)
    | StopCmd(cpid: string, connectorId: int, stopTag: Option<string>, txId: Option<int>)

  datatype ArgError =
    | MissingCommand
    | InvalidChoice(cmd: string)
    | MissingArguments
    | InvalidInt(arg: string)
    | Unrecognized(extra: seq<string>)

  /** int() on the argument text, for ASCII input. */
  function PyInt(s: string): Option<int> {
    Decimal.ParseDecimal(s)
  }

  predicate IsSubcommand(argv: seq<string>) {
    |argv| >= 1 && (argv[0] == "start" || argv[0] == "stop")
  }

  /**
   * parse_args on sys.argv[1:]: a subcommand, then cpid, connectorId, an optional idTag and an
   * optional transactionId, matched in order. Start's idTag defaults to DEMO_IDTAG, stop's to
   * nothing.
   */
  function ParseArgs(argv: seq<string>): (r: Result<Cmd, ArgError>)
    ensures r.Ok? ==> 3 <= |argv| <= 5 && r.value.cpid == argv[1] && PyInt(argv[2]) == Some(r.value.connectorId)
    ensures r.Ok? ==> (r.value.StartCmd? <==> argv[0] == "start")
    ensures r.Ok? && r.value.StartCmd? ==> r.value.idTag == if |argv| >= 4 then argv[3] else DefaultIdTag
    ensures r.Ok? && r.value.StopCmd? ==> r.value.stopTag == if |argv| >= 4 then Some(argv[3]) else None
    ensures r.Ok? ==> (r.value.txId.Some? <==> |argv| == 5) && (|argv| == 5 ==> PyInt(argv[4]) == r.value.txId)
    ensures r.Ok? <==>
      && 3 <= |argv| <= 5 && (argv[0] == "start" || argv[0] == "stop")
      && PyInt(argv[2]).Some? && (|argv| == 5 ==> PyInt(argv[4]).Some?)
    ensures |argv| == 0 ==> r == Err(MissingCommand)
    ensures |argv| >= 1 && argv[0] != "start" && argv[0] != "stop" ==> r == Err(InvalidChoice(argv[0]))
    ensures IsSubcommand(argv) && |argv| < 3 ==> r == Err(MissingArguments)
    ensures IsSubcommand(argv) && |argv| >= 3 && PyInt(argv[2]).None? ==> r == Err(InvalidInt(argv[2]))
    ensures IsSubcommand(argv) && |argv| >= 5 && PyInt(argv[2]).Some? && PyInt(argv[4]).None? ==>
      r == Err(InvalidInt(argv[4]))
    ensures IsSubcommand(argv) && |argv| > 5 && PyInt(argv[2]).Some? && PyInt(argv[4]).Some? ==>
      r == Err(Unrecognized(argv[5..]))
  {
    if |argv| == 0 then Err(MissingCommand)
    else if argv[0] != "start" && argv[0] != "stop" then Err(InvalidChoice(argv[0]))
    else
      var rest := argv[1..];
      if |rest| < 2 then Err(MissingArguments)
      else match PyInt(rest[1])
        case None => Err(InvalidInt(rest[1]))
        case Some(n) =>
          var tag := if |rest| >= 3 then Some(rest[2]) else None;
          var txArg := if |rest| >= 4 then PyInt(rest[3]) else None;
          if |rest| >= 4 && txArg.None? then Err(InvalidInt(rest[3]))
          else if |rest| > 4 then Err(Unrecognized(rest[4..]))
          else if argv[0] == "start" then Ok(StartCmd(rest[0], n, tag.GetOr(DefaultIdTag), txArg))
          else Ok(StopCmd(rest[0], n, tag, txArg))
  }

  lemma ParseArgsExamples()
    ensures ParseArgs(["start", "CP1", "2"]) == Ok(StartCmd("CP1", 2, DefaultIdTag, None))
    ensures ParseArgs(["stop", "CP1", "2"]) == Ok(StopCmd("CP1", 2, None, None))
    ensures ParseArgs(["stop", "CP1", "x"]) == Err(InvalidInt("x"))
  {
    assert Decimal.DigitsValue("2") == 2;
    assert !Decimal.IsDigit('x');
  }

  // ---------------------------------------------------------------------------------------
  // The HTTP calls
  // ---------------------------------------------------------------------------------------

  datatype Request = Request(verb: string, url: string, headers: seq<(string, string)>, payload: Payload)

  /** What requests.request yields: an exception, or a response. */
  datatype Outcome = Raised(err: string) | Response(status: int, reason: string, text: string)

  datatype Printed = StatusLine(verb: string, url: string, status: int, reason: string) | Text(text: string)

  /** What _do_json prints for one outcome: nothing when the request raised. */
  function Echo(r: Request, o: Outcome): seq<Printed> {
    match o
    case Response(status, reason, text) => [StatusLine(r.verb, r.url, status, reason), Text(text)]
    case Raised(_) => []
  }

  function EchoAll(rs: seq<Request>, transport: Request -> Outcome): seq<Printed> {
    if rs == [] then [] else Echo(rs[0], transport(rs[0])) + EchoAll(rs[1..], transport)
  }

  lemma EchoAllOfOne(a: Request, transport: Request -> Outcome)
    ensures EchoAll([a], transport) == Echo(a, transport(a))
  {
    assert [a][1..] == [];
  }

  lemma EchoAllOfTwo(a: Request, b: Request, transport: Request -> Outcome)
    ensures EchoAll([a, b], transport) == Echo(a, transport(a)) + Echo(b, transport(b))
  {
    assert [a, b][1..] == [b];
    EchoAllOfOne(b, transport);
  }

  predicate IsNotFound(o: Outcome) {
    o.Response? && o.status == StatusNotFound
  }

  function StartRequest(sha256: string -> string, cpid: string, connectorId: int, idTag: string,
                        txId: Option<int>, ts: string): Request {
    Request("POST", StartUrl, Headers, StartPayload(sha256, cpid, connectorId, idTag, txId, ts))
  }

  function StopRequest(sha256: string -> string, cpid: string, connectorId: int, idTag: Option<string>,
                       txId: Option<int>, ts: string): Request {
    Request("POST", StopUrl, Headers, StopPayload(sha256, cpid, connectorId, idTag, txId, ts))
  }

  function ReleaseRequest(cpid: string, connectorId: int): Request {
    Request("POST", ReleaseUrl, Headers, ReleasePayload(cpid, connectorId))
  }

  /** The requests stop_charge hands to _do_json, in order: the release follows only a 404. */
  function StopRequests(transport: Request -> Outcome, sha256: string -> string, cpid: string, connectorId: int,
                        idTag: Option<string>, txId: Option<int>, ts: string): seq<Request> {
    var stop := StopRequest(sha256, cpid, connectorId, idTag, txId, ts);
    if IsNotFound(transport(stop)) then [stop, ReleaseRequest(cpid, connectorId)] else [stop]
  }

  /** StopRequests and what _do_json prints for them, by the stop's answer. */
  lemma StopRequestsByAnswer(transport: Request -> Outcome, sha256: string -> string, cpid: string,
                             connectorId: int, idTag: Option<string>, txId: Option<int>, ts: string)
    ensures var stop := StopRequest(sha256, cpid, connectorId, idTag, txId, ts);
      var rel := ReleaseRequest(cpid, connectorId);
      var rs := StopRequests(transport, sha256, cpid, connectorId, idTag, txId, ts);
      if IsNotFound(transport(stop)) then
        rs == [stop, rel] && EchoAll(rs, transport) == Echo(stop, transport(stop)) + Echo(rel, transport(rel))
      else
        rs == [stop] && EchoAll(rs, transport) == Echo(stop, transport(stop))
  {
    var stop := StopRequest(sha256, cpid, connectorId, idTag, txId, ts);
    EchoAllOfOne(stop, transport);
    EchoAllOfTwo(stop, ReleaseRequest(cpid, connectorId), transport);
  }

  /** The requests one run of main hands to _do_json, in order; a parse error sends none. */
  function RunRequests(transport: Request -> Outcome, sha256: string -> string, argv: seq<string>, ts: string)
    : seq<Request>
  {
    match ParseArgs(argv)
    case Err(_) => []
    case Ok(StartCmd(cpid, n, idTag, txId)) => [StartRequest(sha256, cpid, n, idTag, txId, ts)]
    case Ok(StopCmd(cpid, n, idTag, txId)) => StopRequests(transport, sha256, cpid, n, idTag, txId, ts)
  }

  /**
   * A stop is one request, or two when (and only when) it is answered 404; the second goes to
   * the release endpoint with only cpid and connectorId. A stop that raised is not followed.
   */
  lemma StopReleaseOnlyOnNotFound(transport: Request -> Outcome, sha256: string -> string, cpid: string,
                                  connectorId: int, idTag: Option<string>, txId: Option<int>, ts: string)
    ensures var rs := StopRequests(transport, sha256, cpid, connectorId, idTag, txId, ts);
      && rs[0].url == StopUrl
      && (|rs| == 2 <==> IsNotFound(transport(rs[0])))
      && (|rs| == 1 <==> !IsNotFound(transport(rs[0])))
      && (transport(rs[0]).Raised? ==> |rs| == 1)
      && (|rs| == 2 ==> rs[1].url == ReleaseUrl && rs[1].payload.keys == [Cpid, ConnectorId]
                        && Lookup(rs[1].payload, Cpid) == Lookup(rs[0].payload, Cpid)
                        && Lookup(rs[1].payload, ConnectorId) == Lookup(rs[0].payload, ConnectorId))
  {
  }

  /**
   * `start`: exactly one POST, to the start endpoint, whose payload carries the command line's
   * cpid and connector id, its idTag or DEMO_IDTAG, and a transactionId exactly when one is given.
   */
  lemma RunStart(transport: Request -> Outcome, sha256: string -> string, argv: seq<string>, ts: string)
    requires ParseArgs(argv).Ok? && argv[0] == "start"
    ensures var rs := RunRequests(transport, sha256, argv, ts);
      && |rs| == 1 && rs[0].verb == "POST" && rs[0].url == StartUrl && rs[0].headers == Headers
      && Lookup(rs[0].payload, Cpid) == Some(JStr(argv[1]))
      && Lookup(rs[0].payload, ConnectorId) == Some(JInt(PyInt(argv[2]).value))
      && Lookup(rs[0].payload, IdTag) == Some(JStr(if |argv| >= 4 then argv[3] else DefaultIdTag))
      && Lookup(rs[0].payload, TransactionId) == (if |argv| == 5 then Some(JInt(PyInt(argv[4]).value)) else None)
  {
    var c := ParseArgs(argv).value;
    var p := StartPayload(sha256, c.cpid, c.connectorId, c.idTag, c.txId, ts);
    assert RunRequests(transport, sha256, argv, ts) == [Request("POST", StartUrl, Headers, p)];
  }

  /**
   * `stop`: the first POST goes to the stop endpoint with the command line's cpid and connector
   * id, an idTag exactly when one is given, and a transactionId exactly when one is given; a
   * second POST, the release, follows exactly when the stop is answered 404.
   */
  lemma RunStop(transport: Request -> Outcome, sha256: string -> string, argv: seq<string>, ts: string)
    requires ParseArgs(argv).Ok? && argv[0] == "stop"
    ensures var rs := RunRequests(transport, sha256, argv, ts);
      && 1 <= |rs| <= 2 && rs[0].verb == "POST" && rs[0].url == StopUrl
      && Lookup(rs[0].payload, Cpid) == Some(JStr(argv[1]))
      && Lookup(rs[0].payload, ConnectorId) == Some(JInt(PyInt(argv[2]).value))
      && Lookup(rs[0].payload, IdTag) == (if |argv| >= 4 then Some(JStr(argv[3])) else None)
      && Lookup(rs[0].payload, TransactionId) == (if |argv| == 5 then Some(JInt(PyInt(argv[4]).value)) else None)
      && (|rs| == 2 <==> IsNotFound(transport(rs[0])))
  {
    var c := ParseArgs(argv).value;
    var p := StopPayload(sha256, c.cpid, c.connectorId, c.stopTag, c.txId, ts);
    assert RunRequests(transport, sha256, argv, ts)[0] == Request("POST", StopUrl, Headers, p);
  }

  /**
   * The process: requests handed to the HTTP library so far and the lines printed; `sha256`
   * stands for hashlib's SHA-256 hex digest.
   */
  class Client {
    const transport: Request -> Outcome
    const sha256: string -> string
    var calls: seq<Request>
    var out: seq<Printed>

    /** Every request carries the JSON content type, the API key and Connection: close. */
    ghost predicate Valid()
      reads this
    {
      forall i :: 0 <= i < |calls| ==> calls[i].headers == Headers
    }

    constructor (transport: Request -> Outcome, sha256: string -> string)
      ensures Valid() && calls == [] && out == []
      ensures this.transport == transport && this.sha256 == sha256
    {
      this.transport := transport;
      this.sha256 := sha256;
      calls := [];
      out := [];
    }

    /** _do_json: one request with the fixed headers; an exception propagates unprinted. */
    method DoJson(verb: string, url: string, payload: Payload) returns (o: Outcome)
      requires Valid()
      modifies this
      ensures Valid()
      ensures calls == old(calls) + [Request(verb, url, Headers, payload)]
      ensures o == transport(Request(verb, url, Headers, payload))
      ensures out == old(out) + Echo(Request(verb, url, Headers, payload), o)
    {
      var req := Request(verb, url, Headers, payload);
      calls := calls + [req];
      o := transport(req);
      if o.Response? {
        out := out + [StatusLine(verb, url, o.status, o.reason), Text(o.text)];
      }
    }

    /** start_charge: one POST of the start payload to the start endpoint. */
    method StartCharge(cpid: string, connectorId: int, idTag: string, txId: Option<int>, ts: string)
      returns (o: Outcome)
      requires Valid()
      modifies this
      ensures Valid()
      ensures var req := StartRequest(sha256, cpid, connectorId, idTag, txId, ts);
        && calls == old(calls) + [req]
        && o == transport(req)
        && out == old(out) + EchoAll([req], transport)
    {
      ghost var req := StartRequest(sha256, cpid, connectorId, idTag, txId, ts);
      var payload := StartPayload(sha256, cpid, connectorId, idTag, txId, ts);
      o := DoJson("POST", StartUrl, payload);
      EchoAllOfOne(req, transport);
    }

    /**
     * stop_charge: one stop request; when it is answered 404, exactly one release request whose
     * payload holds only cpid and connectorId. An exception from the stop call ends the run.
     */
    method StopCharge(cpid: string, connectorId: int, idTag: Option<string>, txId: Option<int>, ts: string)
      returns (o: Outcome)
      requires Valid()
      modifies this
      ensures Valid()
      ensures var rs := StopRequests(transport, sha256, cpid, connectorId, idTag, txId, ts);
        && calls == old(calls) + rs
        && o == transport(rs[|rs| - 1])
        && out == old(out) + EchoAll(rs, transport)
    {
      ghost var stop := StopRequest(sha256, cpid, connectorId, idTag, txId, ts);
      ghost var rel := ReleaseRequest(cpid, connectorId);
      StopRequestsByAnswer(transport, sha256, cpid, connectorId, idTag, txId, ts);
      var payload := StopPayload(sha256, cpid, connectorId, idTag, txId, ts);
      o := DoJson("POST", StopUrl, payload);
      if o.Response? && o.status == StatusNotFound {
        var relBody := ReleasePayload(cpid, connectorId);
        o := DoJson("POST", ReleaseUrl, relBody);
        assert out == old(out) + Echo(stop, transport(stop)) + Echo(rel, transport(rel));
      }
    }

    /** main: parse the arguments, then run the chosen command; a parse error sends nothing. */
    method Run(argv: seq<string>, ts: string)
      requires Valid()
      modifies this
      ensures Valid()
      ensures calls == old(calls) + RunRequests(transport, sha256, argv, ts)
      ensures out == old(out) + EchoAll(RunRequests(transport, sha256, argv, ts), transport)
    {
      match ParseArgs(argv)
      case Err(_) =>
      case Ok(StartCmd(cpid, n, idTag, txId)) =>
        var _ := StartCharge(cpid, n, idTag, txId, ts);
      case Ok(StopCmd(cpid, n, idTag, txId)) =>
        var _ := StopCharge(cpid, n, idTag, txId, ts);
    }
  }
}
