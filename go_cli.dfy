/**
 * The Go remote-control client (start_stop.go): it classifies its argument list, builds the
 * JSON body of a start or stop request by string formatting, sends it with one POST, and after
 * a stop that is answered 404 sends one more POST to the release endpoint.
 *
 * The HTTP client is abstracted as a transport: a function from the request to what
 * `http.NewRequest` plus `httpClient.Do` yield for it. What the program does is observed as the
 * sequence of requests it hands to `doJSON` and the sequence of things it prints.
 */
module GoCli {
  import opened Wrappers
  import Decimal
  import Text

  newtype byte = b: int | 0 <= b < 256

  const ApiBase := "http://45.136.236.186:8080"
  const DefaultIdTag := "DEMO_IDTAG"
  const StatusNotFound := 404
  const MinInt64 := -0x8000_0000_0000_0000
  const MaxInt64 := 0x7fff_ffff_ffff_ffff

  const StartUrl := ApiBase + "/api/v1/start"
  const StopUrl := ApiBase + "/api/v1/stop"
  const ReleaseUrl := ApiBase + "/api/v1/release"

  // ---------------------------------------------------------------------------------------
  // Integers: strconv.Atoi on a 64-bit platform
  // ---------------------------------------------------------------------------------------

  /**
   * strconv.Atoi: an optional sign and at least one ASCII digit, whose value fits in a
   * 64-bit int; anything else (empty text, letters, a lone sign, out of range) is an error.
   */
  function Atoi(s: string): (r: Option<int>)
    ensures r.Some? ==> MinInt64 <= r.value <= MaxInt64
    ensures r.Some? ==>
      (|s| >= 1 && Decimal.AllDigits(s)) || (|s| >= 2 && (s[0] == '+' || s[0] == '-') && Decimal.AllDigits(s[1..]))
    ensures r.Some? ==> r == Decimal.ParseDecimal(s)
    ensures Decimal.ParseDecimal(s).Some? && MinInt64 <= Decimal.ParseDecimal(s).value <= MaxInt64 ==> r.Some?
  {
    match Decimal.ParseDecimal(s)
    case Some(n) => if MinInt64 <= n <= MaxInt64 then Some(n) else None
    case None => None
  }

  /** Every 64-bit integer written with `%d` reads back as itself. */
  lemma AtoiOfFormatted(n: int)
    requires MinInt64 <= n <= MaxInt64
    ensures Atoi(Decimal.IntToString(n)) == Some(n)
  {
    Decimal.ParseIntToString(n);
  }

  /** "abc", "" and a lone sign are rejected; "+7" and "007" are accepted as 7; 2^63 is out of range. */
  lemma AtoiExamples()
    ensures Atoi("abc") == None && Atoi("") == None && Atoi("-") == None
    ensures Atoi("+7") == Some(7) && Atoi("007") == Some(7)
    ensures Atoi(Decimal.IntToString(MaxInt64 + 1)) == None
  {
    assert Decimal.DigitsValue("7") == 7;
    assert Decimal.DigitsValue("00") == 0;
    assert "007"[..2] == "00" && "00"[..1] == "0";
    assert Decimal.DigitsValue("007") == 7;
    assert !Decimal.IsDigit('a');
    Decimal.ParseIntToString(MaxInt64 + 1);
  }

  // ---------------------------------------------------------------------------------------
  // Argument classification (main)
  // ---------------------------------------------------------------------------------------

  datatype Command =
    | Usage                                   // fewer than 3 entries
    | StartUsage                              // `start` without a connector id
    | StopUsage                               // `stop` without a connector id
    | UnknownCmd(cmd: string)                 // any other subcommand
    | InvalidConnector(arg: string)           // connector id that Atoi rejects
    | Start(cpid: string, connectorId: int, idTag: string)
    | Stop(cpid: string, connectorId: int)

  /** What `main` decides from os.Args (entry 0 is the program name). */
  function Classify(args: seq<string>): (c: Command)
    ensures |args| < 3 <==> c == Usage
    ensures c.Start? <==> |args| >= 4 && args[1] == "start" && Atoi(args[3]).Some?
    ensures c.Stop? <==> |args| >= 4 && args[1] == "stop" && Atoi(args[3]).Some?
    ensures c.InvalidConnector? <==>
      |args| >= 4 && (args[1] == "start" || args[1] == "stop") && Atoi(args[3]).None?
    ensures c == StartUsage <==> |args| == 3 && args[1] == "start"
    ensures c == StopUsage <==> |args| == 3 && args[1] == "stop"
    ensures c.UnknownCmd? <==> |args| >= 3 && args[1] != "start" && args[1] != "stop"
    ensures c.UnknownCmd? ==> c.cmd == args[1]
    ensures c.InvalidConnector? ==> c.arg == args[3]
    ensures (c.Start? || c.Stop?) ==> c.cpid == args[2] && Atoi(args[3]) == Some(c.connectorId)
    ensures c.Start? ==> c.idTag == if |args| >= 5 then args[4] else DefaultIdTag
  {
    if |args| < 3 then Usage
    else
      var cmd := args[1];
      if cmd == "start" then
        if |args| < 4 then StartUsage
        else match Atoi(args[3])
          case None => InvalidConnector(args[3])
          case Some(n) => Start(args[2], n, if |args| >= 5 then args[4] else DefaultIdTag)
      else if cmd == "stop" then
        if |args| < 4 then StopUsage
        else match Atoi(args[3])
          case None => InvalidConnector(args[3])
          case Some(n) => Stop(args[2], n)
      else UnknownCmd(cmd)
  }

  // ---------------------------------------------------------------------------------------
  // Request bodies (the Sprintf formats of startCharge and stopCharge)
  // ---------------------------------------------------------------------------------------

  const CpidKey := "{\"cpid\":\""
  const ConnectorKey := "\",\"connectorId\":"
  const IdTagKey := ",\"idTag\":\""
  const StartTail := "\"}"
  const StopTail := "}"

  /** `{"cpid":"%s","connectorId":%d,"idTag":"%s"}`: the values are spliced in unescaped. */
  function StartBody(cpid: string, connectorId: int, idTag: string): string {
    CpidKey + cpid + ConnectorKey + Decimal.IntToString(connectorId) + IdTagKey + idTag + StartTail
  }

  /** `{"cpid":"%s","connectorId":%d}`, used for both stop and release. */
  function StopBody(cpid: string, connectorId: int): string {
    CpidKey + cpid + ConnectorKey + Decimal.IntToString(connectorId) + StopTail
  }

  /** After `prefix`, the text up to the first `stop`, and the rest from `stop` on. */
  function ReadUntil(s: string, prefix: string, stop: char): Option<(string, string)> {
    if prefix <= s then
      var rest := s[|prefix|..];
      match Text.IndexOf(rest, stop)
      case None => None
      case Some(i) => Some((rest[..i], rest[i..]))
    else None
  }

  lemma ReadUntilOf(prefix: string, field: string, rest: string, stop: char)
    requires stop !in field && |rest| > 0 && rest[0] == stop
    ensures ReadUntil(prefix + field + rest, prefix, stop) == Some((field, rest))
  {
    var s := prefix + field + rest;
    assert prefix <= s;
    assert s[|prefix|..] == field + rest;
    Text.IndexOfAfter(field, rest, stop);
    assert (field + rest)[..|field|] == field;
    assert (field + rest)[|field|..] == rest;
  }

  /** The fields a JSON reader finds in a start body whose strings contain no quote. */
  function ReadStartBody(body: string): Option<(string, int, string)> {
    match ReadUntil(body, CpidKey, '"')
    case None => None
    case Some((cpid, r1)) =>
      match ReadUntil(r1, ConnectorKey, ',')
      case None => None
      case Some((digits, r2)) =>
        match ReadUntil(r2, IdTagKey, '"')
        case None => None
        case Some((idTag, r3)) =>
          match Decimal.ParseDecimal(digits)
          case None => None
          case Some(n) => if r3 == StartTail then Some((cpid, n, idTag)) else None
  }

  /** The fields found in a stop or release body. */
  function ReadStopBody(body: string): Option<(string, int)> {
    match ReadUntil(body, CpidKey, '"')
    case None => None
    case Some((cpid, r1)) =>
      match ReadUntil(r1, ConnectorKey, '}')
      case None => None
      case Some((digits, r2)) =>
        match Decimal.ParseDecimal(digits)
        case None => None
        case Some(n) => if r2 == StopTail then Some((cpid, n)) else None
  }

  lemma DigitsHaveNoPunctuation(n: int)
    ensures ',' !in Decimal.IntToString(n) && '}' !in Decimal.IntToString(n)
  {
    var s := Decimal.IntToString(n);
    if n < 0 {
      assert forall i :: 1 <= i < |s| ==> s[i] == s[1..][i - 1];
    }
  }

  /**
   * The start body carries the connector id as a number equal to the one given, and the cpid
   * and idTag verbatim, as long as neither contains a double quote.
   */
  lemma StartBodyReadsBack(cpid: string, connectorId: int, idTag: string)
    requires '"' !in cpid && '"' !in idTag
    ensures ReadStartBody(StartBody(cpid, connectorId, idTag)) == Some((cpid, connectorId, idTag))
  {
    var d := Decimal.IntToString(connectorId);
    DigitsHaveNoPunctuation(connectorId);
    Decimal.ParseIntToString(connectorId);
    var r3 := StartTail;
    var r2 := IdTagKey + idTag + r3;
    var r1 := ConnectorKey + d + r2;
    assert StartBody(cpid, connectorId, idTag) == CpidKey + cpid + r1;
    ReadUntilOf(CpidKey, cpid, r1, '"');
    assert ConnectorKey + d + r2 == ConnectorKey + d + (IdTagKey + idTag + r3);
    ReadUntilOf(ConnectorKey, d, r2, ',');
    ReadUntilOf(IdTagKey, idTag, r3, '"');
  }

  /** The same for the stop and release body. */
  lemma StopBodyReadsBack(cpid: string, connectorId: int)
    requires '"' !in cpid
    ensures ReadStopBody(StopBody(cpid, connectorId)) == Some((cpid, connectorId))
  {
    var d := Decimal.IntToString(connectorId);
    DigitsHaveNoPunctuation(connectorId);
    Decimal.ParseIntToString(connectorId);
    var r1 := ConnectorKey + d + StopTail;
    assert StopBody(cpid, connectorId) == CpidKey + cpid + r1;
    ReadUntilOf(CpidKey, cpid, r1, '"');
    ReadUntilOf(ConnectorKey, d, StopTail, '}');
  }

  lemma FormatOne()
    ensures Decimal.IntToString(1) == "1" && Atoi("1") == Some(1)
  {
    assert Decimal.DigitChar(1) == '1';
    assert Decimal.DigitsValue("1") == 1;
  }

  /** `start CP001 1` sends the JSON object with cpid "CP001", connectorId 1 and the default idTag, byte for byte. */
  lemma StartExample()
    ensures Classify(["start_stop", "start", "CP001", "1"]) == Start("CP001", 1, DefaultIdTag)
    ensures StartBody("CP001", 1, DefaultIdTag) == "{\"cpid\":\"CP001\",\"connectorId\":1,\"idTag\":\"DEMO_IDTAG\"}"
  {
    FormatOne();
    var body := StartBody("CP001", 1, DefaultIdTag);
    assert body == CpidKey + "CP001" + ConnectorKey + "1" + IdTagKey + "DEMO_IDTAG" + StartTail;
    assert CpidKey + "CP001" + ConnectorKey + "1" == "{\"cpid\":\"CP001\",\"connectorId\":1";
  }

  // ---------------------------------------------------------------------------------------
  // The HTTP executor (doJSON) and what the program does with it
  // ---------------------------------------------------------------------------------------

  datatype Request = Request(verb: string, url: string, body: string)

  /** What building and sending one request yields. */
  datatype Outcome =
    | NotBuilt(err: string)                   // http.NewRequest failed
    | NotSent(err: string)                    // httpClient.Do failed (DNS, connect, TLS, timeout)
    | Answered(status: int, body: seq<byte>)  // a response, with the whole body read

  datatype Printed =
    | UsageText | StartUsageText | StopUsageText
    | UnknownCmdText(cmd: string)
    | InvalidConnectorText(arg: string)
    | StatusLine(verb: string, url: string, status: int)
    | BodyText(body: seq<byte>)
    | StartErrorText(err: string)
    | StopErrorText(err: string)

  /** What doJSON prints for one outcome: nothing unless a response arrived. */
  function Echo(r: Request, o: Outcome): seq<Printed> {
    match o
    case Answered(status, body) => [StatusLine(r.verb, r.url, status), BodyText(body)]
    case _ => []
  }

  function ErrorOf(o: Outcome): Option<string> {
    match o
    case NotBuilt(e) => Some(e)
    case NotSent(e) => Some(e)
    case Answered(_, _) => None
  }

  function EchoAll(rs: seq<Request>, transport: Request -> Outcome): seq<Printed> {
    if rs == [] then [] else Echo(rs[0], transport(rs[0])) + EchoAll(rs[1..], transport)
  }

  function StopRequest(cpid: string, connectorId: int): Request {
    Request("POST", StopUrl, StopBody(cpid, connectorId))
  }

  function ReleaseRequest(cpid: string, connectorId: int): Request {
    Request("POST", ReleaseUrl, StopBody(cpid, connectorId))
  }

  predicate IsNotFound(o: Outcome) {
    o.Answered? && o.status == StatusNotFound
  }

  /** The requests `stopCharge` hands to doJSON, in order. */
  function StopRequests(cpid: string, connectorId: int, transport: Request -> Outcome): seq<Request> {
    var stop := StopRequest(cpid, connectorId);
    if IsNotFound(transport(stop)) then [stop, ReleaseRequest(cpid, connectorId)] else [stop]
  }

  /** The requests one run of the program hands to doJSON, in order. */
  function RunRequests(args: seq<string>, transport: Request -> Outcome): seq<Request> {
    match Classify(args)
    case Start(cpid, n, idTag) => [Request("POST", StartUrl, StartBody(cpid, n, idTag))]
    case Stop(cpid, n) => StopRequests(cpid, n, transport)
    case _ => []
  }

  /** The error `stopCharge` returns: the stop's, or after a 404 the release's. */
  function StopError(cpid: string, connectorId: int, transport: Request -> Outcome): Option<string> {
    var stop := transport(StopRequest(cpid, connectorId));
    if IsNotFound(stop) then ErrorOf(transport(ReleaseRequest(cpid, connectorId))) else ErrorOf(stop)
  }

  function ErrorLine(err: Option<string>, line: string -> Printed): seq<Printed> {
    match err
    case Some(e) => [line(e)]
    case None => []
  }

  /** What one run of the program prints, in order. */
  function RunPrinted(args: seq<string>, transport: Request -> Outcome): seq<Printed> {
    match Classify(args)
    case Usage => [UsageText]
    case StartUsage => [StartUsageText]
    case StopUsage => [StopUsageText]
    case UnknownCmd(cmd) => [UnknownCmdText(cmd), UsageText]
    case InvalidConnector(arg) => [InvalidConnectorText(arg)]
    case Start(cpid, n, idTag) =>
      var req := Request("POST", StartUrl, StartBody(cpid, n, idTag));
      Echo(req, transport(req)) + ErrorLine(ErrorOf(transport(req)), e => StartErrorText(e))
    case Stop(cpid, n) =>
      EchoAll(StopRequests(cpid, n, transport), transport)
        + ErrorLine(StopError(cpid, n, transport), e => StopErrorText(e))
  }

  /** A connector id Atoi rejects prints "Invalid connectorId" and makes no call, for both subcommands. */
  lemma InvalidConnectorNoCall(args: seq<string>, transport: Request -> Outcome)
    requires |args| >= 4 && (args[1] == "start" || args[1] == "stop") && Atoi(args[3]).None?
    ensures RunRequests(args, transport) == []
    ensures RunPrinted(args, transport) == [InvalidConnectorText(args[3])]
  {
  }

  /** Stop makes one call, or two when (and only when) the stop is answered 404. */
  lemma StopCallCount(cpid: string, connectorId: int, transport: Request -> Outcome)
    ensures var rs := StopRequests(cpid, connectorId, transport);
      && rs[0] == Request("POST", StopUrl, StopBody(cpid, connectorId))
      && (|rs| == 2 <==> IsNotFound(transport(rs[0])))
      && (|rs| == 1 <==> !IsNotFound(transport(rs[0])))
      && (|rs| == 2 ==> rs[1].url == ReleaseUrl && rs[1].body == rs[0].body)
  {
  }

  /** A transport failure on the stop call suppresses the release call. */
  lemma StopTransportErrorNoRelease(cpid: string, connectorId: int, transport: Request -> Outcome)
    requires !transport(StopRequest(cpid, connectorId)).Answered?
    ensures StopRequests(cpid, connectorId, transport) == [StopRequest(cpid, connectorId)]
  {
  }

  /** Bad or incomplete arguments make no HTTP call at all. */
  lemma NoCallUnlessStartOrStop(args: seq<string>, transport: Request -> Outcome)
    requires !Classify(args).Start? && !Classify(args).Stop?
    ensures RunRequests(args, transport) == []
  {
  }

  /** `start` makes exactly one call, to the start endpoint, whatever its answer. */
  lemma StartMakesOneCall(args: seq<string>, transport: Request -> Outcome)
    requires Classify(args).Start?
    ensures |RunRequests(args, transport)| == 1
    ensures RunRequests(args, transport)[0].url == StartUrl
    ensures '"' !in args[2] && '"' !in Classify(args).idTag ==>
      ReadStartBody(RunRequests(args, transport)[0].body) == Some((args[2], Atoi(args[3]).value, Classify(args).idTag))
  {
    var c := Classify(args);
    if '"' !in args[2] && '"' !in c.idTag {
      StartBodyReadsBack(c.cpid, c.connectorId, c.idTag);
    }
  }

  /** `stop CP001 1` against a server that answers 404 stops and then releases connector 1. */
  lemma StopExample(transport: Request -> Outcome)
    requires IsNotFound(transport(StopRequest("CP001", 1)))
    ensures RunRequests(["start_stop", "stop", "CP001", "1"], transport) ==
      [Request("POST", StopUrl, "{\"cpid\":\"CP001\",\"connectorId\":1}"),
       Request("POST", ReleaseUrl, "{\"cpid\":\"CP001\",\"connectorId\":1}")]
  {
    FormatOne();
    assert Classify(["start_stop", "stop", "CP001", "1"]) == Stop("CP001", 1);
    assert StopBody("CP001", 1) == "{\"cpid\":\"CP001\",\"connectorId\":1}";
  }

  /**
   * The process: the requests passed to doJSON so far and what has been printed. The HTTP
   * client is the fixed `transport`.
   */
  class Cli {
    const transport: Request -> Outcome
    var calls: seq<Request>
    var out: seq<Printed>

    constructor (transport: Request -> Outcome)
      ensures this.transport == transport && calls == [] && out == []
    {
      this.transport := transport;
      calls := [];
      out := [];
    }

    /**
     * doJSON: on a failure to build or send, returns (0, nil, err) and prints nothing;
     * otherwise prints the status line and the body and returns the status and the body.
     */
    method DoJson(verb: string, url: string, body: string) returns (status: int, resp: Option<seq<byte>>, err: Option<string>)
      modifies this
      ensures calls == old(calls) + [Request(verb, url, body)]
      ensures out == old(out) + Echo(Request(verb, url, body), transport(Request(verb, url, body)))
      ensures err == ErrorOf(transport(Request(verb, url, body)))
      ensures match transport(Request(verb, url, body))
        case Answered(code, b) => status == code && resp == Some(b)
        case _ => status == 0 && resp == None
    {
      var req := Request(verb, url, body);
      calls := calls + [req];
      match transport(req)
      case NotBuilt(e) =>
        return 0, None, Some(e);
      case NotSent(e) =>
        return 0, None, Some(e);
      case Answered(code, b) =>
        out := out + [StatusLine(verb, url, code), BodyText(b)];
        return code, Some(b), None;
    }

    /** startCharge: one POST to the start endpoint; its error is returned. */
    method StartCharge(cpid: string, connectorId: int, idTag: string) returns (err: Option<string>)
      modifies this
      ensures var req := Request("POST", StartUrl, StartBody(cpid, connectorId, idTag));
        && calls == old(calls) + [req]
        && out == old(out) + Echo(req, transport(req))
        && err == ErrorOf(transport(req))
    {
      var url := StartUrl;
      var jsonBody := StartBody(cpid, connectorId, idTag);
      var _, _, e := DoJson("POST", url, jsonBody);
      err := e;
    }

    /**
     * stopCharge: a stop POST; a transport error is returned at once; a 404 answer is
     * followed by a release POST with the same body, whose error is returned.
     */
    method StopCharge(cpid: string, connectorId: int) returns (err: Option<string>)
      modifies this
      ensures calls == old(calls) + StopRequests(cpid, connectorId, transport)
      ensures out == old(out) + EchoAll(StopRequests(cpid, connectorId, transport), transport)
      ensures err == StopError(cpid, connectorId, transport)
    {
      var url := StopUrl;
      var jsonBody := StopBody(cpid, connectorId);
      var stop := Request("POST", url, jsonBody);
      var status, _, e := DoJson("POST", url, jsonBody);
      assert EchoAll([stop], transport) == Echo(stop, transport(stop));
      if e.Some? {
        return e;
      }
      err := e;
      if status == StatusNotFound {
        var relUrl := ReleaseUrl;
        var relBody := StopBody(cpid, connectorId);
        var release := Request("POST", relUrl, relBody);
        var _, _, e2 := DoJson("POST", relUrl, relBody);
        assert EchoAll([stop, release], transport) == Echo(stop, transport(stop)) + EchoAll([release], transport);
        assert EchoAll([release], transport) == Echo(release, transport(release));
        err := e2;
      }
    }

    /** main: classify the arguments, then print usage or run the chosen command. */
    method Run(args: seq<string>)
      modifies this
      ensures calls == old(calls) + RunRequests(args, transport)
      ensures out == old(out) + RunPrinted(args, transport)
    {
      match Classify(args)
      case Usage =>
        out := out + [UsageText];
      case StartUsage =>
        out := out + [StartUsageText];
      case StopUsage =>
        out := out + [StopUsageText];
      case UnknownCmd(cmd) =>
        out := out + [UnknownCmdText(cmd), UsageText];
      case InvalidConnector(arg) =>
        out := out + [InvalidConnectorText(arg)];
      case Start(cpid, n, idTag) =>
        var err := StartCharge(cpid, n, idTag);
        if err.Some? {
          out := out + [StartErrorText(err.value)];
        }
      case Stop(cpid, n) =>
        var err := StopCharge(cpid, n);
        if err.Some? {
          out := out + [StopErrorText(err.value)];
        }
    }
  }
}
