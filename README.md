# ChargeForge-Sim in Dafny

A Dafny model of ChargeForge-Sim, a test bench for OCPP 1.6 (JSON) charging. It has three
parts that talk to one another:

- **The central system** (`ChargeBridge/central.py`).
  - It keeps per charge point:
    - the active transactions, keyed by connector;
    - the idTag a remote start expects;
    - the pending starts;
    - the last reported connector status;
    - a "no session" watchdog per connector;
    - the completed-session summaries.
  - It hands out transaction ids from one counter shared by all charge points.
  - It answers the HTTP endpoints `start`, `stop`, `charge/stop` and `release` by sending
    RemoteStart, RemoteStop and UnlockConnector calls.
- **The EVSE simulator** (`sim/`).
  - Its connectors are plugged and unplugged through an HTTP control API.
  - Sessions start and stop locally, or on the central system's request.
  - Each connector sends StatusNotification, StartTransaction, StopTransaction and MeterValues.
- **Two command-line clients** that drive the central system's HTTP API.
  - The Go client (`start_stop.go`) sends a hand-formatted JSON body.
  - The Python client (`start_stop.py`) adds an API key header and a SHA-256 digest of the fields.
  - After a stop answered 404, both send one more request, to `release`.

A small OCPP client session (`ChargeBridge/charging_session.py`) completes the core.

## Layout

| file | module | models |
|---|---|---|
| `wrappers.dfy` | `Wrappers` | `Option` and `Result` |
| `decimal.dfy` | `Decimal` | decimal text of integers and its parser |
| `text.dfy` | `Text` | `IndexOf`, `Split`, `Join` over strings |
| `go_cli.dfy` | `GoCli` | `start_stop.go` |
| `py_cli.dfy` | `PyCli` | `start_stop.py` |
| `central.dfy` | `Central` | `ChargeBridge/central.py` |
| `sim_state.dfy` | `SimState` | `sim/state_machine.py` |
| `sim_evse.dfy` | `SimEvse` | `sim/evse.py`, with the defaults of `sim/config.py` |
| `sim_handlers.dfy` | `SimHandlers` | `sim/ocpp_handlers.py` |
| `charging_session.dfy` | `ChargingSessions` | `ChargeBridge/charging_session.py` |

The model takes the form of the source.

- **Objects whose methods assign their own fields** become Dafny classes:
  - the central system's `CentralSystem` and the table of connected charge points;
  - the shared transaction counter;
  - the simulator's connectors and model;
  - the charging session.
- **Their mutating methods** carry `modifies` clauses. Each one states its whole new state, as
  a function of the old state and its inputs.
- **The pure parts** are functions with lemmas about them:
  - argument parsing;
  - body formatting;
  - the canonical hash string;
  - the websocket path rule.

**The surroundings of the core are parameters.** Each of the following is a value the caller
passes in:

- the HTTP transport of the clients;
- the reply (or the exception) of every OCPP call a component makes;
- the transaction id the central system confirms to the simulator;
- SHA-256;
- the timestamps.

**Calls sent are recorded as sequences** (`sent`, `calls`), and so is what the Go client prints.

## Model

| member | source | states |
|---|---|---|
| GoCli.Atoi | start_stop.go:93-97 | a connector id parses exactly when it is an optional sign and at least one digit whose value fits in a signed 64-bit int, and then to that value; anything else is an error |
| GoCli.AtoiOfFormatted | start_stop.go:93 | every 64-bit integer written in decimal parses back to itself |
| GoCli.AtoiExamples | start_stop.go:93-97 | empty text, letters and a lone sign are rejected; "+7" and "007" are 7; one past the 64-bit maximum is rejected |
| GoCli.Classify | start_stop.go:76-123 | usage below three arguments; the subcommand's own usage for `start` or `stop` with exactly three; start or stop exactly when the subcommand is one of them and the connector id parses; an invalid connector, naming the rejected argument, for either subcommand; an unknown command, naming it, otherwise; cpid, connector and idTag (DEMO_IDTAG when absent) come from the argument positions |
| GoCli.StartBody | start_stop.go:56 | the Sprintf start body, values spliced in unescaped; what it carries is stated by StartBodyReadsBack |
| GoCli.StopBody | start_stop.go:63-70 | the Sprintf body shared by stop and release; what it carries is stated by StopBodyReadsBack |
| GoCli.StartBodyReadsBack | start_stop.go:54-59 | the start body carries exactly the cpid, connector id and idTag it was made from (for values without a quote) |
| GoCli.StopBodyReadsBack | start_stop.go:61-74 | the stop and release body carries exactly the cpid and connector id |
| GoCli.StartExample | start_stop.go:87-104 | `start CP001 1` yields the JSON body with DEMO_IDTAG |
| GoCli.InvalidConnectorNoCall | start_stop.go:93-115 | for start and for stop, an unparsable connector id prints "Invalid connectorId" and makes no request |
| GoCli.StopCallCount | start_stop.go:61-74 | a stop makes one request, or two when answered 404; the second is the release with the same body |
| GoCli.StopTransportErrorNoRelease | start_stop.go:64-67 | when the stop request fails to be built or sent, no release follows |
| GoCli.NoCallUnlessStartOrStop | start_stop.go:76-123 | every run that is not a valid start or stop makes no request |
| GoCli.StartMakesOneCall | start_stop.go:87-104 | a valid start makes exactly one request, to the start URL, whose body reads back as the parsed arguments |
| GoCli.StopExample | start_stop.go:105-118 | `stop CP001 1` answered 404 sends the stop and then the release |
| GoCli.Echo | start_stop.go:48-50 | what doJSON prints for one outcome: the status line and the body when a response arrived, nothing otherwise |
| GoCli.StopRequests | start_stop.go:61-74 | the requests stopCharge hands to doJSON: the stop, then the release exactly when the stop is answered 404; its properties are StopCallCount and StopTransportErrorNoRelease |
| GoCli.StopError | start_stop.go:64-73 | the error stopCharge returns: the stop's, or after a 404 the release's |
| GoCli.RunRequests | start_stop.go:76-125 | the requests one run makes, by the classified command; its properties are NoCallUnlessStartOrStop, InvalidConnectorNoCall and StartMakesOneCall |
| GoCli.RunPrinted | start_stop.go:76-125 | what one run prints, by the classified command: the usage texts, the unknown command, the invalid connector, doJSON's output and the error line |
| GoCli.Cli.DoJson | start_stop.go:34-51 | records the request; prints the status line and body only when a response arrived; returns the transport's error otherwise |
| GoCli.Cli.StartCharge | start_stop.go:54-59 | one POST of the start body; the error is doJSON's |
| GoCli.Cli.StopCharge | start_stop.go:61-74 | the requests are the stop and, after a 404, the release; the error is the stop's or, after a 404, the release's |
| GoCli.Cli.Run | start_stop.go:76-125 | the requests and printed lines of one run are those of the classified command |
| PyCli.CanonicalFields | start_stop.py:27-29 | the canonical hash input splits at the bar character into cpid, connector id, idTag, tx, timestamp, "-", "-" (for fields without a bar) |
| PyCli.CanonicalInjective | start_stop.py:27-29 | distinct field tuples (without a bar) give distinct hash inputs |
| PyCli.Canonical | start_stop.py:27-29 | the string compute_hash digests: cpid, connector id, idTag, tx, ts and two "-" placeholders joined by bar characters; its fields are stated by CanonicalFields and CanonicalInjective |
| PyCli.Put | start_stop.py:43-44 | assigning a key stores the value and leaves every other key's value as it was; an existing key keeps its place and a new key goes last, so a dict without repeated keys keeps that property |
| PyCli.StartPayload | start_stop.py:32-45 | the start payload's keys in order; each value; the hash is SHA-256 of the canonical string over the same timestamp, with tx "-" when no transaction id is given; transactionId present exactly when given |
| PyCli.StopPayload | start_stop.py:48-62 | the stop payload's keys in order; each value; the hash uses "-" for a missing idTag or transaction id; idTag and transactionId present exactly when given |
| PyCli.ReleasePayload | start_stop.py:66-67 | the release body holds exactly cpid and connectorId |
| PyCli.ParseArgs | start_stop.py:71-87 | an argument list parses exactly when it is `start` or `stop`, cpid, an integer connector id, then an optional idTag and an optional integer transaction id; each other list gives its own error (missing command, invalid choice, missing arguments, invalid int naming the argument, unrecognized extras); cpid, connector id, idTag (DEMO_IDTAG for start, absent for stop) and transaction id come from their positions |
| PyCli.ParseArgsExamples | start_stop.py:75-85 | three concrete command lines and their results |
| PyCli.Echo | start_stop.py:22-23 | what _do_json prints for one outcome: the status line and the text, nothing when the request raised |
| PyCli.StartRequest | start_stop.py:45 | the POST of the start payload to the start URL with the fixed headers |
| PyCli.StopRequest | start_stop.py:64 | the POST of the stop payload to the stop URL with the fixed headers |
| PyCli.ReleaseRequest | start_stop.py:66-68 | the POST of the release payload to the release URL with the fixed headers |
| PyCli.StopRequests | start_stop.py:64-68 | the requests stop_charge makes: the stop, then the release exactly when the stop is answered 404 |
| PyCli.RunRequests | start_stop.py:90-95 | the requests one run makes: none on a parse error, else those of the parsed command |
| PyCli.StopReleaseOnlyOnNotFound | start_stop.py:64-68 | a stop is one request, or two exactly when it is answered 404; a stop that raised is not followed; the release goes to the release URL with only the stop's cpid and connectorId |
| PyCli.RunStart | start_stop.py:71-95 | `start` makes exactly one POST to the start URL, with the fixed headers, whose payload holds the command line's cpid and connector id, its idTag or DEMO_IDTAG, and a transactionId exactly when one is given |
| PyCli.RunStop | start_stop.py:71-95 | `stop` first POSTs to the stop URL the command line's cpid and connector id, an idTag exactly when given and a transactionId exactly when given; a second request follows exactly when the stop is answered 404 |
| PyCli.Client.DoJson | start_stop.py:15-24 | one request with the three fixed headers; prints status and text of the response |
| PyCli.Client.StartCharge | start_stop.py:32-45 | exactly one request, the POST of the start payload to the start URL, and _do_json's printed lines for its outcome |
| PyCli.Client.StopCharge | start_stop.py:48-68 | the requests are StopRequests (the stop payload, then the release after a 404), the printed lines are _do_json's for each, and the outcome is the last request's |
| PyCli.Client.Run | start_stop.py:90-95 | the requests and printed lines of one run are RunRequests of the parsed command line and _do_json's output for each |
| Central.Summary | ChargeBridge/central.py:274-291 | a completed session's energy is meterStop - meterStart, with the connector, transaction and idTag of the session |
| Central.StopTarget | ChargeBridge/central.py:414-427 | api_stop's target: a given transaction id exactly when some active session carries it; otherwise the transaction active on the given connector |
| Central.FreshTxKeepsDistinct | ChargeBridge/central.py:241-250 | while the active ids lie below the counter and are distinct, giving a connector the counter's next id keeps them distinct and below the advanced counter |
| Central.LastSegment | ChargeBridge/central.py:526 | the text after the last '/': a suffix without '/', preceded by '/' when shorter than the path |
| Central.CpIdFromPath | ChargeBridge/central.py:526 | an empty path is "UNKNOWN"; otherwise the last segment |
| Central.CpIdOfPath | ChargeBridge/central.py:520-530 | a charge point connecting at `<prefix>/<id>` is registered as `id` |
| Central.CpIdExamples | ChargeBridge/central.py:526 | "/ocpp/CP1" is CP1, a trailing '/' gives "", "" gives UNKNOWN |
| Central.TxCounter.Next | ChargeBridge/central.py:27 | the counter returns its value and advances by one |
| Central.CentralSystem.constructor | ChargeBridge/central.py:54-61 | all tables start empty |
| Central.CentralSystem.FindTx | ChargeBridge/central.py:267-272 | finds a connector whose session carries the id, None exactly when none does |
| Central.CentralSystem.RemoteStart | ChargeBridge/central.py:63-75 | sends the call; only an Accepted reply records the expected idTag |
| Central.CentralSystem.RemoteStop | ChargeBridge/central.py:77-84 | sends the call and changes no table |
| Central.CentralSystem.UnlockConnector | ChargeBridge/central.py:93-98 | sends the call and changes no table |
| Central.CentralSystem.Release | ChargeBridge/central.py:465-471 | cancels the watchdog, forgets both pending entries, then sends UnlockConnector |
| Central.CentralSystem.Start | ChargeBridge/central.py:396-406 | records the idTag in pending_start and sends RemoteStartTransaction; Accepted records the expected idTag and answers 200, Rejected drops the entry and answers 409, a raised call answers 500 with the entry kept; no other table changes |
| Central.CentralSystem.ExpireWatchdog | ChargeBridge/central.py:100-114 | unlocks only a connector still Preparing or Occupied without a transaction; forgets the pending entries only if the unlock did not raise; the watchdog entry goes in every case |
| Central.CentralSystem.OnStatusNotification | ChargeBridge/central.py:180-196 | stores the status; Preparing or Occupied starts a watchdog unless a transaction is active; any other status cancels it |
| Central.CentralSystem.OnStartTransaction | ChargeBridge/central.py:215-261 | an unexpected idTag unlocks and answers id 0 Invalid without a transaction; otherwise the next counter value becomes the connector's transaction, pending entries and the watchdog go, Accepted; keeps ids distinct |
| Central.CentralSystem.OnStopTransaction | ChargeBridge/central.py:263-295 | the session with that id leaves active_tx and one summary is appended; an unknown id changes nothing; always Accepted |
| Central.Registry.Connect | ChargeBridge/central.py:520-530 | a new central system, drawing on the shared counter and with every table empty, is registered under the id the path names |
| Central.Registry.Disconnect | ChargeBridge/central.py:533-534 | the id leaves the table |
| Central.Registry.ApiStart | ChargeBridge/central.py:390-406 | 404 for an unknown charge point; pending_start with the idTag (DEMO_IDTAG when empty); 200, 409 (pending_start dropped) or 500 by the reply; connector statuses, completed sessions, active sessions and watchdogs unchanged |
| Central.Registry.ApiStop | ChargeBridge/central.py:409-435 | 404 without a charge point or a target transaction; otherwise RemoteStop of the target, 200 with its id, 409 or 500; no table changes |
| Central.Registry.ApiStopByConnector | ChargeBridge/central.py:438-455 | 404 without a transaction on the connector; otherwise RemoteStop of it, 200, 409 or 500; no table changes |
| Central.Registry.ApiRelease | ChargeBridge/central.py:458-476 | 400 and no change while the connector has a transaction; otherwise release and unlock, 500 when the unlock raised; active sessions, statuses and completed sessions unchanged |
| SimState.ToStatusReports | sim/state_machine.py:23-33 | a state is reported under its own name exactly when it is one of the four reportable ones; every other state is "Available" |
| SimState.ToStatus | sim/state_machine.py:23-33 | to_status: the four reportable states by name, every other state as "Available"; stated by ToStatusReports |
| SimState.ConnectorSim.constructor | sim/state_machine.py:14-21 | a new connector is Available, unplugged, without session, idTag or transaction, at the start reading |
| SimState.EvseModel.constructor | sim/state_machine.py:36-41 | connectors 1..n in their initial state; an empty transaction map |
| SimState.EvseModel.Get | sim/state_machine.py:43-44 | the connector with that id, exactly when the id is 1..n |
| SimState.EvseModel.GetByTx | sim/state_machine.py:46-50 | the connector the transaction map names, None when unmapped |
| SimState.EvseModel.AssignTx | sim/state_machine.py:52-56 | the connector gets the transaction and a session, and the map points at it; nothing else changes |
| SimState.EvseModel.ClearTx | sim/state_machine.py:58-66 | a mapped transaction is unmapped and its connector loses session and transaction; an unmapped one changes nothing |
| SimState.AssignThenClear | sim/state_machine.py:52-66 | assign then clear leaves the transaction unmapped and the connector without one |
| SimEvse.FirstCarrying | sim/evse.py:64-66 | the first connector with an active session on the transaction, None exactly when there is none |
| SimEvse.Tick | sim/evse.py:132-137 | one period adds int(7000 * 10 / 3600) Wh to a connector with a session and changes nothing else |
| SimEvse.Reports | sim/evse.py:132-143 | one period's MeterValues come only from connectors with a session, each carrying its new reading |
| SimEvse.Simulator.StatusReport | sim/evse.py:31-40 | send_status: the StatusNotification naming the connector and its to_status |
| SimEvse.Simulator.FindCarrying | sim/evse.py:64-66 | the scan finds the connector FirstCarrying names |
| SimEvse.Simulator.StartLocal | sim/evse.py:44-61 | the connector takes idTag, session and Charging, reports it, sends StartTransaction with its reading and keeps the confirmed id; others unchanged |
| SimEvse.Simulator.StopLocalByTx | sim/evse.py:63-83 | only the first matching connector stops: StopTransaction (its own reading by default), Finishing, Available; no match changes nothing |
| SimEvse.Simulator.EndSession | sim/evse.py:67-83 | the found connector ends its session: StopTransaction with the reading, Finishing, then Available without transaction or idTag; no other connector changes |
| SimEvse.Simulator.MeterTick | sim/evse.py:128-144 | every connector advances by Tick and the messages sent are Reports of the old state |
| SimEvse.Simulator.TickOne | sim/evse.py:133-143 | one connector advances by Tick and every other connector is unchanged; a MeterValues with its new reading is sent exactly when its session is active |
| SimEvse.ReportsStep | sim/evse.py:132-143 | the reports for one more connector extend the earlier reports by that connector's MeterValues, if any |
| SimEvse.Simulator.Plug | sim/evse.py:147-153 | plugged and Preparing, reported; an unknown id is an error |
| SimEvse.Simulator.Unplug | sim/evse.py:155-164 | unplugged, Available, without session, transaction or idTag, reported; meter kept |
| SimEvse.Simulator.LocalStart | sim/evse.py:166-172 | "not plugged" changes nothing; otherwise start_local with LOCAL_TAG by default |
| SimEvse.Simulator.LocalStop | sim/evse.py:174-180 | "no active session" changes nothing; otherwise stop_local_by_tx on its transaction with its reading |
| SimHandlers.RemoteStartConnector | sim/ocpp_handlers.py:25 | an absent or zero connector id means connector 1 |
| SimHandlers.OnAuthorize | sim/ocpp_handlers.py:60-62 | every idTag is accepted |
| SimHandlers.EvseChargePoint.OnRemoteStart | sim/ocpp_handlers.py:23-35 | Rejected and no change when unplugged; otherwise the local start and Accepted; an unknown connector raises |
| SimHandlers.EvseChargePoint.OnRemoteStop | sim/ocpp_handlers.py:37-42 | the local stop with no reading, then Accepted |
| SimHandlers.EvseChargePoint.OnStartTransaction | sim/ocpp_handlers.py:64-72 | the local start, then transaction id 0 and Accepted |
| SimHandlers.EvseChargePoint.OnStopTransaction | sim/ocpp_handlers.py:74-77 | the local stop with the given reading, then Accepted |
| ChargingSessions.ChargingSession.constructor | ChargeBridge/charging_session.py:13-17 | connector 1 and idTag GUEST unless given; no transaction or reading |
| ChargingSessions.ChargingSession.Start | ChargeBridge/charging_session.py:19-27 | records the reading, connects, sends StartTransaction and keeps the reply's transaction id |
| ChargingSessions.ChargingSession.Stop | ChargeBridge/charging_session.py:29-37 | "Session not started", sending nothing, without a transaction id; otherwise StopTransaction with it, then close |
| ChargingSessions.StartThenStop | ChargeBridge/charging_session.py:19-37 | a start whose reply carries a transaction id can be stopped, and the stop names that id |

## Left out

- **Networking.** Websockets, FastAPI/uvicorn routing, the `requests` library and Go's `http.Client` settings (timeouts, keep-alive) are not modelled. Transports and OCPP call replies are parameters.
- **Concurrency and timing.** The asyncio tasks are not modelled. The 90-second watchdog is the explicit step `ExpireWatchdog`. The simulator's one-second sleep and its heartbeat loop are left out. The meter loop is one round, `MeterTick`.
- **Timestamps.** Timestamp parsing with its fallback to "now", `durationSecs` and the clock are left out. Timestamps are strings passed in.
- **Hashing.** SHA-256 is a function parameter; only the string it is applied to is modelled.
- **JSON.** The exact text produced by `json.dumps` is not modelled. A Python payload is modelled as its keys in insertion order plus a map from each key to its value.
- **argparse.** Options such as `-h` and `--` are not modelled. Neither are the whitespace, underscore and non-ASCII digit forms Python's `int()` accepts; `PyInt` takes an optional sign followed by ASCII digits.
- **Other central system handlers and endpoints.** BootNotification, Heartbeat, MeterValues, DataTransfer, Authorize and ChangeConfiguration are left out. They answer constants and change no table. The display-message builder, the console thread, the API-key check and the listing endpoints (`active`, `history`, `status`) are left out too. The listings only read the tables.
- **Simulator boot and handlers.** The simulator's connect-and-reconnect loop is left out, and so are its BootNotification and Heartbeat handlers.
- **Configuration.** Environment variables are not read. The meter rate and period take `sim/config.py`'s defaults (7000 W, 10 s) as constants. The connector count and the starting meter reading are parameters of the simulator model's constructor. The simulator's charge point id is not used by any modelled operation.
- **Call results.** A call whose reply has no `status` counts as a non-Accepted reply. Exceptions from the simulator's own calls to the central system are not modelled: those calls complete.
- **The OCPP client behind `ChargingSession`.** `ChargeBridge/ocpp_client.py` is not part of this model. The session's calls are recorded and their replies are parameters.
- **`vid` in pending starts.** `PendingStart.vid` is carried from a pending start to the transaction as `central.py` does. No path in the source ever sets it, so it is always None in practice.
- **The transaction map is not used by start and stop.** The simulator's start and stop do not use `assign_tx`, `clear_tx` or `tx_map`, exactly as in the source. Those operations are modelled on their own.
- **Integer conversion.** `int(...)` conversions of connector ids inside the central system are left out; ids are integers already.
