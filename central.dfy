/**
 * The central system (ChargeBridge/central.py): one CentralSystem per connected charge point,
 * keeping per-connector tables of active transactions, pending remote starts, reported statuses
 * and "no session" watchdogs, plus the HTTP control endpoints that act on the table of connected
 * charge points.
 *
 * OCPP calls the central system makes (RemoteStartTransaction, RemoteStopTransaction,
 * UnlockConnector) are recorded in `sent`; what the charge point answers is a parameter of the
 * operation that waits for it. A watchdog is the connector id in `watchdogs`; its timer firing is
 * the explicit step ExpireWatchdog. Timestamps are opaque strings.
 */
module Central {
  import opened Wrappers

  const DefaultIdTag := "DEMO_IDTAG"
  const UnknownCpId := "UNKNOWN"

  const BadRequest := 400
  const NotFound := 404
  const Conflict := 409
  const ServerError := 500

  /** Status of a RemoteStartTransaction / RemoteStopTransaction reply. */
  datatype RemoteStatus = Accepted | Rejected

  /** Status of an UnlockConnector reply. */
  datatype UnlockStatus = Unlocked | UnlockFailed | NotSupported

  /** What awaiting an outgoing OCPP call yields: the reply's status, or an exception. */
  datatype CallResult<S> = Replied(status: S) | Raised(err: string)

  datatype OutCall =
    | RemoteStartCall(connectorId: int, idTag: string)
    | RemoteStopCall(transactionId: int)
    | UnlockCall(connectorId: int)

  datatype AuthStatus = AuthAccepted | AuthInvalid

  datatype StartConf = StartConf(transactionId: int, status: AuthStatus)

  /** An entry of active_tx. */
  datatype TxInfo = TxInfo(transactionId: int, idTag: string, meterStart: int, startTime: string, vid: Option<string>)

  /** An entry of pending_start: the idTag the API asked for and, optionally, a vehicle id. */
  datatype PendingStart = PendingStart(idTag: string, vid: Option<string>)

  /** A record of completed_sessions. */
  datatype Completed = Completed(
    connectorId: int, transactionId: int, idTag: string,
    meterStart: int, meterStop: int, energy: int,
    startTime: string, stopTime: string)

  /** What an HTTP endpoint answers: success (with the transaction id it names, if any) or an error code. */
  datatype ApiResult = Done(transactionId: Option<int>) | Refused(code: int)

  /** Statuses for which a connector waits for a session to start. */
  predicate AwaitsSession(status: string) {
    status == "Preparing" || status == "Occupied"
  }

  /** No two connectors hold the same transaction id. */
  ghost predicate DistinctTx(active: map<int, TxInfo>) {
    forall c1, c2 :: c1 in active && c2 in active && active[c1].transactionId == active[c2].transactionId ==> c1 == c2
  }

  ghost predicate HasTx(active: map<int, TxInfo>, tx: int) {
    exists c :: c in active && active[c].transactionId == tx
  }

  /** The summary on_stop_transaction appends for a session found on connector `c`. */
  function Summary(c: int, info: TxInfo, transactionId: int, meterStop: int, stopTime: string): (r: Completed)
    ensures r.energy == r.meterStop - r.meterStart
    ensures r.connectorId == c && r.transactionId == transactionId && r.idTag == info.idTag
    ensures r.meterStart == info.meterStart && r.meterStop == meterStop
  {
    Completed(c, transactionId, info.idTag, info.meterStart, meterStop, meterStop - info.meterStart, info.startTime, stopTime)
  }

  /**
   * The transaction api_stop asks to stop: a given transaction id only when some active session
   * carries it; otherwise the transaction on the given connector, if any.
   */
  ghost function StopTarget(active: map<int, TxInfo>, txId: Option<int>, connectorId: Option<int>): (r: Option<int>)
    ensures r.Some? ==> HasTx(active, r.value)
    ensures txId.Some? ==> (r.Some? <==> HasTx(active, txId.value)) && (r.Some? ==> r == txId)
    ensures txId.None? ==> (r.Some? <==> connectorId.Some? && connectorId.value in active)
    ensures txId.None? && r.Some? ==> r.value == active[connectorId.value].transactionId
  {
    if txId.Some? then
      if HasTx(active, txId.value) then txId else None
    else if connectorId.Some? && connectorId.value in active then
      var c := connectorId.value;
      assert c in active && active[c].transactionId == active[c].transactionId;
      assert HasTx(active, active[c].transactionId);
      Some(active[c].transactionId)
    else
      None
  }

  /**
   * A transaction id drawn from the counter is new: while every active id lies in 1..next-1 and
   * no two connectors share one, giving connector `c` the id `next` keeps the ids distinct, and
   * all of them lie below the advanced counter. OnStartTransaction keeps Valid() through it.
   */
  lemma FreshTxKeepsDistinct(active: map<int, TxInfo>, next: int, c: int, info: TxInfo, after: map<int, TxInfo>)
    requires next >= 1 && info.transactionId == next && after == active[c := info]
    requires forall c' :: c' in active ==> 1 <= active[c'].transactionId < next
    requires DistinctTx(active)
    ensures DistinctTx(after)
    ensures forall c' :: c' in after ==> 1 <= after[c'].transactionId < next + 1
  {
  }

  // ---------------------------------------------------------------------------------------
  // cp_id rule of the websocket handler
  // ---------------------------------------------------------------------------------------

  /** `s.rsplit('/', 1)[-1]`: the text after the last '/', or all of `s` when it has none. */
  function LastSegment(s: string): (r: string)
    ensures |r| <= |s| && r == s[|s| - |r|..]
    ensures '/' !in r
    ensures |r| < |s| ==> s[|s| - |r| - 1] == '/'
  {
    if s == [] then []
    else if s[|s| - 1] == '/' then []
    else LastSegment(s[..|s| - 1]) + [s[|s| - 1]]
  }

  /** The charge point id a websocket path names; an empty path gives "UNKNOWN". */
  function CpIdFromPath(path: string): (r: string)
    ensures path == [] ==> r == UnknownCpId
    ensures path != [] ==> r == LastSegment(path)
  {
    if path == [] then UnknownCpId else LastSegment(path)
  }

  /** A charge point connecting at `<prefix>/<id>`, with no '/' in id, is registered as id. */
  lemma {:induction false} CpIdOfPath(prefix: string, id: string)
    requires '/' !in id
    ensures CpIdFromPath(prefix + "/" + id) == id
  {
    var s := prefix + "/" + id;
    if id == [] {
      assert s[|s| - 1] == '/';
    } else {
      var init := id[..|id| - 1];
      assert s[..|s| - 1] == prefix + "/" + init;
      assert '/' !in init by {
        assert forall i :: 0 <= i < |init| ==> init[i] == id[i];
      }
      CpIdOfPath(prefix, init);
      assert id == init + [id[|id| - 1]];
    }
  }

  lemma CpIdExamples()
    ensures CpIdFromPath("/ocpp/CP1") == "CP1"
    ensures CpIdFromPath("/ocpp/") == ""
    ensures CpIdFromPath("CP1") == "CP1"
    ensures CpIdFromPath("") == "UNKNOWN"
  {
    CpIdOfPath("/ocpp", "CP1");
    assert "/ocpp" + "/" + "CP1" == "/ocpp/CP1";
    CpIdOfPath("/ocpp", "");
    assert "/ocpp" + "/" + "" == "/ocpp/";
    assert LastSegment("CP1") == LastSegment("") + "CP1";
  }

  // ---------------------------------------------------------------------------------------
  // The global transaction counter
  // ---------------------------------------------------------------------------------------

  /** itertools.count(1), shared by every charge point. */
  class TxCounter {
    var next: int

    constructor ()
      ensures next == 1
    {
      next := 1;
    }

    method Next() returns (id: int)
      modifies this
      ensures id == old(next) && next == old(next) + 1
    {
      id := next;
      next := next + 1;
    }
  }

  // ---------------------------------------------------------------------------------------
  // CentralSystem
  // ---------------------------------------------------------------------------------------

  class CentralSystem {
    const id: string
    const counter: TxCounter
    var activeTx: map<int, TxInfo>
    var pendingRemote: map<int, string>
    var pendingStart: map<int, PendingStart>
    var connectorStatus: map<int, string>
    var watchdogs: set<int>
    var completed: seq<Completed>
    var sent: seq<OutCall>

    /**
     * Transaction ids come from the counter, so they are at least 1, below its next value and
     * distinct; a connector with an active transaction has no watchdog; every completed record's
     * energy is its meter difference.
     */
    ghost predicate Valid()
      reads this, counter
    {
      && counter.next >= 1
      && (forall c :: c in activeTx ==> 1 <= activeTx[c].transactionId < counter.next)
      && DistinctTx(activeTx)
      && watchdogs !! activeTx.Keys
      && (forall i :: 0 <= i < |completed| ==> completed[i].energy == completed[i].meterStop - completed[i].meterStart)
    }

    constructor (id: string, counter: TxCounter)
      requires counter.next >= 1
      ensures Valid()
      ensures this.id == id && this.counter == counter
      ensures activeTx == map[] && pendingRemote == map[] && pendingStart == map[] && connectorStatus == map[]
      ensures watchdogs == {} && completed == [] && sent == []
    {
      this.id := id;
      this.counter := counter;
      activeTx := map[];
      pendingRemote := map[];
      pendingStart := map[];
      connectorStatus := map[];
      watchdogs := {};
      completed := [];
      sent := [];
    }

    /** The connector whose active session carries transaction id `tx`, by scanning active_tx. */
    method FindTx(tx: int) returns (found: Option<int>)
      ensures found.Some? ==> found.value in activeTx && activeTx[found.value].transactionId == tx
      ensures found.None? <==> !HasTx(activeTx, tx)
    {
      var keys := activeTx.Keys;
      while keys != {}
        invariant keys <= activeTx.Keys
        invariant forall c :: c in activeTx && c !in keys ==> activeTx[c].transactionId != tx
        decreases keys
      {
        if forall k :: k !in keys {
          assert false;
        }
        var c :| c in keys;
        if activeTx[c].transactionId == tx {
          return Some(c);
        }
        keys := keys - {c};
      }
      return None;
    }

    /** remote_start: send the call; only an Accepted reply records the pending idTag. */
    method RemoteStart(connectorId: int, idTag: string, reply: CallResult<RemoteStatus>)
      returns (r: CallResult<RemoteStatus>)
      requires Valid()
      modifies this
      ensures Valid() && r == reply
      ensures sent == old(sent) + [RemoteStartCall(connectorId, idTag)]
      ensures pendingRemote == if reply == Replied(Accepted) then old(pendingRemote)[connectorId := idTag] else old(pendingRemote)
      ensures activeTx == old(activeTx) && pendingStart == old(pendingStart) && connectorStatus == old(connectorStatus)
      ensures watchdogs == old(watchdogs) && completed == old(completed)
    {
      sent := sent + [RemoteStartCall(connectorId, idTag)];
      r := reply;
      if reply == Replied(Accepted) {
        pendingRemote := pendingRemote[connectorId := idTag];
      }
    }

    /** remote_stop: send the call and hand back the reply; no table changes. */
    method RemoteStop(transactionId: int, reply: CallResult<RemoteStatus>) returns (r: CallResult<RemoteStatus>)
      requires Valid()
      modifies this
      ensures Valid() && r == reply
      ensures sent == old(sent) + [RemoteStopCall(transactionId)]
      ensures activeTx == old(activeTx) && pendingRemote == old(pendingRemote) && pendingStart == old(pendingStart)
      ensures connectorStatus == old(connectorStatus) && watchdogs == old(watchdogs) && completed == old(completed)
    {
      sent := sent + [RemoteStopCall(transactionId)];
      r := reply;
    }

    /** unlock_connector: send the call and hand back the reply; no table changes. */
    method UnlockConnector(connectorId: int, reply: CallResult<UnlockStatus>) returns (r: CallResult<UnlockStatus>)
      requires Valid()
      modifies this
      ensures Valid() && r == reply
      ensures sent == old(sent) + [UnlockCall(connectorId)]
      ensures activeTx == old(activeTx) && pendingRemote == old(pendingRemote) && pendingStart == old(pendingStart)
      ensures connectorStatus == old(connectorStatus) && watchdogs == old(watchdogs) && completed == old(completed)
    {
      sent := sent + [UnlockCall(connectorId)];
      r := reply;
    }

    /**
     * The release part of api_release for a connector without an active transaction: cancel its
     * watchdog, forget both pending entries, then send UnlockConnector.
     */
    method Release(c: int, unlockReply: CallResult<UnlockStatus>) returns (r: CallResult<UnlockStatus>)
      requires Valid() && c !in activeTx
      modifies this
      ensures Valid() && r == unlockReply
      ensures sent == old(sent) + [UnlockCall(c)]
      ensures watchdogs == old(watchdogs) - {c}
      ensures pendingRemote == old(pendingRemote) - {c} && pendingStart == old(pendingStart) - {c}
      ensures activeTx == old(activeTx) && connectorStatus == old(connectorStatus) && completed == old(completed)
    {
      watchdogs := watchdogs - {c};
      pendingRemote := pendingRemote - {c};
      pendingStart := pendingStart - {c};
      r := UnlockConnector(c, unlockReply);
    }

    /**
     * The part of api_start after the charge point is found: record pending_start with the
     * idTag, send RemoteStartTransaction, and answer 200 when accepted, 409 after dropping
     * pending_start when rejected, 500 when the call raised.
     */
    method Start(c: int, tag: string, reply: CallResult<RemoteStatus>) returns (r: ApiResult)
      requires Valid()
      modifies this
      ensures Valid()
      ensures sent == old(sent) + [RemoteStartCall(c, tag)]
      ensures r == (match reply
                    case Raised(_) => Refused(ServerError)
                    case Replied(Accepted) => Done(None)
                    case Replied(Rejected) => Refused(Conflict))
      ensures pendingStart == (if reply == Replied(Rejected) then old(pendingStart) - {c}
                               else old(pendingStart)[c := PendingStart(tag, None)])
      ensures pendingRemote == (if reply == Replied(Accepted) then old(pendingRemote)[c := tag] else old(pendingRemote))
      ensures activeTx == old(activeTx) && watchdogs == old(watchdogs)
      ensures connectorStatus == old(connectorStatus) && completed == old(completed)
    {
      pendingStart := pendingStart[c := PendingStart(tag, None)];
      var status := RemoteStart(c, tag, reply);
      match status
      case Raised(_) =>
        r := Refused(ServerError);
      case Replied(Accepted) =>
        r := Done(None);
      case Replied(Rejected) =>
        pendingStart := pendingStart - {c};
        r := Refused(Conflict);
    }

    /**
     * The watchdog of connector `c` fires: when the connector still waits for a session and has
     * none, unlock it and, unless the unlock raised, forget both pending entries. The watchdog
     * entry goes away in every case.
     */
    method ExpireWatchdog(c: int, unlockReply: CallResult<UnlockStatus>)
      requires Valid() && c in watchdogs
      modifies this
      ensures Valid()
      ensures watchdogs == old(watchdogs) - {c}
      ensures var fires := c in old(connectorStatus) && AwaitsSession(old(connectorStatus)[c]) && c !in old(activeTx);
        && sent == (if fires then old(sent) + [UnlockCall(c)] else old(sent))
        && pendingRemote == (if fires && unlockReply.Replied? then old(pendingRemote) - {c} else old(pendingRemote))
        && pendingStart == (if fires && unlockReply.Replied? then old(pendingStart) - {c} else old(pendingStart))
      ensures activeTx == old(activeTx) && connectorStatus == old(connectorStatus) && completed == old(completed)
    {
      if c in connectorStatus && AwaitsSession(connectorStatus[c]) && c !in activeTx {
        var r := UnlockConnector(c, unlockReply);
        if r.Replied? {
          pendingRemote := pendingRemote - {c};
          pendingStart := pendingStart - {c};
        }
      }
      watchdogs := watchdogs - {c};
    }

    /**
     * StatusNotification: store the status; Preparing/Occupied starts a watchdog unless the
     * connector has an active transaction or a watchdog already; any other status cancels it.
     */
    method OnStatusNotification(c: int, status: string)
      requires Valid()
      modifies this
      ensures Valid()
      ensures connectorStatus == old(connectorStatus)[c := status]
      ensures watchdogs ==
        if !AwaitsSession(status) then old(watchdogs) - {c}
        else if c in old(activeTx) then old(watchdogs)
        else old(watchdogs) + {c}
      ensures activeTx == old(activeTx) && pendingRemote == old(pendingRemote) && pendingStart == old(pendingStart)
      ensures completed == old(completed) && sent == old(sent)
    {
      connectorStatus := connectorStatus[c := status];
      if AwaitsSession(status) {
        if c !in activeTx && c !in watchdogs {
          watchdogs := watchdogs + {c};
        }
      } else {
        watchdogs := watchdogs - {c};
      }
    }

    /**
     * StartTransaction. An idTag other than the one a pending remote start expects is refused
     * with transaction id 0 and status Invalid, after unlocking the connector and forgetting both
     * pending entries; no transaction starts. Otherwise the next id of the shared counter
     * becomes the connector's active transaction, both pending entries and the watchdog go away,
     * and the reply is Accepted. `None` is the handler raising (the unlock call failed).
     */
    method OnStartTransaction(c: int, idTag: string, meterStart: int, timestamp: string,
                              unlockReply: CallResult<UnlockStatus>)
      returns (r: Option<StartConf>)
      requires Valid()
      modifies this, counter
      ensures Valid()
      ensures connectorStatus == old(connectorStatus) && completed == old(completed)
      ensures var mismatch := c in old(pendingRemote) && old(pendingRemote)[c] != idTag;
        if mismatch then
          && sent == old(sent) + [UnlockCall(c)]
          && activeTx == old(activeTx) && watchdogs == old(watchdogs) && counter.next == old(counter.next)
          && (if unlockReply.Raised? then
                r == None && pendingRemote == old(pendingRemote) && pendingStart == old(pendingStart)
              else
                r == Some(StartConf(0, AuthInvalid))
                && pendingRemote == old(pendingRemote) - {c} && pendingStart == old(pendingStart) - {c})
        else
          && r == Some(StartConf(old(counter.next), AuthAccepted))
          && counter.next == old(counter.next) + 1
          && activeTx == old(activeTx)[c := TxInfo(old(counter.next), idTag, meterStart, timestamp,
                                                   if c in old(pendingStart) then old(pendingStart)[c].vid else None)]
          && pendingRemote == old(pendingRemote) - {c} && pendingStart == old(pendingStart) - {c}
          && watchdogs == old(watchdogs) - {c} && sent == old(sent)
    {
      if c in pendingRemote && pendingRemote[c] != idTag {
        var u := UnlockConnector(c, unlockReply);
        if u.Raised? {
          return None;
        }
        pendingRemote := pendingRemote - {c};
        pendingStart := pendingStart - {c};
        return Some(StartConf(0, AuthInvalid));
      }
      var vid := if c in pendingStart then pendingStart[c].vid else None;
      pendingStart := pendingStart - {c};
      pendingRemote := pendingRemote - {c};
      var txId := counter.Next();
      var info := TxInfo(txId, idTag, meterStart, timestamp, vid);
      FreshTxKeepsDistinct(activeTx, txId, c, info, activeTx[c := info]);
      activeTx := activeTx[c := info];
      watchdogs := watchdogs - {c};
      r := Some(StartConf(txId, AuthAccepted));
    }

    /**
     * StopTransaction: the session carrying the transaction id leaves active_tx and one summary
     * whose energy is meterStop - meterStart is appended; an unknown id changes nothing. The
     * reply is always Accepted.
     */
    method OnStopTransaction(transactionId: int, meterStop: int, timestamp: string) returns (status: AuthStatus)
      requires Valid()
      modifies this
      ensures Valid()
      ensures status == AuthAccepted
      ensures forall c :: c in old(activeTx) && old(activeTx)[c].transactionId == transactionId ==>
        && activeTx == old(activeTx) - {c}
        && completed == old(completed) + [Summary(c, old(activeTx)[c], transactionId, meterStop, timestamp)]
      ensures !HasTx(old(activeTx), transactionId) ==> activeTx == old(activeTx) && completed == old(completed)
      ensures pendingRemote == old(pendingRemote) && pendingStart == old(pendingStart)
      ensures connectorStatus == old(connectorStatus) && watchdogs == old(watchdogs) && sent == old(sent)
    {
      var found := FindTx(transactionId);
      if found.Some? {
        var c := found.value;
        var info := activeTx[c];
        activeTx := activeTx - {c};
        completed := completed + [Summary(c, info, transactionId, meterStop, timestamp)];
      }
      status := AuthAccepted;
    }
  }

  // ---------------------------------------------------------------------------------------
  // connected_cps and the HTTP endpoints
  // ---------------------------------------------------------------------------------------

  /** The table of connected charge points, all drawing transaction ids from one counter. */
  class Registry {
    const counter: TxCounter
    var cps: map<string, CentralSystem>

    ghost predicate Valid()
      reads this, cps.Values, counter
    {
      && counter.next >= 1
      && forall k :: k in cps ==> cps[k].counter == counter && cps[k].Valid()
    }

    constructor ()
      ensures Valid() && cps == map[] && fresh(counter) && counter.next == 1
    {
      counter := new TxCounter();
      cps := map[];
    }

    /** A websocket connects: a new CentralSystem under the id its path names. */
    method Connect(path: string) returns (cp: CentralSystem)
      requires Valid()
      modifies this
      ensures Valid() && fresh(cp)
      ensures cps == old(cps)[CpIdFromPath(path) := cp]
      ensures cp.id == CpIdFromPath(path) && cp.counter == counter
      ensures cp.activeTx == map[] && cp.pendingRemote == map[] && cp.pendingStart == map[]
      ensures cp.connectorStatus == map[] && cp.watchdogs == {} && cp.completed == [] && cp.sent == []
    {
      cp := new CentralSystem(CpIdFromPath(path), counter);
      cps := cps[cp.id := cp];
    }

    /** The websocket closes: its id leaves connected_cps. */
    method Disconnect(cpId: string)
      requires Valid()
      modifies this
      ensures Valid() && cps == old(cps) - {cpId}
    {
      cps := cps - {cpId};
    }

    /**
     * api_start: 404 for an unknown charge point; otherwise record pending_start with the idTag
     * (DEMO_IDTAG when absent or empty), send RemoteStartTransaction and answer 409 after
     * dropping pending_start when it is not accepted, 500 when the call raised, 200 otherwise.
     */
    method ApiStart(cpid: string, connectorId: int, idTag: Option<string>, reply: CallResult<RemoteStatus>)
      returns (r: ApiResult)
      requires Valid()
      modifies if cpid in cps then {cps[cpid]} else {}
      ensures Valid()
      ensures cpid !in cps ==> r == Refused(NotFound)
      ensures cpid in cps ==>
        var cp := cps[cpid];
        var tag := if idTag.None? || idTag.value == "" then DefaultIdTag else idTag.value;
        && cp.sent == old(cp.sent) + [RemoteStartCall(connectorId, tag)]
        && r == (match reply
                 case Raised(_) => Refused(ServerError)
                 case Replied(Accepted) => Done(None)
                 case Replied(Rejected) => Refused(Conflict))
        && cp.pendingStart == (if reply == Replied(Rejected) then old(cp.pendingStart) - {connectorId}
                               else old(cp.pendingStart)[connectorId := PendingStart(tag, None)])
        && cp.pendingRemote == (if reply == Replied(Accepted) then old(cp.pendingRemote)[connectorId := tag]
                                else old(cp.pendingRemote))
        && cp.activeTx == old(cp.activeTx) && cp.watchdogs == old(cp.watchdogs)
        && cp.connectorStatus == old(cp.connectorStatus) && cp.completed == old(cp.completed)
    {
      if cpid !in cps {
        return Refused(NotFound);
      }
      var tag := if idTag.None? || idTag.value == "" then DefaultIdTag else idTag.value;
      r := cps[cpid].Start(connectorId, tag, reply);
    }

    /**
     * api_stop: 404 for an unknown charge point or when no active transaction is named (see
     * StopTarget); otherwise RemoteStopTransaction for it, answered 409 when not accepted and 500
     * when the call raised. The tables never change.
     */
    method ApiStop(cpid: string, txId: Option<int>, connectorId: Option<int>, reply: CallResult<RemoteStatus>)
      returns (r: ApiResult)
      requires Valid()
      modifies if cpid in cps then {cps[cpid]} else {}
      ensures Valid()
      ensures cpid !in cps ==> r == Refused(NotFound)
      ensures cpid in cps ==>
        var cp := cps[cpid];
        && cp.activeTx == old(cp.activeTx) && cp.pendingRemote == old(cp.pendingRemote)
        && cp.pendingStart == old(cp.pendingStart) && cp.watchdogs == old(cp.watchdogs)
        && cp.connectorStatus == old(cp.connectorStatus) && cp.completed == old(cp.completed)
        && match StopTarget(old(cp.activeTx), txId, connectorId)
           case None => r == Refused(NotFound) && cp.sent == old(cp.sent)
           case Some(tx) =>
             && cp.sent == old(cp.sent) + [RemoteStopCall(tx)]
             && r == (match reply
                      case Raised(_) => Refused(ServerError)
                      case Replied(Accepted) => Done(Some(tx))
                      case Replied(Rejected) => Refused(Conflict))
    {
      if cpid !in cps {
        return Refused(NotFound);
      }
      var cp := cps[cpid];
      var tx := txId;
      if tx.Some? {
        var found := cp.FindTx(tx.value);
        if found.None? {
          return Refused(NotFound);
        }
      } else if connectorId.Some? && connectorId.value in cp.activeTx {
        tx := Some(cp.activeTx[connectorId.value].transactionId);
      }
      if tx.None? {
        return Refused(NotFound);
      }
      var status := cp.RemoteStop(tx.value, reply);
      match status
      case Raised(_) =>
        r := Refused(ServerError);
      case Replied(Accepted) =>
        r := Done(tx);
      case Replied(Rejected) =>
        r := Refused(Conflict);
    }

    /** api_stop_by_connector: stop the transaction active on the connector; 404 when there is none. */
    method ApiStopByConnector(cpid: string, connectorId: int, reply: CallResult<RemoteStatus>)
      returns (r: ApiResult)
      requires Valid()
      modifies if cpid in cps then {cps[cpid]} else {}
      ensures Valid()
      ensures cpid !in cps ==> r == Refused(NotFound)
      ensures cpid in cps ==>
        var cp := cps[cpid];
        && cp.activeTx == old(cp.activeTx) && cp.pendingRemote == old(cp.pendingRemote)
        && cp.pendingStart == old(cp.pendingStart) && cp.watchdogs == old(cp.watchdogs)
        && cp.connectorStatus == old(cp.connectorStatus) && cp.completed == old(cp.completed)
        && if connectorId !in old(cp.activeTx) then
             r == Refused(NotFound) && cp.sent == old(cp.sent)
           else
             var tx := old(cp.activeTx)[connectorId].transactionId;
             && cp.sent == old(cp.sent) + [RemoteStopCall(tx)]
             && r == (match reply
                      case Raised(_) => Refused(ServerError)
                      case Replied(Accepted) => Done(Some(tx))
                      case Replied(Rejected) => Refused(Conflict))
    {
      if cpid !in cps {
        return Refused(NotFound);
      }
      var cp := cps[cpid];
      if connectorId !in cp.activeTx {
        return Refused(NotFound);
      }
      var tx := cp.activeTx[connectorId].transactionId;
      var status := cp.RemoteStop(tx, reply);
      match status
      case Raised(_) =>
        r := Refused(ServerError);
      case Replied(Accepted) =>
        r := Done(Some(tx));
      case Replied(Rejected) =>
        r := Refused(Conflict);
    }

    /**
     * api_release: 400, changing nothing, while the connector has an active transaction;
     * otherwise cancel its watchdog, forget both pending entries and send UnlockConnector,
     * answering 500 when that raised.
     */
    method ApiRelease(cpid: string, connectorId: int, reply: CallResult<UnlockStatus>) returns (r: ApiResult)
      requires Valid()
      modifies if cpid in cps then {cps[cpid]} else {}
      ensures Valid()
      ensures cpid !in cps ==> r == Refused(NotFound)
      ensures cpid in cps ==>
        var cp := cps[cpid];
        && cp.activeTx == old(cp.activeTx) && cp.connectorStatus == old(cp.connectorStatus)
        && cp.completed == old(cp.completed)
        && if connectorId in old(cp.activeTx) then
             && r == Refused(BadRequest) && cp.sent == old(cp.sent) && cp.watchdogs == old(cp.watchdogs)
             && cp.pendingRemote == old(cp.pendingRemote) && cp.pendingStart == old(cp.pendingStart)
           else
             && r == (if reply.Raised? then Refused(ServerError) else Done(None))
             && cp.sent == old(cp.sent) + [UnlockCall(connectorId)]
             && cp.watchdogs == old(cp.watchdogs) - {connectorId}
             && cp.pendingRemote == old(cp.pendingRemote) - {connectorId}
             && cp.pendingStart == old(cp.pendingStart) - {connectorId}
    {
      if cpid !in cps {
        return Refused(NotFound);
      }
      var cp := cps[cpid];
      if connectorId in cp.activeTx {
        return Refused(BadRequest);
      }
      var u := cp.Release(connectorId, reply);
      r := if u.Raised? then Refused(ServerError) else Done(None);
    }
  }
}
