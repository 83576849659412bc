/**
 * The simulator's OCPP handlers (sim/ocpp_handlers.py): how the simulated charge point answers
 * the central system's RemoteStartTransaction, RemoteStopTransaction, Authorize,
 * StartTransaction and StopTransaction. The state changes go through the simulator's local start
 * and stop; `None` stands for a handler that raised (a KeyError for an unknown connector).
 */
module SimHandlers {
  import opened Wrappers
  import opened SimState
  import opened SimEvse

  datatype RemoteStatus = Accepted | Rejected

  /** The idTagInfo statuses of OCPP 1.6. */
  datatype AuthorizationStatus = AuthAccepted | Blocked | Expired | Invalid | ConcurrentTx

  datatype StartTxConf = StartTxConf(transactionId: int, status: AuthorizationStatus)

  /** `int(connector_id or 1)`: an absent or zero connector id means connector 1. */
  function RemoteStartConnector(connectorId: Option<int>): (cid: int)
    ensures connectorId.None? || connectorId.value == 0 ==> cid == 1
    ensures connectorId.Some? && connectorId.value != 0 ==> cid == connectorId.value
    ensures cid != 0
  {
    if connectorId.None? || connectorId.value == 0 then 1 else connectorId.value
  }

  /** on_authorize: every idTag is accepted. */
  function OnAuthorize(idTag: string): (r: AuthorizationStatus)
    ensures r == AuthAccepted
  {
    AuthAccepted
  }

  class EvseChargePoint {
    const sim: Simulator

    ghost predicate Valid()
      reads sim, sim.model
    {
      sim.Valid()
    }

    constructor (sim: Simulator)
      requires sim.Valid()
      ensures Valid() && this.sim == sim
    {
      this.sim := sim;
    }

    /**
     * on_remote_start: Rejected, changing nothing, when the connector is not plugged; otherwise
     * the local start with the given idTag, then Accepted.
     */
    method OnRemoteStart(idTag: string, connectorId: Option<int>, confTxId: int) returns (r: Option<RemoteStatus>)
      requires Valid()
      modifies sim, sim.model.connectors
      ensures Valid()
      ensures var cid := RemoteStartConnector(connectorId);
        && r == (if !(1 <= cid <= |sim.model.connectors|) then None
                 else if old(sim.model.connectors[cid - 1].plugged) then Some(Accepted)
                 else Some(Rejected))
        && sim.sent == (if r == Some(Accepted) then
                          old(sim.sent) + [StatusNotification(cid, "Charging"),
                                           StartTransaction(cid, idTag, old(sim.model.connectors[cid - 1].meterWh))]
                        else old(sim.sent))
        && forall i :: 0 <= i < |sim.model.connectors| ==>
             sim.model.connectors[i].View() ==
               if r == Some(Accepted) && i == cid - 1 then
                 old(sim.model.connectors[i].View()).(idTag := Some(idTag), sessionActive := true,
                                                      state := Charging, txId := Some(confTxId))
               else old(sim.model.connectors[i].View())
    {
      var cid := RemoteStartConnector(connectorId);
      var g := sim.model.Get(cid);
      if g.None? {
        return None;
      }
      if !g.value.plugged {
        return Some(Rejected);
      }
      var _ := sim.StartLocal(cid, idTag, confTxId);
      r := Some(Accepted);
    }

    /** on_remote_stop: the local stop with no meter reading, then Accepted, whatever the id. */
    method OnRemoteStop(transactionId: int) returns (r: RemoteStatus)
      requires Valid()
      modifies sim, sim.model.connectors
      ensures Valid()
      ensures r == Accepted
      ensures var k := FirstCarrying(old(Views(sim.model.connectors)), Some(transactionId));
        && sim.sent == (if k.Some? then
                          old(sim.sent) + [StopTransaction(Some(transactionId), old(sim.model.connectors[k.value].meterWh)),
                                           StatusNotification(k.value + 1, "Finishing"),
                                           StatusNotification(k.value + 1, "Available")]
                        else old(sim.sent))
        && forall i :: 0 <= i < |sim.model.connectors| ==>
             sim.model.connectors[i].View() ==
               if k == Some(i) then Stopped(old(sim.model.connectors[i].View())) else old(sim.model.connectors[i].View())
    {
      sim.StopLocalByTx(Some(transactionId), None);
      r := Accepted;
    }

    /**
     * on_start_transaction: the local start on the named connector, then transaction id 0 and
     * Accepted; the meter reading in the request is not used.
     */
    method OnStartTransaction(cid: int, idTag: string, meterStart: int, confTxId: int) returns (r: Option<StartTxConf>)
      requires Valid()
      modifies sim, sim.model.connectors
      ensures Valid()
      ensures r == if 1 <= cid <= |sim.model.connectors| then Some(StartTxConf(0, AuthAccepted)) else None
      ensures sim.sent == if r.Some? then
                            old(sim.sent) + [StatusNotification(cid, "Charging"),
                                             StartTransaction(cid, idTag, old(sim.model.connectors[cid - 1].meterWh))]
                          else old(sim.sent)
      ensures forall i :: 0 <= i < |sim.model.connectors| ==>
        sim.model.connectors[i].View() ==
          if r.Some? && i == cid - 1 then
            old(sim.model.connectors[i].View()).(idTag := Some(idTag), sessionActive := true,
                                                 state := Charging, txId := Some(confTxId))
          else old(sim.model.connectors[i].View())
    {
      var found := sim.StartLocal(cid, idTag, confTxId);
      r := if found then Some(StartTxConf(0, AuthAccepted)) else None;
    }

    /** on_stop_transaction: the local stop with the given meter reading, then Accepted. */
    method OnStopTransaction(transactionId: int, meterStop: int) returns (r: AuthorizationStatus)
      requires Valid()
      modifies sim, sim.model.connectors
      ensures Valid()
      ensures r == AuthAccepted
      ensures var k := FirstCarrying(old(Views(sim.model.connectors)), Some(transactionId));
        && sim.sent == (if k.Some? then
                          old(sim.sent) + [StopTransaction(Some(transactionId), meterStop),
                                           StatusNotification(k.value + 1, "Finishing"),
                                           StatusNotification(k.value + 1, "Available")]
                        else old(sim.sent))
        && forall i :: 0 <= i < |sim.model.connectors| ==>
             sim.model.connectors[i].View() ==
               if k == Some(i) then Stopped(old(sim.model.connectors[i].View())) else old(sim.model.connectors[i].View())
    {
      sim.StopLocalByTx(Some(transactionId), Some(meterStop));
      r := AuthAccepted;
    }
  }
}
