/**
 * The simulator's local transitions (sim/evse.py): plug, unplug, local start and stop through
 * the HTTP control API, the start and stop of a session, and the periodic meter increment. Each
 * assigns fields of the shared model's connectors in place and sends OCPP messages to the
 * central system, recorded in `sent`; the transaction id the central system confirms for a
 * StartTransaction is a parameter. Settings take the defaults of sim/config.py.
 */
module SimEvse {
  import opened Wrappers
  import opened SimState

  const MeterRateW := 7000
  const MeterPeriodSec := 10
  const LocalTag := "LOCAL_TAG"

  /** Energy added per meter period: int(rate * period / 3600), truncated (both are non-negative). */
  const AddedWh := (MeterRateW * MeterPeriodSec) / 3600

  /** OCPP messages the simulator sends to the central system. */
  datatype EvseMsg =
    | StatusNotification(connectorId: int, status: string)
    | StartTransaction(connectorId: int, idTag: string, meterStart: int)
    | StopTransaction(transactionId: Option<int>, meterStop: int)
    | MeterValues(connectorId: int, meterWh: int)

  /** What an HTTP control endpoint answers; UnknownConnector is the KeyError of model.get. */
  datatype HttpReply = Done | Refused(error: string) | UnknownConnector

  /** A connector with an active session carrying transaction id `tx`. */
  predicate Carries(v: ConnectorView, tx: Option<int>) {
    v.sessionActive && v.txId == tx
  }

  /** The index of the first connector carrying `tx`, the one stop_local_by_tx acts on. */
  function FirstCarrying(vs: seq<ConnectorView>, tx: Option<int>): (r: Option<nat>)
    ensures r.Some? ==> r.value < |vs| && Carries(vs[r.value], tx)
    ensures r.Some? ==> forall j :: 0 <= j < r.value ==> !Carries(vs[j], tx)
    ensures r.None? <==> forall j :: 0 <= j < |vs| ==> !Carries(vs[j], tx)
  {
    if vs == [] then None
    else if Carries(vs[0], tx) then Some(0)
    else match FirstCarrying(vs[1..], tx)
      case None => None
      case Some(k) => Some(k + 1)
  }

  /** A connector after one meter period. */
  function Tick(v: ConnectorView): (w: ConnectorView)
    ensures w.meterWh == v.meterWh + (if v.sessionActive then AddedWh else 0)
    ensures w.(meterWh := v.meterWh) == v
  {
    if v.sessionActive then v.(meterWh := v.meterWh + AddedWh) else v
  }

  /** What connector `k + 1`, in state `v`, sends in one meter period: its new reading, if it has a session. */
  function Report(k: nat, v: ConnectorView): seq<EvseMsg> {
    if v.sessionActive then [MeterValues(k + 1, v.meterWh + AddedWh)] else []
  }

  /** The MeterValues messages of one meter period, for connectors 1..|vs| in order. */
  function Reports(vs: seq<ConnectorView>): (ms: seq<EvseMsg>)
    ensures |ms| <= |vs|
    ensures forall m :: m in ms ==>
      && m.MeterValues? && 1 <= m.connectorId <= |vs|
      && vs[m.connectorId - 1].sessionActive && m.meterWh == Tick(vs[m.connectorId - 1]).meterWh
  {
    if vs == [] then []
    else Reports(vs[..|vs| - 1]) + Report(|vs| - 1, vs[|vs| - 1])
  }

  /** Reports of one more connector: its MeterValues, if it has a session, follow the earlier ones. */
  lemma ReportsStep(vs: seq<ConnectorView>, i: nat)
    requires i < |vs|
    ensures Reports(vs[..i + 1]) == Reports(vs[..i]) + Report(i, vs[i])
  {
    assert vs[..i + 1][..i] == vs[..i];
  }

  /** The state a matched stop leaves its connector in. */
  function Stopped(v: ConnectorView): ConnectorView {
    v.(sessionActive := false, state := Available, txId := None, idTag := None)
  }

  class Simulator {
    const model: EvseModel
    var sent: seq<EvseMsg>

    ghost predicate Valid()
      reads this, model
    {
      model.Valid()
    }

    constructor (model: EvseModel)
      requires model.Valid()
      ensures Valid() && this.model == model && sent == []
    {
      this.model := model;
      sent := [];
    }

    /** send_status: the StatusNotification reporting connector `c`'s to_status. */
    function StatusReport(c: ConnectorSim): EvseMsg
      reads c
    {
      StatusNotification(c.id, c.Status())
    }

    /** The connector index holding the session stop_local_by_tx stops, scanning in id order. */
    method FindCarrying(tx: Option<int>) returns (k: Option<nat>)
      requires Valid()
      ensures k == FirstCarrying(Views(model.connectors), tx)
    {
      var cs := model.connectors;
      var i := 0;
      while i < |cs|
        invariant 0 <= i <= |cs|
        invariant forall j :: 0 <= j < i ==> !Carries(cs[j].View(), tx)
      {
        if cs[i].sessionActive && cs[i].txId == tx {
          return Some(i);
        }
        i := i + 1;
      }
      return None;
    }

    /**
     * start_local: connector `cid` takes the idTag, an active session and state Charging, reports
     * it, sends StartTransaction with its current meter and keeps the confirmed transaction id.
     * No other connector changes; an unknown id changes nothing.
     */
    method StartLocal(cid: int, idTag: string, confTxId: int) returns (found: bool)
      requires Valid()
      modifies this, model.connectors
      ensures Valid()
      ensures found <==> 1 <= cid <= |model.connectors|
      ensures !found ==> sent == old(sent)
      ensures found ==>
        sent == old(sent) + [StatusNotification(cid, "Charging"),
                             StartTransaction(cid, idTag, old(model.connectors[cid - 1].meterWh))]
      ensures forall i :: 0 <= i < |model.connectors| ==>
        model.connectors[i].View() ==
          if found && i == cid - 1 then
            old(model.connectors[i].View()).(idTag := Some(idTag), sessionActive := true, state := Charging,
                                             txId := Some(confTxId))
          else old(model.connectors[i].View())
    {
      var g := model.Get(cid);
      if g.None? {
        return false;
      }
      var c := g.value;
      c.idTag := Some(idTag);
      c.sessionActive := true;
      c.state := Charging;
      sent := sent + [StatusReport(c)];
      sent := sent + [StartTransaction(cid, idTag, c.meterWh)];
      c.txId := Some(confTxId);
      found := true;
    }

    /**
     * stop_local_by_tx: only the first connector with an active session on `tx` is stopped. It
     * sends StopTransaction (the meter defaults to the connector's own), reports Finishing and then
     * Available, and ends without session, transaction or idTag. Without a match nothing changes
     * and nothing is sent.
     */
    method StopLocalByTx(tx: Option<int>, meterStop: Option<int>)
      requires Valid()
      modifies this, model.connectors
      ensures Valid()
      ensures var r := FirstCarrying(old(Views(model.connectors)), tx);
        && (r.None? ==> sent == old(sent))
        && (r.Some? ==> sent == old(sent) + [StopTransaction(tx, meterStop.GetOr(old(model.connectors[r.value].meterWh))),
                                             StatusNotification(r.value + 1, "Finishing"),
                                             StatusNotification(r.value + 1, "Available")])
        && forall i :: 0 <= i < |model.connectors| ==>
             model.connectors[i].View() ==
               if r == Some(i) then Stopped(old(model.connectors[i].View())) else old(model.connectors[i].View())
    {
      var found := FindCarrying(tx);
      if found.None? {
        return;
      }
      var k := found.value;
      EndSession(k, tx, meterStop.GetOr(model.connectors[k].meterWh));
    }

    /**
     * The body of stop_local_by_tx for the matched connector `k`: StopTransaction with the given
     * reading, the session ends and Finishing is reported, then the connector is Available
     * without transaction or idTag and is reported again. No other connector changes.
     */
    method EndSession(k: nat, tx: Option<int>, meterStop: int)
      requires Valid() && k < |model.connectors|
      modifies this, model.connectors
      ensures Valid()
      ensures sent == old(sent) + [StopTransaction(tx, meterStop), StatusNotification(k + 1, "Finishing"),
                                   StatusNotification(k + 1, "Available")]
      ensures forall i :: 0 <= i < |model.connectors| ==>
        model.connectors[i].View() ==
          if i == k then Stopped(old(model.connectors[i].View())) else old(model.connectors[i].View())
    {
      var c := model.connectors[k];
      assert forall i :: 0 <= i < |model.connectors| && i != k ==> model.connectors[i] != c;
      sent := sent + [StopTransaction(tx, meterStop)];
      c.sessionActive := false;
      c.state := Finishing;
      assert StatusReport(c) == StatusNotification(k + 1, "Finishing");
      sent := sent + [StatusReport(c)];
      c.state := Available;
      c.txId := None;
      c.idTag := None;
      assert StatusReport(c) == StatusNotification(k + 1, "Available");
      sent := sent + [StatusReport(c)];
    }

    /**
     * One round of send_meter_loop: every connector with an active session gains AddedWh and
     * reports its new reading; the others are left alone.
     */
    method MeterTick()
      requires Valid()
      modifies this, model.connectors
      ensures Valid()
      ensures forall i :: 0 <= i < |model.connectors| ==>
        model.connectors[i].View() == Tick(old(model.connectors[i].View()))
      ensures sent == old(sent) + Reports(old(Views(model.connectors)))
    {
      var cs := model.connectors;
      ghost var before := Views(cs);
      var i := 0;
      while i < |cs|
        invariant 0 <= i <= |cs|
        invariant forall j :: 0 <= j < |cs| ==> cs[j].View() == if j < i then Tick(before[j]) else before[j]
        invariant sent == old(sent) + Reports(before[..i])
      {
        ReportsStep(before, i);
        TickOne(i);
        i := i + 1;
      }
      assert before[..|cs|] == before;
    }

    /** One connector's turn in the meter loop: a session adds AddedWh and reports the reading. */
    method TickOne(i: nat)
      requires Valid() && i < |model.connectors|
      modifies this, model.connectors[i]
      ensures Valid()
      ensures model.connectors[i].View() == Tick(old(model.connectors[i].View()))
      ensures forall j :: 0 <= j < |model.connectors| && j != i ==>
        model.connectors[j].View() == old(model.connectors[j].View())
      ensures sent == old(sent) + Report(i, old(model.connectors[i].View()))
    {
      var c := model.connectors[i];
      if c.sessionActive {
        c.meterWh := c.meterWh + AddedWh;
        sent := sent + [MeterValues(c.id, c.meterWh)];
      }
    }

    /** plug: the connector is plugged and Preparing, and reports it; nothing else changes. */
    method Plug(cid: int) returns (r: HttpReply)
      requires Valid()
      modifies this, model.connectors
      ensures Valid()
      ensures r == (if 1 <= cid <= |model.connectors| then Done else UnknownConnector)
      ensures sent == if r.Done? then old(sent) + [StatusNotification(cid, "Preparing")] else old(sent)
      ensures forall i :: 0 <= i < |model.connectors| ==>
        model.connectors[i].View() ==
          if r.Done? && i == cid - 1 then old(model.connectors[i].View()).(plugged := true, state := Preparing)
          else old(model.connectors[i].View())
    {
      var g := model.Get(cid);
      if g.None? {
        return UnknownConnector;
      }
      var c := g.value;
      c.plugged := true;
      c.state := Preparing;
      sent := sent + [StatusReport(c)];
      r := Done;
    }

    /**
     * unplug: the connector is unplugged, Available, without session, transaction or idTag, and
     * reports it; its meter is kept and nothing else changes.
     */
    method Unplug(cid: int) returns (r: HttpReply)
      requires Valid()
      modifies this, model.connectors
      ensures Valid()
      ensures r == (if 1 <= cid <= |model.connectors| then Done else UnknownConnector)
      ensures sent == if r.Done? then old(sent) + [StatusNotification(cid, "Available")] else old(sent)
      ensures forall i :: 0 <= i < |model.connectors| ==>
        model.connectors[i].View() ==
          if r.Done? && i == cid - 1 then
            old(model.connectors[i].View()).(plugged := false, sessionActive := false, state := Available,
                                             txId := None, idTag := None)
          else old(model.connectors[i].View())
    {
      var g := model.Get(cid);
      if g.None? {
        return UnknownConnector;
      }
      var c := g.value;
      c.plugged := false;
      c.sessionActive := false;
      c.state := Available;
      c.txId := None;
      c.idTag := None;
      sent := sent + [StatusReport(c)];
      r := Done;
    }

    /**
     * local_start: refused with "not plugged", changing nothing, on an unplugged connector;
     * otherwise start_local with the idTag, LOCAL_TAG when none is given.
     */
    method LocalStart(cid: int, idTag: Option<string>, confTxId: int) returns (r: HttpReply)
      requires Valid()
      modifies this, model.connectors
      ensures Valid()
      ensures !(1 <= cid <= |model.connectors|) ==> r == UnknownConnector
      ensures 1 <= cid <= |model.connectors| ==>
        r == if old(model.connectors[cid - 1].plugged) then Done else Refused("not plugged")
      ensures var tag := idTag.GetOr(LocalTag);
        sent == if r.Done? then old(sent) + [StatusNotification(cid, "Charging"),
                                            StartTransaction(cid, tag, old(model.connectors[cid - 1].meterWh))]
                else old(sent)
      ensures forall i :: 0 <= i < |model.connectors| ==>
        model.connectors[i].View() ==
          if r.Done? && i == cid - 1 then
            old(model.connectors[i].View()).(idTag := Some(idTag.GetOr(LocalTag)), sessionActive := true,
                                             state := Charging, txId := Some(confTxId))
          else old(model.connectors[i].View())
    {
      var g := model.Get(cid);
      if g.None? {
        return UnknownConnector;
      }
      if !g.value.plugged {
        return Refused("not plugged");
      }
      var _ := StartLocal(cid, idTag.GetOr(LocalTag), confTxId);
      r := Done;
    }

    /**
     * local_stop: refused with "no active session", changing nothing, when the connector has no
     * session; otherwise stop_local_by_tx on its transaction id with its own meter reading.
     */
    method LocalStop(cid: int) returns (r: HttpReply)
      requires Valid()
      modifies this, model.connectors
      ensures Valid()
      ensures !(1 <= cid <= |model.connectors|) ==> r == UnknownConnector
      ensures 1 <= cid <= |model.connectors| ==>
        r == if old(model.connectors[cid - 1].sessionActive) then Done else Refused("no active session")
      ensures var k := if r.Done? then FirstCarrying(old(Views(model.connectors)), old(model.connectors[cid - 1].txId)) else None;
        && (r.Done? ==> k.Some? && k.value <= cid - 1)
        && sent == (if k.Some? then old(sent) + [StopTransaction(old(model.connectors[cid - 1].txId), old(model.connectors[cid - 1].meterWh)),
                                                 StatusNotification(k.value + 1, "Finishing"),
                                                 StatusNotification(k.value + 1, "Available")]
                    else old(sent))
        && forall i :: 0 <= i < |model.connectors| ==>
             model.connectors[i].View() ==
               if k == Some(i) then Stopped(old(model.connectors[i].View())) else old(model.connectors[i].View())
    {
      var g := model.Get(cid);
      if g.None? {
        return UnknownConnector;
      }
      var c := g.value;
      if !c.sessionActive {
        return Refused("no active session");
      }
      StopLocalByTx(c.txId, Some(c.meterWh));
      r := Done;
    }
  }
}
