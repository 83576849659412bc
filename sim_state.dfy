/**
 * The simulator's connector records (sim/state_machine.py): a ConnectorSim per connector,
 * whose fields every simulator operation assigns in place, and the EVSEModel holding the
 * connectors, numbered 1..n, and the transaction-id-to-connector index tx_map.
 */
module SimState {
  import opened Wrappers

  datatype EvseState =
    | Available | Preparing | Charging | Finishing
    | Faulted | SuspendedEV | SuspendedEVSE | Occupied

  function StateName(s: EvseState): string {
    match s
    case Available => "Available"
    case Preparing => "Preparing"
    case Charging => "Charging"
    case Finishing => "Finishing"
    case Faulted => "Faulted"
    case SuspendedEV => "SuspendedEV"
    case SuspendedEVSE => "SuspendedEVSE"
    case Occupied => "Occupied"
  }

  /** The states to_status reports as themselves. */
  predicate Reportable(s: EvseState) {
    s == Available || s == Preparing || s == Charging || s == Finishing
  }

  /** to_status: the OCPP status reported for an internal state. */
  function ToStatus(s: EvseState): string {
    match s
    case Available => "Available"
    case Preparing => "Preparing"
    case Charging => "Charging"
    case Finishing => "Finishing"
    case _ => "Available"
  }

  /**
   * Only the four reportable states are reported under their own name; every other state
   * (Faulted, SuspendedEV, SuspendedEVSE, Occupied) is reported as "Available".
   */
  lemma ToStatusReports(s: EvseState)
    ensures ToStatus(s) == StateName(s) <==> Reportable(s)
    ensures !Reportable(s) ==> ToStatus(s) == "Available"
    ensures ToStatus(s) in ["Available", "Preparing", "Charging", "Finishing"]
  {
  }

  /** A snapshot of one connector's mutable fields. */
  datatype ConnectorView = ConnectorView(
    state: EvseState, plugged: bool, sessionActive: bool,
    idTag: Option<string>, meterWh: int, txId: Option<int>)

  /** A connector as ConnectorSim.__init__ leaves it. */
  function Initial(meterStartWh: int): ConnectorView {
    ConnectorView(Available, false, false, None, meterStartWh, None)
  }

  /** Snapshots of a sequence of connectors, in order. */
  function Views(cs: seq<ConnectorSim>): (vs: seq<ConnectorView>)
    reads cs
    ensures |vs| == |cs| && forall i :: 0 <= i < |cs| ==> vs[i] == cs[i].View()
  {
    seq(|cs|, i requires 0 <= i < |cs| reads cs => cs[i].View())
  }

  class ConnectorSim {
    const id: int
    var state: EvseState
    var plugged: bool
    var sessionActive: bool
    var idTag: Option<string>
    var meterWh: int
    var txId: Option<int>

    constructor (id: int, meterStartWh: int)
      ensures this.id == id && View() == Initial(meterStartWh)
    {
      this.id := id;
      state := Available;
      plugged := false;
      sessionActive := false;
      idTag := None;
      meterWh := meterStartWh;
      txId := None;
    }

    function View(): ConnectorView
      reads this
    {
      ConnectorView(state, plugged, sessionActive, idTag, meterWh, txId)
    }

    function Status(): string
      reads this
    {
      ToStatus(state)
    }
  }

  class EvseModel {
    /** connectors[i] is the connector with id i + 1 (the dict is built from range(1, n + 1)). */
    const connectors: seq<ConnectorSim>
    var txMap: map<int, int>

    /** Connector ids are 1..n in order, and tx_map points only at existing connectors. */
    ghost predicate Valid()
      reads this
    {
      && (forall i :: 0 <= i < |connectors| ==> connectors[i].id == i + 1)
      && (forall tx :: tx in txMap ==> 1 <= txMap[tx] <= |connectors|)
    }

    /** EVSEModel(connectors=n, meter_start_wh): n fresh connectors in their initial state. */
    constructor (n: int, meterStartWh: int)
      ensures Valid() && txMap == map[]
      ensures |connectors| == if n > 0 then n else 0
      ensures forall i :: 0 <= i < |connectors| ==> fresh(connectors[i])
      ensures forall i :: 0 <= i < |connectors| ==> connectors[i].View() == Initial(meterStartWh)
    {
      var count := if n > 0 then n else 0;
      var cs: seq<ConnectorSim> := [];
      while |cs| < count
        invariant |cs| <= count
        invariant forall i :: 0 <= i < |cs| ==> cs[i].id == i + 1 && fresh(cs[i])
        invariant forall i :: 0 <= i < |cs| ==> cs[i].View() == Initial(meterStartWh)
      {
        var c := new ConnectorSim(|cs| + 1, meterStartWh);
        cs := cs + [c];
      }
      connectors := cs;
      txMap := map[];
    }

    /** get: the connector with id `cid`; any other id is a KeyError. */
    function Get(cid: int): (r: Option<ConnectorSim>)
      requires Valid()
      reads this
      ensures r.Some? <==> 1 <= cid <= |connectors|
      ensures r.Some? ==> r.value == connectors[cid - 1] && r.value.id == cid
    {
      if 1 <= cid <= |connectors| then Some(connectors[cid - 1]) else None
    }

    /** get_by_tx: the connector tx_map names for `tx`, None when it names none. */
    function GetByTx(tx: int): (r: Option<ConnectorSim>)
      requires Valid()
      reads this
      ensures r.Some? <==> tx in txMap
      ensures r.Some? ==> r.value.id == txMap[tx] && r.value in connectors
    {
      if tx in txMap then Some(connectors[txMap[tx] - 1]) else None
    }

    /**
     * assign_tx: connector `cid` gets the transaction and an active session, and tx_map points
     * `tx` at it; no other connector changes. An unknown id is a KeyError that changes nothing.
     */
    method AssignTx(cid: int, tx: int) returns (ok: bool)
      requires Valid()
      modifies this, connectors
      ensures Valid()
      ensures ok <==> 1 <= cid <= |connectors|
      ensures !ok ==> txMap == old(txMap)
      ensures ok ==> txMap == old(txMap)[tx := cid] && GetByTx(tx) == Some(connectors[cid - 1])
      ensures forall i :: 0 <= i < |connectors| ==>
        connectors[i].View() ==
          if ok && i == cid - 1 then old(connectors[i].View()).(txId := Some(tx), sessionActive := true)
          else old(connectors[i].View())
    {
      if !(1 <= cid <= |connectors|) {
        return false;
      }
      var c := connectors[cid - 1];
      c.txId := Some(tx);
      c.sessionActive := true;
      txMap := txMap[tx := cid];
      ok := true;
    }

    /**
     * clear_tx: for a mapped transaction, drop the mapping, end that connector's session and
     * clear its transaction id, leaving state, plug, idTag and meter alone, and return it. An
     * unmapped transaction gives None and changes nothing.
     */
    method ClearTx(tx: int) returns (r: Option<ConnectorSim>)
      requires Valid()
      modifies this, connectors
      ensures Valid()
      ensures r.Some? <==> tx in old(txMap)
      ensures tx !in old(txMap) ==> txMap == old(txMap)
      ensures tx in old(txMap) ==> txMap == old(txMap) - {tx} && r == Some(connectors[old(txMap)[tx] - 1])
      ensures forall i :: 0 <= i < |connectors| ==>
        connectors[i].View() ==
          if tx in old(txMap) && i == old(txMap)[tx] - 1 then old(connectors[i].View()).(txId := None, sessionActive := false)
          else old(connectors[i].View())
    {
      if tx !in txMap {
        return None;
      }
      var cid := txMap[tx];
      txMap := txMap - {tx};
      var c := connectors[cid - 1];
      c.txId := None;
      c.sessionActive := false;
      r := Some(c);
    }
  }

  /** Assigning and then clearing a transaction unmaps it and leaves the connector without one. */
  method AssignThenClear(m: EvseModel, cid: int, tx: int)
    requires m.Valid() && 1 <= cid <= |m.connectors|
    modifies m, m.connectors
    ensures m.Valid() && tx !in m.txMap && m.GetByTx(tx) == None
    ensures m.connectors[cid - 1].txId == None && !m.connectors[cid - 1].sessionActive
  {
    var ok := m.AssignTx(cid, tx);
    var c := m.ClearTx(tx);
  }
}
