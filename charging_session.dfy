/**
 * A client-side charging session (ChargeBridge/charging_session.py): start records the meter
 * reading, connects and sends StartTransaction, keeping the transaction id the reply carries;
 * stop is refused until a transaction id is known, and otherwise sends StopTransaction and
 * closes the connection. The OCPP client's calls are recorded in `calls`, and the reply payload
 * of each call is a parameter.
 */
module ChargingSessions {
  import opened Wrappers

  const DefaultConnectorId := 1
  const DefaultIdTag := "GUEST"
  const NotStarted := "Session not started"

  /** What the session asks of its OCPP client, in order. */
  datatype ClientCall =
    | Connect
    | StartTransactionCall(connectorId: int, idTag: string, meterStart: int)
    | StopTransactionCall(transactionId: int, idTag: string, meterStop: int)
    | Close

  /** The payload of a call result, as far as the session reads it. */
  datatype Reply = Reply(transactionId: Option<int>)

  class ChargingSession {
    var connectorId: int
    var idTag: string
    var transactionId: Option<int>
    var meterStart: Option<int>
    var calls: seq<ClientCall>

    /** The dataclass constructor: connector 1 and idTag "GUEST" unless given. */
    constructor (connectorId: Option<int>, idTag: Option<string>)
      ensures this.connectorId == connectorId.GetOr(DefaultConnectorId)
      ensures this.idTag == idTag.GetOr(DefaultIdTag)
      ensures transactionId == None && meterStart == None && calls == []
    {
      this.connectorId := connectorId.GetOr(DefaultConnectorId);
      this.idTag := idTag.GetOr(DefaultIdTag);
      transactionId := None;
      meterStart := None;
      calls := [];
    }

    /**
     * start: record the meter reading, connect, send StartTransaction with the connector, idTag
     * and that reading, and keep the reply's transactionId (None when it has none).
     */
    method Start(meterStart: int, reply: Reply) returns (r: Reply)
      modifies this
      ensures r == reply
      ensures this.meterStart == Some(meterStart) && transactionId == reply.transactionId
      ensures calls == old(calls) + [Connect, StartTransactionCall(connectorId, idTag, meterStart)]
      ensures connectorId == old(connectorId) && idTag == old(idTag)
    {
      this.meterStart := Some(meterStart);
      calls := calls + [Connect];
      calls := calls + [StartTransactionCall(connectorId, idTag, this.meterStart.value)];
      transactionId := reply.transactionId;
      r := reply;
    }

    /**
     * stop: "Session not started", sending nothing, while no transaction id is known; otherwise
     * StopTransaction with the stored transaction id and idTag and the given reading, then close.
     */
    method Stop(meterStop: int, reply: Reply) returns (r: Result<Reply, string>)
      modifies this
      ensures old(transactionId).None? ==> r == Err(NotStarted) && calls == old(calls)
      ensures old(transactionId).Some? ==>
        && r == Ok(reply)
        && calls == old(calls) + [StopTransactionCall(old(transactionId).value, idTag, meterStop), Close]
      ensures connectorId == old(connectorId) && idTag == old(idTag)
      ensures transactionId == old(transactionId) && meterStart == old(meterStart)
    {
      if transactionId.None? {
        return Err(NotStarted);
      }
      calls := calls + [StopTransactionCall(transactionId.value, idTag, meterStop)];
      calls := calls + [Close];
      r := Ok(reply);
    }
  }

  /**
   * A session whose start reply carries a transaction id can then be stopped, and the stop
   * names that transaction; one whose reply carries none is refused.
   */
  method StartThenStop(s: ChargingSession, meterStart: int, startReply: Reply, meterStop: int, stopReply: Reply)
    returns (r: Result<Reply, string>)
    modifies s
    ensures startReply.transactionId.None? ==> r == Err(NotStarted)
    ensures startReply.transactionId.Some? ==>
      && r == Ok(stopReply)
      && s.calls == old(s.calls) + [Connect, StartTransactionCall(s.connectorId, s.idTag, meterStart),
                                    StopTransactionCall(startReply.transactionId.value, s.idTag, meterStop), Close]
  {
    var _ := s.Start(meterStart, startReply);
    r := s.Stop(meterStop, stopReply);
  }
}
