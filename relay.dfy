/**
 * The fan-out relay: the set of subscriber connections, kept up to date by
 * connect and close events, and the periodic tick that forwards the newest
 * document to every open connection when its urgency is high enough.
 */
module Relay {
  import opened Documents
  import Recency

  /** The ready states of a WebSocket. */
  datatype ReadyState = Connecting | Open | Closing | Closed

  /** The lowest urgency the relay forwards. */
  const BroadcastUrgency: int := 4

  /**
   * A subscriber connection. `readyState` is set by the network; `sent`
   * records, in order, the documents the relay has sent on it (each one
   * serialized as JSON on the wire).
   */
  class Socket {
    var readyState: ReadyState
    var sent: seq<Doc>

    constructor (state: ReadyState)
      ensures readyState == state && sent == []
    {
      readyState := state;
      sent := [];
    }
  }

  /**
   * The outcome of one poll of the last-document endpoint: the request
   * failed, or it answered with the newest document or null.
   */
  datatype Poll = PollFailed | Fetched(latest: Option<Doc>)

  /**
   * Does a poll lead to a broadcast? Only a fetched document with urgency
   * at least 4 does; a failed request and a null body (reading its urgency
   * throws) both end in the error handler.
   */
  predicate Broadcasts(p: Poll)
    ensures p.PollFailed? ==> !Broadcasts(p)
    ensures p == Fetched(None) ==> !Broadcasts(p)
    ensures p.Fetched? && p.latest.Some? ==> (Broadcasts(p) <==> p.latest.value.urgency >= 4)
  {
    p.Fetched? && p.latest.Some? && p.latest.value.urgency >= BroadcastUrgency
  }

  /** The relay's state: the connected clients. */
  class Relay {
    var connections: set<Socket>

    constructor ()
      ensures connections == {}
    {
      connections := {};
    }

    /** A new client joins the set; a client already in it is not added twice. */
    method OnConnect(ws: Socket)
      modifies this
      ensures connections == old(connections) + {ws}
      ensures ws in old(connections) ==> connections == old(connections)
    {
      connections := connections + {ws};
    }

    /** A closing client leaves the set; every other member stays. */
    method OnClose(ws: Socket)
      modifies this
      ensures connections == old(connections) - {ws}
      ensures ws !in connections
      ensures forall c :: c in old(connections) && c != ws ==> c in connections
    {
      connections := connections - {ws};
    }

    /**
     * One timer tick after the poll `p`: when `p` broadcasts, every member
     * whose state is open is sent the document exactly once, and the others
     * are skipped but kept; otherwise nothing is sent. The set and every
     * ready state are left as they were.
     */
    method Tick(p: Poll)
      modifies connections
      ensures connections == old(connections)
      ensures forall c :: c in connections ==> c.readyState == old(c.readyState)
      ensures forall c :: c in connections ==>
                c.sent == old(c.sent) + if Broadcasts(p) && c.readyState == Open then [p.latest.value] else []
    {
      if Broadcasts(p) {
        var data := p.latest.value;
        var pending := connections;
        while pending != {}
          decreases pending
          invariant pending <= connections
          invariant forall c :: c in connections ==> c.readyState == old(c.readyState)
          invariant forall c :: c in connections && c !in pending ==>
                      c.sent == old(c.sent) + if c.readyState == Open then [data] else []
          invariant forall c :: c in pending ==> c.sent == old(c.sent)
        {
          var c :| c in pending;
          if c.readyState == Open {
            c.sent := c.sent + [data];
          }
          pending := pending - {c};
        }
      }
    }
  }

  /**
   * A GRB document of urgency 5 followed one second later by a Comet of
   * urgency 2: the poll fetches the Comet, the newer one, so the tick sends
   * nothing, and the recent list holds the GRB alone.
   */
  lemma NewerLowUrgencyMasksOlder(grb: Doc, comet: Doc)
    requires grb.event == "GRB" && grb.urgency == 5
    requires comet.event == "Comet" && comet.urgency == 2
    requires comet.timestamp == grb.timestamp + 1000
    ensures Recency.Last(Online([grb, comet])) == Some(comet)
    ensures !Broadcasts(Fetched(Recency.Last(Online([grb, comet]))))
    ensures Recency.Recent(Online([grb, comet])) == [grb]
  {
    var docs := [grb, comet];
    Recency.RecentExcludesNewest(docs, comet);
    var r := Recency.Recent(Online(docs));
    assert |r| == 1;
    assert r[0] in multiset(docs);
  }
}
