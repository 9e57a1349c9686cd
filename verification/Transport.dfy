/** The in-process transport: one bounded queue per validator, shared by all transports of a set. */
module TransportModel {
  import opened Base
  import opened NodeModel

  const CAPACITY := 64

  /** The channels of a transport set. */
  class Inboxes {
    var queues: map<string, seq<Message>>

    constructor (ids: seq<string>)
      ensures queues == map id | id in ids :: []
    {
      queues := map id | id in ids :: [];
    }
  }

  datatype SendError = TransportClosed | PeerBlocked | UnknownPeer | ContextDone

  /** The queues after a broadcast that reached the validators in `reached`. */
  function AfterBroadcast(queues: map<string, seq<Message>>, localID: string, reached: set<string>, m: Message)
    : map<string, seq<Message>>
  {
    map id | id in queues :: if id != localID && id in reached then queues[id] + [m] else queues[id]
  }

  class LocalTransport {
    const localID: string
    const peers: Inboxes
    var blocked: set<string>
    var closed: bool

    constructor (localID: string, peers: Inboxes)
      ensures this.localID == localID && this.peers == peers && blocked == {} && !closed
    {
      this.localID, this.peers, blocked, closed := localID, peers, {}, false;
    }

    method BlockValidator(id: string)
      modifies this
      ensures blocked == old(blocked) + {id} && closed == old(closed)
    {
      blocked := blocked + {id};
    }

    method UnblockValidator(id: string)
      modifies this
      ensures blocked == old(blocked) - {id} && closed == old(closed)
    {
      blocked := blocked - {id};
    }

    method Close()
      modifies this
      ensures closed && blocked == old(blocked)
    {
      closed := true;
    }

    /** A send to a full queue waits until the context is done; here the queue is either full or not. */
    predicate Reaches(id: string, queues: map<string, seq<Message>>)
      reads this
    {
      !closed && id !in blocked && id in queues && |queues[id]| < CAPACITY
    }

    /** Everyone a send would reach. */
    function Reachable(queues: map<string, seq<Message>>): set<string>
      reads this
    {
      set id | id in queues && Reaches(id, queues)
    }

    method Send(id: string, m: Message) returns (err: Option<SendError>)
      modifies peers
      ensures err.None? <==> old(Reaches(id, peers.queues))
      ensures peers.queues == if err.None? then old(peers.queues)[id := old(peers.queues)[id] + [m]]
              else old(peers.queues)
    {
      if closed { return Some(TransportClosed); }
      if id in blocked { return Some(PeerBlocked); }
      if id !in peers.queues { return Some(UnknownPeer); }
      if |peers.queues[id]| >= CAPACITY { return Some(ContextDone); }
      peers.queues := peers.queues[id := peers.queues[id] + [m]];
      err := None;
    }

    /**
     Whatever the order of iteration: every other validator that can be reached gets the message exactly
     once, at the end of its queue, and no other queue changes; an error is reported exactly when someone
     could not be reached.
     */
    method Broadcast(m: Message) returns (err: Option<SendError>)
      modifies peers
      ensures peers.queues == AfterBroadcast(old(peers.queues), localID, Reachable(old(peers.queues)), m)
      ensures err.None? <==> forall id <- peers.queues :: id != localID ==> Reaches(id, old(peers.queues))
    {
      err := None;
      ghost var before := peers.queues;
      var rest := peers.queues.Keys - {localID};
      while rest != {}
        invariant rest <= before.Keys - {localID} && peers.queues.Keys == before.Keys
        invariant forall id <- before :: peers.queues[id] ==
                    if id != localID && id !in rest && Reaches(id, before) then before[id] + [m] else before[id]
        invariant err.None? <==> forall id <- before :: id != localID && id !in rest ==> Reaches(id, before)
      {
        var id :| id in rest;
        var e := Send(id, m);
        if e.Some? && err.None? { err := e; }
        rest := rest - {id};
      }
    }

    /** The oldest message of one's own queue, if there is one. */
    method Receive() returns (m: Option<Message>)
      requires localID in peers.queues
      modifies peers
      ensures peers.queues.Keys == old(peers.queues).Keys
      ensures m.Some? <==> old(peers.queues)[localID] != []
      ensures m.Some? ==> [m.value] + peers.queues[localID] == old(peers.queues)[localID]
      ensures peers.queues == old(peers.queues)[localID := peers.queues[localID]]
      ensures m.None? ==> peers.queues == old(peers.queues)
    {
      var q := peers.queues[localID];
      if |q| == 0 { return None; }
      peers.queues := peers.queues[localID := q[1..]];
      m := Some(q[0]);
    }
  }
}
