/** The state of the single-server queueing system (systemstate.py): a busy flag, a
    bounded FIFO buffer of waiting packets and the packet at the server.

    The buffer (a FiniteQueue of capacity S) is a sequence whose head is the next packet to
    serve. A packet is a value with an identity and two flags; identities are handed out
    in creation order, which stands for the object identity of a freshly built Packet. */
module SystemStates {

  datatype Option<T> = None | Some(value: T)

  datatype Packet = Packet(id: nat, started: bool, completed: bool)

  /** The packets of the buffer carry pairwise different identities. */
  predicate DistinctIds(ps: seq<Packet>)
  {
    forall i, j :: 0 <= i < j < |ps| ==> ps[i].id != ps[j].id
  }

  predicate HasId(ps: seq<Packet>, id: nat)
  {
    exists i :: 0 <= i < |ps| && ps[i].id == id
  }

  lemma DistinctIdsTail(ps: seq<Packet>)
    requires DistinctIds(ps) && |ps| > 0
    ensures DistinctIds(ps[1..]) && !HasId(ps[1..], ps[0].id)
  {
    forall i | 0 <= i < |ps| - 1
      ensures ps[1..][i].id != ps[0].id
    {
      assert ps[1..][i] == ps[i + 1];
    }
  }

  class SystemState {
    var serverBusy: bool
    var buffer: seq<Packet>
    var servedPacket: Option<Packet>
    /** The buffer capacity S of the simulation parameters. */
    const capacity: nat
    /** The identity the next created packet receives. */
    var nextId: nat
    /** The packets handed to the counter collection by completed services, oldest first. */
    ghost var reported: seq<Packet>

    /** The buffer never exceeds its capacity and holds only fresh, distinct, unstarted
        packets; the served packet is not in the buffer; the server is busy exactly while
        its packet is started and not yet completed. */
    ghost predicate Valid()
      reads this
    {
      && servedPacket.Some?
      && |buffer| <= capacity
      && DistinctIds(buffer)
      && (forall i :: 0 <= i < |buffer| ==>
            !buffer[i].started && !buffer[i].completed && buffer[i].id < nextId)
      && servedPacket.value.id < nextId
      && !HasId(buffer, servedPacket.value.id)
      && (serverBusy <==> servedPacket.value.started && !servedPacket.value.completed)
    }

    /** An idle server holding a placeholder packet that was never served, and an empty buffer. */
    constructor (capacity: nat)
      ensures Valid()
      ensures this.capacity == capacity
      ensures !serverBusy && buffer == [] && reported == []
      ensures servedPacket == Some(Packet(0, false, false)) && nextId == 1
    {
      serverBusy := false;
      buffer := [];
      servedPacket := Some(Packet(0, false, false));
      nextId := 1;
      this.capacity := capacity;
      reported := [];
    }

    /** Builds a packet with the next identity. */
    method NewPacket() returns (p: Packet)
      modifies this
      ensures p == Packet(old(nextId), false, false) && nextId == old(nextId) + 1
      ensures serverBusy == old(serverBusy) && buffer == old(buffer)
      ensures servedPacket == old(servedPacket) && reported == old(reported)
    {
      p := Packet(nextId, false, false);
      nextId := nextId + 1;
    }

    /** Creates a packet; an idle server takes it into service at once and reports success,
        a busy server leaves everything but the used identity as it was. */
    method AddPacketToServer() returns (ok: bool)
      requires Valid()
      modifies this
      ensures Valid()
      ensures ok == !old(serverBusy)
      ensures ok ==> serverBusy && servedPacket == Some(Packet(old(nextId), true, false))
      ensures !ok ==> serverBusy == old(serverBusy) && servedPacket == old(servedPacket)
      ensures buffer == old(buffer) && reported == old(reported) && nextId == old(nextId) + 1
    {
      var p := NewPacket();
      if !serverBusy {
        servedPacket := Some(p.(started := true));
        serverBusy := true;
        ok := true;
      } else {
        ok := false;
      }
    }

    /** Creates a packet and offers it to the buffer, which takes it at its tail exactly when
        it is below capacity. The server is not touched. */
    method AddPacketToQueue() returns (ok: bool)
      requires Valid()
      modifies this
      ensures Valid()
      ensures ok == (|old(buffer)| < capacity)
      ensures buffer == if ok then old(buffer) + [Packet(old(nextId), false, false)] else old(buffer)
      ensures serverBusy == old(serverBusy) && servedPacket == old(servedPacket)
      ensures reported == old(reported) && nextId == old(nextId) + 1
    {
      var p := NewPacket();
      ok := Add(p);
    }

    /** FiniteQueue.add: accept at the tail iff below capacity. */
    method Add(p: Packet) returns (ok: bool)
      modifies this
      ensures ok == (|old(buffer)| < capacity)
      ensures buffer == if ok then old(buffer) + [p] else old(buffer)
      ensures serverBusy == old(serverBusy) && servedPacket == old(servedPacket)
      ensures reported == old(reported) && nextId == old(nextId)
    {
      if |buffer| < capacity {
        buffer := buffer + [p];
        ok := true;
      } else {
        ok := false;
      }
    }

    /** FiniteQueue.remove: the head of the buffer, or nothing when it is empty. */
    method Remove() returns (p: Option<Packet>)
      modifies this
      ensures old(buffer) == [] ==> p == None && buffer == []
      ensures old(buffer) != [] ==> p == Some(old(buffer)[0]) && buffer == old(buffer)[1..]
      ensures serverBusy == old(serverBusy) && servedPacket == old(servedPacket)
      ensures reported == old(reported) && nextId == old(nextId)
    {
      if |buffer| == 0 {
        p := None;
      } else {
        p := Some(buffer[0]);
        buffer := buffer[1..];
      }
    }

    /** Ends the current service: the served packet is completed (only if it was not
        already), the server goes idle, and the packet is reported exactly once. */
    method CompleteService()
      requires Valid()
      modifies this
      ensures Valid()
      ensures !serverBusy
      ensures servedPacket == Some(old(servedPacket).value.(completed := true))
      ensures reported == old(reported) + [servedPacket.value]
      ensures buffer == old(buffer) && nextId == old(nextId)
    {
      if !servedPacket.value.completed {
        servedPacket := Some(servedPacket.value.(completed := true));
      }
      serverBusy := false;
      reported := reported + [servedPacket.value];
    }

    /** Serves the head of a non-empty buffer: it leaves the buffer, becomes the served
        packet, is started, and the server is busy. On an empty buffer nothing changes. */
    method StartService() returns (ok: bool)
      requires Valid()
      modifies this
      ensures Valid()
      ensures ok == (|old(buffer)| > 0)
      ensures ok ==> buffer == old(buffer)[1..] && serverBusy
                     && servedPacket == Some(old(buffer)[0].(started := true))
      ensures !ok ==> buffer == old(buffer) && serverBusy == old(serverBusy)
                      && servedPacket == old(servedPacket)
      ensures reported == old(reported) && nextId == old(nextId)
    {
      if GetQueueLength() > 0 {
        DistinctIdsTail(buffer);
        servedPacket := Remove();
        if servedPacket.Some? {
          serverBusy := true;
          servedPacket := Some(servedPacket.value.(started := true));
        }
        ok := true;
      } else {
        ok := false;
      }
    }

    /** The fill status of the buffer, which a valid state keeps within the capacity. */
    function GetQueueLength(): (n: nat)
      reads this
      ensures n == |buffer|
      ensures Valid() ==> n <= capacity
    {
      |buffer|
    }
  }

  /** A second admission to the server straight after a first one is always refused: either
      the first one made the server busy, or it was busy already. After a first success the
      admitted packet stays in service. */
  method TwoAdmissions(s: SystemState) returns (first: bool, second: bool)
    requires s.Valid()
    modifies s
    ensures s.Valid()
    ensures !second
    ensures first ==> s.servedPacket == Some(Packet(old(s.nextId), true, false))
  {
    first := s.AddPacketToServer();
    second := s.AddPacketToServer();
  }

  /** A packet that waits in a full buffer is never lost: a refused offer leaves the buffer
      as it was, and the next service takes the oldest waiting packet. */
  method RefusedThenServed(s: SystemState) returns (accepted: bool, served: bool)
    requires s.Valid() && |s.buffer| == s.capacity && s.capacity > 0
    modifies s
    ensures s.Valid()
    ensures !accepted && served
    ensures s.servedPacket == Some(old(s.buffer)[0].(started := true))
    ensures s.buffer == old(s.buffer)[1..]
  {
    accepted := s.AddPacketToQueue();
    served := s.StartService();
  }
}
