/** Stream identifiers: the bit tests of the bridge against the classification
    of section 2.1 of RFC 9000. */
module StreamIds {
  import opened Types

  type StreamId = U64

  /** The id as the machine word that the bit tests look at. */
  function Bits(id: StreamId): bv64 {
    id as bv64
  }

  datatype Side = Client | Server
  datatype Dir = Bi | Uni

  // ---- as the callback computes it ----

  predicate PeerInitiated(isServer: bool, id: StreamId) {
    if isServer then Bits(id) & 0x1 == 0 else Bits(id) & 0x1 == 1
  }

  predicate IsBidi(id: StreamId) {
    Bits(id) & 0x2 == 0
  }

  // ---- table 1 of section 2.1: the two least significant bits ----

  datatype StreamType = StreamType(initiator: Side, dir: Dir)

  function TypeOf(id: StreamId): StreamType {
    var low := Bits(id) & 0x3;
    if low == 0x0 then StreamType(Client, Bi)
    else if low == 0x1 then StreamType(Server, Bi)
    else if low == 0x2 then StreamType(Client, Uni)
    else StreamType(Server, Uni)
  }

  function SideOf(isServer: bool): Side {
    if isServer then Server else Client
  }

  /** Both peers send on a bidirectional stream, only its initiator on a
      unidirectional one. */
  predicate MaySend(side: Side, id: StreamId) {
    TypeOf(id).dir == Bi || TypeOf(id).initiator == side
  }

  predicate MayReceive(side: Side, id: StreamId) {
    TypeOf(id).dir == Bi || TypeOf(id).initiator != side
  }

  lemma BitTestsAgree(isServer: bool, id: StreamId)
    ensures PeerInitiated(isServer, id) <==> TypeOf(id).initiator != SideOf(isServer)
    ensures IsBidi(id) <==> TypeOf(id).dir == Bi
  {
    LowBits(Bits(id));
  }

  /** The table by its smallest entries. */
  lemma FirstOfEachType()
    ensures TypeOf(0) == StreamType(Client, Bi) && TypeOf(1) == StreamType(Server, Bi)
    ensures TypeOf(2) == StreamType(Client, Uni) && TypeOf(3) == StreamType(Server, Uni)
  {
  }

  lemma LowBits(b: bv64)
    ensures (b & 0x1 == 0 || b & 0x1 == 1)
    ensures b & 0x1 == 0 <==> b & 0x3 == 0x0 || b & 0x3 == 0x2
    ensures b & 0x2 == 0 <==> b & 0x3 == 0x0 || b & 0x3 == 0x1
  {
  }
}
