/** The shared objects of src/bridge.rs and the callbacks that update them, each
    proved to perform exactly the accesses that the step systems interleave. */
module BridgeObjects {
  import opened Types
  import opened Sync
  import opened StreamIds
  import opened Lifecycle

  /** An Arc<Notify>: identity matters, both sides must hold the same one. */
  class NotifyCell {
    var n: Notify

    constructor ()
      ensures n == Notify(false, {}, [], {})
    {
      n := Notify(false, {}, [], {});
    }

    method NotifyOne()
      modifies this
      ensures n == old(n).NotifyOne()
    {
      n := n.NotifyOne();
    }
  }

  class ConnNotify {
    var isEstablished: bool
    var establishWaker: Option<Waker>
    var closed: Watch<Option<ConnectionError>>
    var acceptBi: seq<StreamId>
    var acceptUni: seq<StreamId>
    var streamReadable: map<StreamId, NotifyCell>
    var streamWritable: map<StreamId, NotifyCell>
    var isServer: bool

    /** Every half of every stream has a Notify of its own. */
    ghost predicate Valid()
      reads this
    {
      && (forall a, b | a in streamReadable && b in streamWritable :: streamReadable[a] != streamWritable[b])
      && (forall a, b | a in streamReadable && b in streamReadable && a != b :: streamReadable[a] != streamReadable[b])
      && (forall a, b | a in streamWritable && b in streamWritable && a != b :: streamWritable[a] != streamWritable[b])
    }

    /** The part of the object that the life of the connection is about. */
    ghost function AsCell(): Cell
      reads this
    {
      Cell(isServer, isEstablished, establishWaker, closed)
    }

    constructor (isServer: bool)
      ensures Valid() && AsCell() == Cell(isServer, false, None, FRESH_CLOSE)
      ensures acceptBi == [] && acceptUni == [] && streamReadable == map[] && streamWritable == map[]
    {
      isEstablished, establishWaker, closed := false, None, FRESH_CLOSE;
      acceptBi, acceptUni := [], [];
      streamReadable, streamWritable := map[], map[];
      this.isServer := isServer;
    }

    /** An entry, once created by either side, is never replaced. */
    method GetOrCreateReadable(id: StreamId) returns (cell: NotifyCell)
      requires Valid()
      modifies this`streamReadable
      ensures Valid() && streamReadable.Keys == old(streamReadable.Keys) + {id}
      ensures cell == streamReadable[id]
      ensures forall k | k in old(streamReadable) :: streamReadable[k] == old(streamReadable[k])
      ensures id !in old(streamReadable) ==> fresh(cell) && cell.n == Notify(false, {}, [], {})
    {
      if id !in streamReadable {
        var made := new NotifyCell();
        streamReadable := streamReadable[id := made];
      }
      cell := streamReadable[id];
    }

    method GetOrCreateWritable(id: StreamId) returns (cell: NotifyCell)
      requires Valid()
      modifies this`streamWritable
      ensures Valid() && streamWritable.Keys == old(streamWritable.Keys) + {id}
      ensures cell == streamWritable[id]
      ensures forall k | k in old(streamWritable) :: streamWritable[k] == old(streamWritable[k])
      ensures id !in old(streamWritable) ==> fresh(cell) && cell.n == Notify(false, {}, [], {})
    {
      if id !in streamWritable {
        var made := new NotifyCell();
        streamWritable := streamWritable[id := made];
      }
      cell := streamWritable[id];
    }

    /** on_stream_created: the entries exist from here on; a stream of the peer
        joins the accept queue of its direction, a local one joins none. */
    method OnStreamCreated(id: StreamId)
      requires Valid()
      modifies this`streamReadable, this`streamWritable, this`acceptBi, this`acceptUni
      ensures Valid() && id in streamReadable && id in streamWritable
      ensures forall k | k in old(streamReadable) :: k in streamReadable && streamReadable[k] == old(streamReadable[k])
      ensures forall k | k in old(streamWritable) :: k in streamWritable && streamWritable[k] == old(streamWritable[k])
      ensures forall k | k in old(streamReadable) :: streamReadable[k].n == old(streamReadable[k].n)
      ensures forall k | k in old(streamWritable) :: streamWritable[k].n == old(streamWritable[k].n)
      ensures var peer := if isServer then Client else Server;
              && acceptBi == old(acceptBi) + (if TypeOf(id) == StreamType(peer, Bi) then [id] else [])
              && acceptUni == old(acceptUni) + (if TypeOf(id) == StreamType(peer, Uni) then [id] else [])
    {
      var _ := GetOrCreateReadable(id);
      var _ := GetOrCreateWritable(id);
      Announce(id);
    }

    /** A stream of the peer joins the accept queue of its direction. */
    method Announce(id: StreamId)
      modifies this`acceptBi, this`acceptUni
      ensures var peer := if isServer then Client else Server;
              && acceptBi == old(acceptBi) + (if TypeOf(id) == StreamType(peer, Bi) then [id] else [])
              && acceptUni == old(acceptUni) + (if TypeOf(id) == StreamType(peer, Uni) then [id] else [])
    {
      BitTestsAgree(isServer, id);
      var peerInitiated := if isServer then Bits(id) & 0x1 == 0 else Bits(id) & 0x1 == 1;
      if peerInitiated {
        if Bits(id) & 0x2 == 0 {
          acceptBi := acceptBi + [id];
        } else {
          acceptUni := acceptUni + [id];
        }
      }
    }

    /** on_stream_readable: wake the waiter, or leave a permit for it. Nobody else's
        Notify changes. */
    method OnStreamReadable(id: StreamId)
      requires Valid()
      modifies this`streamReadable, if id in streamReadable then {streamReadable[id]} else {}
      ensures Valid() && id in streamReadable
      ensures forall k | k in old(streamReadable) :: k in streamReadable && streamReadable[k] == old(streamReadable[k])
      ensures streamReadable[id].n ==
                (if id in old(streamReadable) then old(streamReadable[id].n) else Notify(false, {}, [], {})).NotifyOne()
      ensures forall k | k in old(streamReadable) && k != id :: streamReadable[k].n == old(streamReadable[k].n)
      ensures forall k | k in streamWritable :: streamWritable[k].n == old(streamWritable[k].n)
    {
      var cell := GetOrCreateReadable(id);
      cell.NotifyOne();
    }

    /** on_stream_writable */
    method OnStreamWritable(id: StreamId)
      requires Valid()
      modifies this`streamWritable, if id in streamWritable then {streamWritable[id]} else {}
      ensures Valid() && id in streamWritable
      ensures forall k | k in old(streamWritable) :: k in streamWritable && streamWritable[k] == old(streamWritable[k])
      ensures streamWritable[id].n ==
                (if id in old(streamWritable) then old(streamWritable[id].n) else Notify(false, {}, [], {})).NotifyOne()
      ensures forall k | k in old(streamWritable) && k != id :: streamWritable[k].n == old(streamWritable[k].n)
      ensures forall k | k in streamReadable :: streamReadable[k].n == old(streamReadable[k].n)
    {
      var cell := GetOrCreateWritable(id);
      cell.NotifyOne();
    }

    /** on_stream_closed: wake whoever waits on either half, if anyone could. */
    method OnStreamClosed(id: StreamId)
      requires Valid()
      modifies if id in streamReadable then {streamReadable[id]} else {}
      modifies if id in streamWritable then {streamWritable[id]} else {}
      ensures Valid()
      ensures id in streamReadable ==> streamReadable[id].n == old(streamReadable[id].n).NotifyOne()
      ensures id in streamWritable ==> streamWritable[id].n == old(streamWritable[id].n).NotifyOne()
      ensures forall k | k in streamReadable && k != id :: streamReadable[k].n == old(streamReadable[k].n)
      ensures forall k | k in streamWritable && k != id :: streamWritable[k].n == old(streamWritable[k].n)
    {
      if id in streamReadable {
        streamReadable[id].NotifyOne();
      }
      if id in streamWritable {
        streamWritable[id].NotifyOne();
      }
    }
  }

  function Rank(b: BridgePc): nat {
    match b
    case Quiet => 0
    case CreateDue(_) => 3
    case Inserted(_) => 2
    case Counted(_) => 1
    case EstablishedStored(_) => 1
    case CloseDue(_, _) => 5
    case ClosePublished(_) => 4
    case CloseWoken(_) => 3
    case Uncounted(_) => 2
    case MustNotify(_) => 1
  }

  /** A callback run to its end with nobody else in between. */
  ghost function RunCallback(s: State): State
    decreases Rank(s.bridge)
  {
    if s.bridge == Quiet then s else RunCallback(AdvanceBridge(s))
  }

  // What each callback leaves behind in the shared objects.

  function AfterCreate(s: State, c: ConnId): State {
    s.(conns := s.conns[c := Cell(s.isServer, false, None, FRESH_CLOSE)],
       openConnections := WrapAdd(s.openConnections),
       incoming := if s.isServer then s.incoming + [c] else s.incoming)
  }

  function AfterEstablish(s: State, c: ConnId): State {
    if c !in s.conns then s else
    s.(conns := s.conns[c := s.conns[c].(established := true, waker := None)])
  }

  function AfterClose(s: State, c: ConnId, err: ConnectionError): State {
    var n := WrapSub(s.openConnections);
    s.(conns := if c !in s.conns then s.conns
                else s.conns[c := s.conns[c].(closed := s.conns[c].closed.Send(Some(err)), waker := None)],
       openConnections := n,
       idle := if n == 0 then s.idle.NotifyWaiters() else s.idle)
  }

  /** Two states that no task can tell apart by the shared objects. */
  ghost predicate SameShared(s: State, t: State) {
    && s.conns == t.conns && s.openConnections == t.openConnections && s.endpointClosed == t.endpointClosed
    && s.idle == t.idle && s.incoming == t.incoming && s.isServer == t.isServer
  }

  class BridgeHandle {
    const isServer: bool
    var connStates: map<ConnId, ConnNotify>
    var openConnections: U64
    var endpointClosed: bool
    var idleNotify: Notify
    var incoming: seq<ConnId>

    ghost predicate Valid()
      reads this
    {
      forall c, d | c in connStates && d in connStates && c != d :: connStates[c] != connStates[d]
    }

    /** The shared part of a state of the step system. */
    ghost predicate Shows(s: State)
      reads this, connStates.Values
    {
      && s.isServer == isServer && s.openConnections == openConnections && s.endpointClosed == endpointClosed
      && s.idle == idleNotify && s.incoming == incoming
      && s.conns.Keys == connStates.Keys
      && forall c | c in connStates :: s.conns[c] == connStates[c].AsCell()
    }

    constructor (isServer: bool)
      ensures Valid() && connStates == map[] && openConnections == 0 && !endpointClosed
      ensures idleNotify == Notify(false, {}, [], {}) && incoming == [] && this.isServer == isServer
    {
      this.isServer := isServer;
      connStates, openConnections, endpointClosed := map[], 0, false;
      idleNotify, incoming := Notify(false, {}, [], {}), [];
    }

    /** on_conn_created */
    method OnConnCreated(c: ConnId, ghost s: State)
      requires Valid() && Shows(s)
      modifies this
      ensures Valid() && Shows(AfterCreate(s, c))
      ensures connStates.Keys == old(connStates.Keys) + {c}
      ensures forall d | d in old(connStates) && d != c :: connStates[d] == old(connStates[d])
    {
      var notify := new ConnNotify(isServer);
      connStates := connStates[c := notify];
      openConnections := WrapAdd(openConnections);
      if isServer {
        incoming := incoming + [c];
      }
    }

    /** on_conn_established; `woken` is the waker it wakes. */
    method OnConnEstablished(c: ConnId, ghost s: State) returns (woken: Option<Waker>)
      requires Valid() && Shows(s)
      modifies if c in connStates then {connStates[c]} else {}
      ensures Valid() && Shows(AfterEstablish(s, c))
      ensures woken == if c in connStates then old(connStates[c].establishWaker) else None
    {
      woken := None;
      if c in connStates {
        var notify := connStates[c];
        notify.isEstablished := true;
        woken := notify.establishWaker;
        notify.establishWaker := None;
      }
    }

    /** The end of on_conn_closed: the connection leaves the count, and the last
        one to leave notifies whoever waits right now. */
    method Uncount()
      modifies this`openConnections, this`idleNotify
      ensures openConnections == WrapSub(old(openConnections))
      ensures idleNotify == if openConnections == 0 then old(idleNotify).NotifyWaiters() else old(idleNotify)
    {
      openConnections := WrapSub(openConnections);
      if openConnections == 0 {
        idleNotify := idleNotify.NotifyWaiters();
      }
    }

    /** on_conn_closed; `woken` is the waker it wakes. */
    method OnConnClosed(c: ConnId, err: ConnectionError, ghost s: State) returns (woken: Option<Waker>)
      requires Valid() && Shows(s)
      modifies this`openConnections, this`idleNotify, if c in connStates then {connStates[c]} else {}
      ensures Valid() && Shows(AfterClose(s, c, err))
      ensures woken == if c in connStates then old(connStates[c].establishWaker) else None
    {
      woken := None;
      if c in connStates {
        var notify := connStates[c];
        notify.closed := notify.closed.Send(Some(err));
        woken := notify.establishWaker;
        notify.establishWaker := None;
      }
      Uncount();
    }

    /** The CloseEndpoint arm: `live` is what conn_get_mut finds; the calls made
        are returned in the order of the iteration. */
    method CloseEndpoint(code: U64, reason: seq<Byte>, live: set<ConnId>, ghost s: State)
      returns (calls: seq<CloseCall>)
      requires Valid() && Shows(s) && s.bridge == Quiet && s.live == live
      modifies this`endpointClosed
      ensures Valid() && Shows(BridgeNext(s, Lifecycle.CloseEndpoint(code, reason)))
      ensures BridgeNext(s, Lifecycle.CloseEndpoint(code, reason)).closing == s.closing + set call | call in calls
      ensures forall i, j | 0 <= i < j < |calls| :: calls[i].c != calls[j].c
    {
      endpointClosed := true;
      calls := [];
      var rest := connStates.Keys;
      while rest != {}
        invariant rest <= connStates.Keys
        invariant forall call :: call in calls <==>
                    call.c in connStates && call.c !in rest && call.c in live && call == CloseCall(call.c, code, reason)
        invariant forall i, j | 0 <= i < j < |calls| :: calls[i].c != calls[j].c
        decreases rest
      {
        var c :| c in rest;
        if c in live {
          calls := calls + [CloseCall(c, code, reason)];
        }
        rest := rest - {c};
      }
    }
  }

  // The accesses of each callback, one after the other.

  lemma Unroll(s: State)
    requires s.bridge != Quiet
    ensures RunCallback(s) == RunCallback(AdvanceBridge(s))
  {
  }

  /** on_conn_created is its three accesses in a row. */
  lemma CreateRunsThrough(s: State, c: ConnId)
    requires s.bridge == CreateDue(c)
    ensures SameShared(RunCallback(s), AfterCreate(s, c)) && RunCallback(s).bridge == Quiet
  {
    var s1 := AdvanceBridge(s);
    var s2 := AdvanceBridge(s1);
    Unroll(s);
    Unroll(s1);
    Unroll(s2);
  }

  /** on_conn_established is its two accesses in a row. */
  lemma EstablishRunsThrough(s: State, c: ConnId)
    requires s.bridge == Quiet && c in s.conns
    ensures var t := RunCallback(BridgeNext(s, EngineEstablishes(c)));
            SameShared(t, AfterEstablish(s, c)) && t.bridge == Quiet
  {
    Unroll(BridgeNext(s, EngineEstablishes(c)));
  }

  lemma Publishes(s: State, c: ConnId, err: ConnectionError)
    requires s.bridge == CloseDue(c, err) && c in s.conns
    ensures var cell := s.conns[c];
            AdvanceBridge(s) ==
              s.(conns := s.conns[c := cell.(closed := cell.closed.Send(Some(err)))], bridge := ClosePublished(c))
  {
  }

  lemma Wakes(s: State, c: ConnId)
    requires s.bridge == ClosePublished(c) && c in s.conns
    ensures var t := AdvanceBridge(s);
            && t.conns == s.conns[c := s.conns[c].(waker := None)]
            && t == s.(conns := t.conns, futures := t.futures, bridge := CloseWoken(c))
  {
  }

  lemma UncountAndNotify(s: State)
    requires s.bridge.CloseWoken?
    ensures var t := RunCallback(s);
            && t.conns == s.conns && t.openConnections == WrapSub(s.openConnections) && t.bridge == Quiet
            && t.idle == (if t.openConnections == 0 then s.idle.NotifyWaiters() else s.idle)
            && t.isServer == s.isServer && t.endpointClosed == s.endpointClosed && t.incoming == s.incoming
  {
    var s1 := AdvanceBridge(s);
    var s2 := AdvanceBridge(s1);
    Unroll(s);
    Unroll(s1);
    if s2.bridge != Quiet {
      Unroll(s2);
    }
  }

  /** on_conn_closed is its five accesses in a row. */
  lemma CloseRunsThrough(s: State, c: ConnId, err: ConnectionError)
    requires s.bridge == CloseDue(c, err) && c in s.conns
    ensures SameShared(RunCallback(s), AfterClose(s, c, err)) && RunCallback(s).bridge == Quiet
  {
    var s1 := AdvanceBridge(s);
    Unroll(s);
    Publishes(s, c, err);
    Unroll(s1);
    Wakes(s1, c);
    UncountAndNotify(AdvanceBridge(s1));
  }
}
