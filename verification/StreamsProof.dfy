/** The invariant of the streams of one connection, step by step. */
module StreamsProof {
  import opened Types
  import opened Sync
  import opened StreamIds
  import opened Streams

  // ------------------------------------------------------------------ the lock

  predicate Outside(pc: AcceptPc) {
    !pc.Queued? && !HasLock(pc)
  }

  ghost function Moved(callers: seq<Caller>, i: Task, pc: AcceptPc): seq<Caller>
    requires i < |callers|
  {
    callers[i := callers[i].(pc := pc)]
  }

  lemma OtherDirection(ch: Channel, d: Dir, callers: seq<Caller>, i: Task, pc: AcceptPc)
    requires LockInv(ch, d, callers) && i < |callers| && callers[i].dir != d
    ensures LockInv(ch, d, Moved(callers, i, pc))
  {
  }

  lemma StaysOutside(ch: Channel, d: Dir, callers: seq<Caller>, i: Task, pc: AcceptPc)
    requires LockInv(ch, d, callers) && i < |callers| && Outside(callers[i].pc) && Outside(pc)
    ensures LockInv(ch, d, Moved(callers, i, pc))
  {
  }

  lemma StaysInside(ch: Channel, d: Dir, callers: seq<Caller>, i: Task, pc: AcceptPc)
    requires LockInv(ch, d, callers) && i < |callers| && callers[i].dir == d
    requires ch.holder == Some(i) && HasLock(pc)
    ensures LockInv(ch, d, Moved(callers, i, pc))
  {
  }

  lemma Acquires(ch: Channel, d: Dir, callers: seq<Caller>, i: Task)
    requires LockInv(ch, d, callers) && i < |callers| && callers[i].dir == d && Outside(callers[i].pc)
    requires ch.holder == None
    ensures LockInv(ch.(holder := Some(i)), d, Moved(callers, i, Locked))
  {
  }

  lemma Enqueues(ch: Channel, d: Dir, callers: seq<Caller>, i: Task)
    requires LockInv(ch, d, callers) && i < |callers| && callers[i].dir == d && Outside(callers[i].pc)
    requires ch.holder != None
    ensures LockInv(ch.(line := ch.line + [i]), d, Moved(callers, i, Queued))
  {
    assert i !in ch.line;
  }

  lemma TailOf(line: seq<Task>)
    requires Distinct(line) && line != []
    ensures Distinct(line[1..]) && line[0] !in line[1..]
    ensures forall x :: x in line <==> x == line[0] || x in line[1..]
  {
    assert line == [line[0]] + line[1..];
    assert forall k | 0 <= k < |line| - 1 :: line[1..][k] == line[k + 1];
  }

  lemma Releases(ch: Channel, d: Dir, callers: seq<Caller>, i: Task, pc: AcceptPc)
    requires LockInv(ch, d, callers) && ch.holder == Some(i) && Outside(pc)
    ensures LockInv(Release(ch), d, Moved(callers, i, pc))
  {
    assert i !in ch.line;
    if ch.line != [] {
      TailOf(ch.line);
    }
  }

  lemma {:induction false} WithoutIs(line: seq<Task>, i: Task)
    requires Distinct(line)
    ensures Distinct(Without(line, i)) && forall x :: x in Without(line, i) <==> x in line && x != i
  {
    if line != [] {
      TailOf(line);
      if line[0] != i {
        WithoutIs(line[1..], i);
        assert forall k | 1 <= k < |Without(line, i)| :: Without(line, i)[k] == Without(line[1..], i)[k - 1];
      }
    }
  }

  lemma LeavesLine(ch: Channel, d: Dir, callers: seq<Caller>, i: Task)
    requires LockInv(ch, d, callers) && i < |callers| && callers[i].dir == d && ch.holder != Some(i)
    ensures LockInv(ch.(line := Without(ch.line, i)), d, Moved(callers, i, Dropped))
  {
    WithoutIs(ch.line, i);
  }

  ghost predicate Locks(s: State) {
    LockInv(s.bi, Bi, s.callers) && LockInv(s.uni, Uni, s.callers)
  }

  function Opposite(d: Dir): Dir {
    if d == Bi then Uni else Bi
  }

  /** The channel and the program counter that a step leaves behind. */
  lemma StepMovesOne(s: State, i: Task, preferStream: bool)
    requires AcceptEnabled(s, i)
    ensures var d, s' := s.callers[i].dir, StepOf(s, i, preferStream);
            && i < |s'.callers| && s'.callers == Moved(s.callers, i, s'.callers[i].pc)
            && Chan(s', Opposite(d)) == Chan(s, Opposite(d))
  {
  }

  lemma StepLeavesTheRest(s: State, i: Task, preferStream: bool)
    requires AcceptEnabled(s, i)
    ensures StepOf(s, i, preferStream).openers == s.openers && StepOf(s, i, preferStream).closed == s.closed
  {
  }

  lemma StepKeepsLocks(s: State, i: Task, preferStream: bool)
    requires Locks(s) && AcceptEnabled(s, i)
    ensures Locks(StepOf(s, i, preferStream))
  {
    var c, s' := s.callers[i], StepOf(s, i, preferStream);
    StepMovesOne(s, i, preferStream);
    OtherDirection(Chan(s, Opposite(c.dir)), Opposite(c.dir), s.callers, i, s'.callers[i].pc);
    StepKeepsOwnLock(s, i, preferStream);
  }

  lemma StepKeepsOwnLock(s: State, i: Task, preferStream: bool)
    requires Locks(s) && AcceptEnabled(s, i)
    ensures var s' := StepOf(s, i, preferStream); LockInv(Chan(s', s.callers[i].dir), s.callers[i].dir, s'.callers)
  {
    var c, s' := s.callers[i], StepOf(s, i, preferStream);
    StepMovesOne(s, i, preferStream);
    var pc := s'.callers[i].pc;
    var ch := Chan(s, c.dir);
    assert LockInv(ch, c.dir, s.callers);
    match c.pc
    case Start => StaysOutside(ch, c.dir, s.callers, i, pc);
    case WantLock =>
      if ch.holder == None {
        Acquires(ch, c.dir, s.callers, i);
      } else {
        Enqueues(ch, c.dir, s.callers, i);
      }
    case Queued => StaysInside(ch, c.dir, s.callers, i, pc);
    case Locked => StaysInside(ch, c.dir, s.callers, i, pc);
    case Selecting(seen) =>
      if pc.Changed? {
        StaysInside(ch, c.dir, s.callers, i, pc);
      } else {
        DeliverKeepsOwnLock(s, i);
      }
    case Changed => Releases(ch, c.dir, s.callers, i, pc);
  }

  lemma DeliverKeepsOwnLock(s: State, i: Task)
    requires Locks(s) && AcceptEnabled(s, i) && s.callers[i].pc.Selecting? && Chan(s, s.callers[i].dir).queue != []
    ensures var s' := Deliver(s, i); LockInv(Chan(s', s.callers[i].dir), s.callers[i].dir, s'.callers)
  {
    var d := s.callers[i].dir;
    var ch := Chan(s, d);
    var ch' := ch.(queue := ch.queue[1..], delivered := ch.delivered + [ch.queue[0]]);
    assert LockInv(ch, d, s.callers) && LockInv(ch', d, s.callers);
    Releases(ch', d, s.callers, i, Resolved(Ok(ch.queue[0])));
  }

  lemma DropKeepsLocks(s: State, i: Task)
    requires Locks(s) && i < |s.callers|
    ensures Locks(DropOf(s, i))
  {
    var c := s.callers[i];
    var ch := Chan(s, c.dir);
    OtherDirection(Chan(s, Opposite(c.dir)), Opposite(c.dir), s.callers, i, Dropped);
    if ch.holder == Some(i) {
      Releases(ch, c.dir, s.callers, i, Dropped);
    } else {
      LeavesLine(ch, c.dir, s.callers, i);
    }
  }

  lemma KeepsLocks(s: State, a: Action)
    requires Locks(s) && Enabled(s, a)
    ensures Locks(Next(s, a))
  {
    match a
    case StepAccept(i, preferStream) => StepKeepsLocks(s, i, preferStream);
    case DropAccept(i) => DropKeepsLocks(s, i);
    case CallAccept(d) => CallKeepsLocks(s, d);
    case _ => assert Next(s, a).callers == s.callers;
  }

  lemma CallKeepsLocks(s: State, d: Dir)
    requires Locks(s)
    ensures Locks(s.(callers := s.callers + [Caller(d, Start)]))
  {
  }

  // -------------------------------------------------------------- conservation

  ghost predicate Streamed(s: State) {
    Distinct(s.created) && Conserved(s, Bi) && Conserved(s, Uni)
  }

  lemma KeepsStreamed(s: State, a: Action)
    requires Streamed(s) && Enabled(s, a)
    ensures Streamed(Next(s, a))
  {
    match a
    case StreamCreated(id) => CreateKeepsStreamed(s, id);
    case StepAccept(i, preferStream) => StepKeepsStreamed(s, i, preferStream);
    case DropAccept(i) =>
    case _ => assert Next(s, a).bi == s.bi && Next(s, a).uni == s.uni && Next(s, a).created == s.created;
  }

  lemma PeerStreamsGrow(isServer: bool, d: Dir, created: seq<StreamId>, id: StreamId)
    ensures PeerStreams(isServer, d, created + [id]) ==
              PeerStreams(isServer, d, created) + (if Matches(isServer, d, id) then [id] else [])
  {
    assert (created + [id])[..|created|] == created;
  }

  lemma RoutedByMatch(s: State, id: StreamId, d: Dir)
    ensures var ch, ch' := Chan(s, d), Chan(OnStreamCreated(s, id), d);
            ch' == if Matches(s.isServer, d, id) then ch.(queue := ch.queue + [id]) else ch
  {
  }

  lemma CreateKeepsConserved(s: State, id: StreamId, d: Dir)
    requires Conserved(s, d)
    ensures Conserved(OnStreamCreated(s, id), d)
  {
    var ch := Chan(s, d);
    PeerStreamsGrow(s.isServer, d, s.created, id);
    RoutedByMatch(s, id, d);
    assert ch.delivered + (ch.queue + [id]) == ch.delivered + ch.queue + [id];
    assert ch.delivered + ch.queue + [] == ch.delivered + ch.queue;
  }

  lemma CreateKeepsStreamed(s: State, id: StreamId)
    requires Streamed(s) && id !in s.created
    ensures Streamed(OnStreamCreated(s, id))
  {
    CreateKeepsConserved(s, id, Bi);
    CreateKeepsConserved(s, id, Uni);
    assert OnStreamCreated(s, id).created == s.created + [id];
    Appended(s.created, id);
  }

  lemma StepKeepsStreamed(s: State, i: Task, preferStream: bool)
    requires Streamed(s) && AcceptEnabled(s, i)
    ensures Streamed(StepOf(s, i, preferStream))
  {
    var ch := Chan(s, s.callers[i].dir);
    if ch.queue != [] {
      assert ch.delivered + ch.queue == (ch.delivered + [ch.queue[0]]) + ch.queue[1..];
    }
  }

  /** The reference list holds each of the peer's streams exactly once. */
  lemma {:induction false} PeerStreamsAre(isServer: bool, d: Dir, created: seq<StreamId>)
    ensures forall id :: id in PeerStreams(isServer, d, created) <==> id in created && Matches(isServer, d, id)
    ensures Distinct(created) ==> Distinct(PeerStreams(isServer, d, created))
  {
    if created != [] {
      var n := |created| - 1;
      PeerStreamsAre(isServer, d, created[..n]);
      assert created == created[..n] + [created[n]];
      assert Distinct(created) ==> created[n] !in created[..n];
    }
  }

  // ------------------------------------------------------------ the close cell

  lemma KeepsClose(s: State, a: Action)
    requires CloseInv(s) && Enabled(s, a)
    ensures CloseInv(Next(s, a))
  {
    match a
    case StepAccept(i, preferStream) => StepKeepsClose(s, i, preferStream);
    case PollOpen(k) => PollKeepsClose(s, k);
    case ProcessOpen(k, answer) => OneOpenerKeepsClose(s, k, Next(s, a).openers[k].pc);
    case DropOpen(k) => OneOpenerKeepsClose(s, k, Next(s, a).openers[k].pc);
    case DropAccept(i) => assert DropOf(s, i).callers == Moved(s.callers, i, Dropped);
    case _ =>
  }

  lemma OneOpenerKeepsClose(s: State, k: nat, pc: OpenPc)
    requires CloseInv(s) && k < |s.openers| && OpenerSees(pc, s.closed)
    ensures CloseInv(SetOpen(s, k, pc))
  {
  }

  lemma PollKeepsClose(s: State, k: nat)
    requires CloseInv(s) && Enabled(s, PollOpen(k))
    ensures CloseInv(PollOf(s, k))
  {
    OneOpenerKeepsClose(s, k, PollOf(s, k).openers[k].pc);
  }

  lemma StepKeepsClose(s: State, i: Task, preferStream: bool)
    requires CloseInv(s) && AcceptEnabled(s, i)
    ensures CloseInv(StepOf(s, i, preferStream))
  {
  }

  // ------------------------------------------------------------------- awards

  /** An id at the head of a queue has not been delivered on either channel. */
  lemma HeadIsNew(s: State, d: Dir)
    requires Streamed(s) && Chan(s, d).queue != []
    ensures var id := Chan(s, d).queue[0];
            && id !in s.bi.delivered && id !in s.uni.delivered
            && Matches(s.isServer, d, id)
  {
    var ch := Chan(s, d);
    var all := PeerStreams(s.isServer, d, s.created);
    PeerStreamsAre(s.isServer, Bi, s.created);
    PeerStreamsAre(s.isServer, Uni, s.created);
    assert all[|ch.delivered|] == ch.queue[0];
    assert forall k | 0 <= k < |ch.delivered| :: all[k] == ch.delivered[k];
    var other := Chan(s, Opposite(d));
    assert forall id | id in other.delivered :: id in other.delivered + other.queue;
  }

  lemma NobodyWins(callers: seq<Caller>, i: Task, pc: AcceptPc, bi: seq<StreamId>, uni: seq<StreamId>)
    requires Awarded(callers, bi, uni) && i < |callers|
    requires !(pc.Resolved? && pc.result.Ok?)
    ensures Awarded(Moved(callers, i, pc), bi, uni)
  {
  }

  lemma OneWins(callers: seq<Caller>, i: Task, id: StreamId, bi: seq<StreamId>, uni: seq<StreamId>)
    requires Awarded(callers, bi, uni) && i < |callers| && id !in bi && id !in uni
    ensures if callers[i].dir == Bi then Awarded(Moved(callers, i, Resolved(Ok(id))), bi + [id], uni)
            else Awarded(Moved(callers, i, Resolved(Ok(id))), bi, uni + [id])
  {
  }

  ghost predicate Awards(s: State) {
    Awarded(s.callers, s.bi.delivered, s.uni.delivered)
  }

  lemma StepKeepsAwards(s: State, i: Task, preferStream: bool)
    requires Awards(s) && Streamed(s) && AcceptEnabled(s, i)
    ensures Awards(StepOf(s, i, preferStream))
  {
    var c, s' := s.callers[i], StepOf(s, i, preferStream);
    StepMovesOne(s, i, preferStream);
    if c.pc.Selecting? && !s'.callers[i].pc.Changed? {
      HeadIsNew(s, c.dir);
      OneWins(s.callers, i, Chan(s, c.dir).queue[0], s.bi.delivered, s.uni.delivered);
    } else {
      NobodyWins(s.callers, i, s'.callers[i].pc, s.bi.delivered, s.uni.delivered);
      StepDeliversNothing(s, i, preferStream);
    }
  }

  lemma KeepsAwards(s: State, a: Action)
    requires Awards(s) && Streamed(s) && Enabled(s, a)
    ensures Awards(Next(s, a))
  {
    match a
    case StepAccept(i, preferStream) => StepKeepsAwards(s, i, preferStream);
    case DropAccept(i) => DropKeepsAwards(s, i);
    case CallAccept(d) => CallKeepsAwards(s, d);
    case _ => OthersAwardNothing(s, a);
  }

  lemma DropKeepsAwards(s: State, i: Task)
    requires Awards(s) && i < |s.callers|
    ensures Awards(DropOf(s, i))
  {
    NobodyWins(s.callers, i, Dropped, s.bi.delivered, s.uni.delivered);
  }

  lemma CallKeepsAwards(s: State, d: Dir)
    requires Awards(s)
    ensures Awards(s.(callers := s.callers + [Caller(d, Start)]))
  {
  }

  lemma OthersAwardNothing(s: State, a: Action)
    requires Enabled(s, a) && !a.StepAccept? && !a.DropAccept? && !a.CallAccept?
    ensures var s' := Next(s, a);
            s'.callers == s.callers && s'.bi.delivered == s.bi.delivered && s'.uni.delivered == s.uni.delivered
  {
  }

  // ------------------------------------------------------------------ handles

  lemma Appended(xs: seq<StreamId>, id: StreamId)
    requires Distinct(xs) && id !in xs
    ensures Distinct(xs + [id])
  {
  }

  ghost predicate Owned(s: State) {
    Handles(s) && InReplies(s)
  }

  lemma DeliverKeepsHandles(s: State, i: Task)
    requires Streamed(s) && Owned(s)
    requires i < |s.callers| && Chan(s, s.callers[i].dir).queue != []
    ensures Owned(Deliver(s, i))
  {
    var d := s.callers[i].dir;
    var id := Chan(s, d).queue[0];
    HeadIsNew(s, d);
    HandlesGrow(s.isServer, s.bi.delivered, s.uni.delivered, s.localIds, s.sends, s.recvs, d, id);
    PeerIdIsNoReply(s.isServer, s.openers, s.localIds, s.sends, s.recvs, id, d == Bi);
  }

  /** A new id that a channel delivers becomes handles. */
  lemma HandlesGrow(isServer: bool, bi: seq<StreamId>, uni: seq<StreamId>, localIds: set<StreamId>,
                    sends: seq<StreamId>, recvs: seq<StreamId>, d: Dir, id: StreamId)
    requires HandlesFrom(isServer, bi, uni, localIds, sends, recvs)
    requires PeerInitiated(isServer, id) && id !in bi && id !in uni
    ensures HandlesFrom(isServer, if d == Bi then bi + [id] else bi, if d == Uni then uni + [id] else uni, localIds,
                        if d == Bi then sends + [id] else sends, recvs + [id])
  {
    assert id !in sends && id !in recvs;
    Appended(sends, id);
    Appended(recvs, id);
  }

  lemma PeerIdIsNoReply(isServer: bool, openers: seq<Opener>, localIds: set<StreamId>,
                        sends: seq<StreamId>, recvs: seq<StreamId>, id: StreamId, both: bool)
    requires Replies(isServer, openers, localIds, sends, recvs) && PeerInitiated(isServer, id)
    ensures Replies(isServer, openers, localIds, if both then sends + [id] else sends, recvs + [id])
  {
  }

  /** Taking a reply moves its id from the future to the handles. */
  lemma ReplyIsTaken(isServer: bool, openers: seq<Opener>, localIds: set<StreamId>,
                     sends: seq<StreamId>, recvs: seq<StreamId>, k: nat, pc: OpenPc, both: bool)
    requires Replies(isServer, openers, localIds, sends, recvs)
    requires k < |openers| && Carried(openers[k]).Some? && !pc.Replied?
    ensures var id := Carried(openers[k]).value;
            Replies(isServer, openers[k := openers[k].(pc := pc)], localIds,
                    sends + [id], if both then recvs + [id] else recvs)
  {
  }

  lemma NoReplyArrives(isServer: bool, openers: seq<Opener>, localIds: set<StreamId>,
                       sends: seq<StreamId>, recvs: seq<StreamId>, k: nat, pc: OpenPc)
    requires Replies(isServer, openers, localIds, sends, recvs)
    requires k < |openers| && Carried(Opener(openers[k].dir, pc)) == None
    ensures Replies(isServer, openers[k := openers[k].(pc := pc)], localIds, sends, recvs)
  {
  }

  lemma ReplyArrives(isServer: bool, openers: seq<Opener>, localIds: set<StreamId>,
                     sends: seq<StreamId>, recvs: seq<StreamId>, k: nat, pc: OpenPc, id: StreamId)
    requires Replies(isServer, openers, localIds, sends, recvs) && k < |openers|
    requires id !in localIds && id !in sends && id !in recvs
    requires !PeerInitiated(isServer, id) && (IsBidi(id) <==> openers[k].dir == Bi)
    requires Carried(Opener(openers[k].dir, pc)) in {None, Some(id)}
    ensures Replies(isServer, openers[k := openers[k].(pc := pc)], localIds + {id}, sends, recvs)
  {
  }

  lemma PollKeepsHandles(s: State, k: nat)
    requires Owned(s) && Enabled(s, PollOpen(k))
    ensures Owned(PollOf(s, k))
  {
    var o := s.openers[k];
    if Carried(o).Some? {
      var id := Carried(o).value;
      assert Untaken(s.isServer, o.dir, id, s.localIds, s.sends, s.recvs);
      Appended(s.sends, id);
      Appended(s.recvs, id);
      ReplyIsTaken(s.isServer, s.openers, s.localIds, s.sends, s.recvs, k, Opened(Ok(id), false), o.dir == Bi);
    } else {
      NoReplyArrives(s.isServer, s.openers, s.localIds, s.sends, s.recvs, k, PollOf(s, k).openers[k].pc);
    }
  }

  lemma ProcessKeepsHandles(s: State, k: nat, answer: Option<Result<StreamId, ConnectionError>>)
    requires Owned(s) && Enabled(s, ProcessOpen(k, answer))
    ensures Owned(Next(s, ProcessOpen(k, answer)))
  {
    var pc := Next(s, ProcessOpen(k, answer)).openers[k].pc;
    if answer.Some? && answer.value.Ok? {
      var id := answer.value.value;
      assert id !in s.sends && id !in s.recvs;
      ReplyArrives(s.isServer, s.openers, s.localIds, s.sends, s.recvs, k, pc, id);
    } else {
      NoReplyArrives(s.isServer, s.openers, s.localIds, s.sends, s.recvs, k, pc);
    }
  }

  lemma StepKeepsHandles(s: State, i: Task, preferStream: bool)
    requires Streamed(s) && Owned(s) && AcceptEnabled(s, i)
    ensures Owned(StepOf(s, i, preferStream))
  {
    var c, s' := s.callers[i], StepOf(s, i, preferStream);
    if c.pc.Selecting? && !s'.callers[i].pc.Changed? {
      DeliverKeepsHandles(s, i);
    } else {
      StepDeliversNothing(s, i, preferStream);
    }
  }

  lemma StepDeliversNothing(s: State, i: Task, preferStream: bool)
    requires AcceptEnabled(s, i)
    requires s.callers[i].pc.Selecting? ==> StepOf(s, i, preferStream).callers[i].pc.Changed?
    ensures var s' := StepOf(s, i, preferStream);
            && s' == s.(bi := s'.bi, uni := s'.uni, callers := s'.callers)
            && s'.bi.delivered == s.bi.delivered && s'.uni.delivered == s.uni.delivered
  {
  }

  lemma KeepsHandles(s: State, a: Action)
    requires Streamed(s) && Owned(s) && Enabled(s, a)
    ensures Owned(Next(s, a))
  {
    match a
    case StepAccept(i, preferStream) => StepKeepsHandles(s, i, preferStream);
    case PollOpen(k) => PollKeepsHandles(s, k);
    case ProcessOpen(k, answer) => ProcessKeepsHandles(s, k, answer);
    case DropOpen(k) =>
      NoReplyArrives(s.isServer, s.openers, s.localIds, s.sends, s.recvs, k, Abandoned(s.openers[k].pc.Sent?));
    case CallOpen(d) => CallOpenKeepsHandles(s, d);
    case _ => OthersDeliverNothing(s, a);
  }

  lemma CallOpenKeepsHandles(s: State, d: Dir)
    requires Owned(s)
    ensures Owned(s.(openers := s.openers + [Opener(d, Unsent)]))
  {
  }

  lemma OthersDeliverNothing(s: State, a: Action)
    requires Enabled(s, a)
    requires a.StreamCreated? || a.Publish? || a.CallAccept? || a.DropAccept?
    ensures var s' := Next(s, a);
            && s'.sends == s.sends && s'.recvs == s.recvs && s'.openers == s.openers && s'.isServer == s.isServer
            && s'.bi.delivered == s.bi.delivered && s'.uni.delivered == s.uni.delivered && s'.localIds == s.localIds
  {
  }

  // ----------------------------------------------------------------- the whole

  lemma StepKeeps(s: State, a: Action)
    requires Inv(s) && Enabled(s, a)
    ensures Inv(Next(s, a))
  {
    KeepsLocks(s, a);
    KeepsStreamed(s, a);
    KeepsClose(s, a);
    KeepsAwards(s, a);
    KeepsHandles(s, a);
  }

  lemma {:induction false} RunKeeps(states: seq<State>, acts: seq<Action>, i: nat)
    requires Run(states, acts) && i < |states|
    ensures Inv(states[i])
  {
    if i > 0 {
      RunKeeps(states, acts, i - 1);
      StepKeeps(states[i - 1], acts[i - 1]);
    }
  }
}
