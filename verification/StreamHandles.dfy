/** SendStream and RecvStream as the objects they are, running against a shared
    world that takes any steps it likes in between. A schedule lists, for each
    point where other threads can interfere, the steps they take there; a method
    whose schedule runs out while it still awaits something is pending. */
module StreamHandles {
  import opened Types
  import opened Schedules
  import opened Engine
  import opened StreamPath
  import Parking

  type Schedule = seq<seq<Action>>

  datatype Owner = Writer | Reader

  /** The size of the buffer `read_to_end` reads through. */
  const CHUNK: nat := 8192

  datatype WriteRound = WriteAgain | WriteStops(cause: WriteError) | WroteSome(n: nat)

  datatype ReadRound = Retry | Failed(cause: ReadError) | Data(data: seq<Byte>, fin: bool)

  datatype ReadExactError = FinishedEarly(bytesRead: nat) | ReadExactFailed(cause: ReadError)

  datatype ReadToEndError = TooLong | ReadToEndFailed(cause: ReadError)

  predicate Mine(o: Owner, a: Action) {
    match o
    case Writer => a.SendTask?
    case Reader => a.RecvTask?
  }

  /** What the others cannot change for the task that owns a half. */
  ghost predicate SameSendTask(w: Sender, w': Sender) {
    && w'.pc == w.pc && w'.acked == w.acked && w'.offered == w.offered && w'.clean == w.clean
    && w'.finished == w.finished && w'.dropped == w.dropped && w'.cancelled == w.cancelled
    && w'.issued == w.issued && w'.calls == w.calls && w'.wait.pc == w.wait.pc
    && w'.failed == w.failed && w'.ended == w.ended
    && (w.slot.Some? ==> w'.slot == w.slot)
    && (w.closed.Some? ==> w'.closed == w.closed)
    && (Parking.Notified(w.wait) ==> Parking.Notified(w'.wait))
  }

  ghost predicate SameRecvTask(r: Receiver, r': Receiver) {
    && r'.pc == r.pc && r'.got == r.got && r'.finSeen == r.finSeen
    && r'.allDataRead == r.allDataRead && r'.dropped == r.dropped && r'.cancelled == r.cancelled
    && r'.issued == r.issued && r'.calls == r.calls && r'.wait.pc == r.wait.pc
    && r'.failed == r.failed && r'.ended == r.ended
    && (r.slot.Some? ==> r'.slot == r.slot)
    && (r.closed.Some? ==> r'.closed == r.closed)
    && (Parking.Notified(r.wait) ==> Parking.Notified(r'.wait))
  }

  /** Waiting changes nothing the writer has done or reported. */
  ghost predicate Waited(w: Sender, w': Sender) {
    && w'.acked == w.acked && w'.offered == w.offered && w'.clean == w.clean
    && w'.finished == w.finished && w'.dropped == w.dropped && w'.cancelled == w.cancelled
    && w'.issued == w.issued && w'.calls == w.calls && w'.ended == w.ended
  }

  /** A call in progress changes nothing else about its handle. */
  ghost predicate Kept(w: Sender, w': Sender) {
    && w'.acked == w.acked && w'.offered == w.offered && w'.clean == w.clean
    && w'.finished == w.finished && w'.dropped == w.dropped && w'.cancelled == w.cancelled
  }

  /** Waiting changes nothing the reader has received. */
  ghost predicate Unread(r: Receiver, r': Receiver) {
    Idle(r, r') && r'.issued == r.issued && r'.calls == r.calls && r'.ended == r.ended
  }

  ghost predicate Idle(r: Receiver, r': Receiver) {
    && r'.got == r.got && r'.finSeen == r.finSeen && r'.allDataRead == r.allDataRead
    && r'.dropped == r.dropped && r'.cancelled == r.cancelled
    && StopIssued(r'.issued) == StopIssued(r.issued)
  }

  ghost predicate SameTask(o: Owner, s: State, s': State) {
    match o
    case Writer => SameSendTask(s.w, s'.w)
    case Reader => SameRecvTask(s.r, s'.r)
  }

  lemma OthersLeave(o: Owner, s: State, a: Action)
    requires Enabled(s, a) && !Mine(o, a)
    ensures SameTask(o, s, Next(s, a))
  {
  }

  lemma RunGrows(states: seq<State>, acts: seq<Action>, a: Action)
    requires Run(states, acts) && Enabled(states[|acts|], a)
    ensures Run(states + [Next(states[|acts|], a)], acts + [a])
  {
    var states', acts' := states + [Next(states[|acts|], a)], acts + [a];
    forall i | 0 <= i < |acts'| ensures Enabled(states'[i], acts'[i]) && states'[i + 1] == Next(states'[i], acts'[i]) {
      if i < |acts| {
        assert states'[i] == states[i] && states'[i + 1] == states[i + 1] && acts'[i] == acts[i];
      }
    }
  }

  /** Somebody other than the owner tries a step. */
  function Tried(o: Owner, s: State, a: Action): State {
    if Enabled(s, a) && !Mine(o, a) then Next(s, a) else s
  }

  /** The state after the others have tried the steps of `env` in turn. */
  function Ran(o: Owner, s: State, env: seq<Action>): State {
    if env == [] then s else Tried(o, Ran(o, s, env[..|env| - 1]), env[|env| - 1])
  }

  lemma TriedLeaves(o: Owner, s: State, a: Action)
    ensures SameTask(o, s, Tried(o, s, a))
  {
    if Enabled(s, a) && !Mine(o, a) {
      OthersLeave(o, s, a);
    }
  }

  lemma LeavingAdds(o: Owner, s: State, t: State, u: State)
    requires SameTask(o, s, t) && SameTask(o, t, u)
    ensures SameTask(o, s, u)
  {
  }

  lemma {:induction false} RanLeaves(o: Owner, s: State, env: seq<Action>)
    ensures SameTask(o, s, Ran(o, s, env))
  {
    if env != [] {
      var n := |env| - 1;
      RanLeaves(o, s, env[..n]);
      TriedLeaves(o, Ran(o, s, env[..n]), env[n]);
      LeavingAdds(o, s, Ran(o, s, env[..n]), Ran(o, s, env));
    }
  }

  function TurnNext(s: State, turn: Turn<Owner, Action>): State {
    match turn
    case Acts(a) => if Enabled(s, a) then Next(s, a) else s
    case Yields(o, env) => Ran(o, s, env)
  }

  /** The marks are what the turns lead to, one after the other. */
  ghost predicate Played(marks: seq<Mark<State, Action>>, log: seq<Turn<Owner, Action>>) {
    && |marks| == |log| + 1
    && forall k | 0 <= k < |log| ::
         marks[k + 1] == Mark(TurnNext(marks[k].st, log[k]), ChancesAfter(marks[k].chances, log[k]))
  }

  lemma PlayedGrows(marks: seq<Mark<State, Action>>, log: seq<Turn<Owner, Action>>, turn: Turn<Owner, Action>)
    requires Played(marks, log)
    ensures var m := marks[|log|];
            Played(marks + [Mark(TurnNext(m.st, turn), ChancesAfter(m.chances, turn))], log + [turn])
  {
  }

  /** The bridge, the engine, the network and all other tasks. */
  class World {
    var st: State
    ghost var states: seq<State>
    ghost var acts: seq<Action>
    ghost var chances: Schedule
    ghost var marks: seq<Mark<State, Action>>
    ghost var log: seq<Turn<Owner, Action>>

    /** The history is a run of the step system that ends in the current state. */
    ghost predicate History()
      reads this
    {
      Run(states, acts) && st == states[|acts|]
    }

    /** And the logged turns lead there, with `chances` what the others have had. */
    ghost predicate Valid()
      reads this
    {
      History() && Played(marks, log) && marks[0] == Mark(states[0], []) && marks[|log|] == Mark(st, chances)
    }

    constructor (s: State)
      requires Init(s)
      ensures Valid() && st == s && chances == []
    {
      st, states, acts := s, [s], [];
      chances, marks, log := [], [Mark(s, [])], [];
    }

    method Move(a: Action)
      requires History() && Enabled(st, a)
      modifies this`st, this`states, this`acts
      ensures History() && st == Next(old(st), a) && states[0] == old(states[0])
    {
      RunGrows(states, acts, a);
      st := Next(st, a);
      states := states + [st];
      acts := acts + [a];
    }

    /** One atomic step of the owner. */
    method Step(a: Action)
      requires Valid() && Enabled(st, a)
      modifies this
      ensures Valid() && st == Next(old(st), a) && chances == old(chances)
    {
      PlayedGrows(marks, log, Acts(a));
      Move(a);
      marks := marks + [Mark(st, chances)];
      log := log + [Acts(a)];
    }

    /** Everyone else tries the steps of `env`. */
    method Others(o: Owner, env: seq<Action>)
      requires History()
      modifies this`st, this`states, this`acts
      ensures History() && SameTask(o, old(st), st) && states[0] == old(states[0])
      ensures st == Ran(o, old(st), env)
    {
      for n := 0 to |env|
        invariant History() && st == Ran(o, old(st), env[..n]) && states[0] == old(states[0])
      {
        assert env[..n + 1][..n] == env[..n];
        if Enabled(st, env[n]) && !Mine(o, env[n]) {
          Move(env[n]);
        }
      }
      assert env[..|env|] == env;
      RanLeaves(o, old(st), env);
    }

    /** The owner yields: the others get the first chance of the schedule. */
    method Yield(o: Owner, sched: Schedule) returns (rest: Schedule)
      requires Valid() && sched != []
      modifies this
      ensures Valid() && SameTask(o, old(st), st)
      ensures rest == sched[1..] && chances + rest == old(chances) + sched
    {
      PlayedGrows(marks, log, Yields(o, sched[0]));
      FirstIsUsed(chances, sched);
      Others(o, sched[0]);
      chances := chances + [sched[0]];
      marks := marks + [Mark(st, chances)];
      log := log + [Yields(o, sched[0])];
      rest := sched[1..];
    }

    /** A point between two accesses of the owner where the others may run. */
    method Pause(o: Owner, sched: Schedule) returns (rest: Schedule)
      requires Valid()
      modifies this
      ensures Valid() && SameTask(o, old(st), st)
      ensures |rest| <= |sched|
      ensures chances + rest == old(chances) + sched
    {
      rest := sched;
      if sched != [] {
        rest := Yield(o, sched);
      }
    }
  }

  /** src/send_stream.rs */
  class SendStream {
    const world: World
    var finished: bool

    ghost predicate Valid()
      reads this, world
    {
      world.Valid() && finished == world.st.w.finished && !world.st.w.dropped
    }

    /** What has been written so far, as the replies report it. */
    ghost function Acked(): seq<Byte>
      reads this, world
    {
      world.st.w.acked
    }

    /** Outside every call, with `rem` still unwritten. */
    ghost predicate At(rem: seq<Byte>)
      reads this, world
    {
      world.st.w.pc == SendReady(rem)
    }

    /** Nothing this task can do: its command is unanswered, or it is parked and
        nobody has notified it. */
    ghost predicate Stuck()
      reads this, world
    {
      var w := world.st.w;
      || (w.pc.SendAwait? && w.slot == None)
      || (w.pc.SendWaiting? && w.wait.pc == Parking.Parked && !Parking.Notified(w.wait))
    }

    constructor (w: World)
      requires w.Valid() && !w.st.w.finished && !w.st.w.dropped
      ensures Valid() && world == w
    {
      world := w;
      finished := false;
    }

    /** The rest of `notified().await` once the first poll found no permit. */
    method Park(buf: seq<Byte>, sched: Schedule) returns (ready: bool, rest: Schedule)
      requires Valid() && world.st.w.pc == SendWaiting(buf) && world.st.w.wait.pc == Parking.Parked
      modifies world
      ensures Valid() && |rest| <= |sched|
      ensures Waited(old(world.st.w), world.st.w) && world.st.w.pc == SendWaiting(buf)
      ensures world.st.w.wait.pc == Parking.Parked && ready == Parking.Notified(world.st.w.wait)
      ensures !ready ==> rest == []
      ensures world.chances + rest == old(world.chances) + sched
    {
      rest := sched;
      while !Parking.Notified(world.st.w.wait) && rest != []
        invariant Valid() && world.st.w.pc == SendWaiting(buf) && world.st.w.wait.pc == Parking.Parked
        invariant |rest| <= |sched|
        invariant Waited(old(world.st.w), world.st.w)
        invariant world.chances + rest == old(world.chances) + sched
        decreases |rest|
      {
        rest := world.Yield(Writer, rest);
      }
      ready := Parking.Notified(world.st.w.wait);
    }

    /** `notified().await` on the stream's Notify. */
    method AwaitNotified(buf: seq<Byte>, sched: Schedule) returns (ready: bool, rest: Schedule)
      requires Valid() && world.st.w.pc == SendWaiting(buf) && world.st.w.wait.pc == Parking.Armed
      modifies world
      ensures Valid() && |rest| <= |sched|
      ensures Waited(old(world.st.w), world.st.w) && world.st.w.pc == SendWaiting(buf)
      ensures ready ==> world.st.w.wait.pc == Parking.Woken
      ensures !ready ==> world.st.w.wait.pc == Parking.Parked && !Parking.Notified(world.st.w.wait) && rest == []
      ensures world.chances + rest == old(world.chances) + sched
    {
      rest, ready := sched, true;
      world.Step(SendTask(SendPollNotified));
      if world.st.w.wait.pc == Parking.Parked {
        ready, rest := Park(buf, rest);
        if ready {
          world.Step(SendTask(SendWake));
        }
      }
    }

    /** One of the two looks at the close cell, before and after the wait. */
    method LookClosed(buf: seq<Byte>, sched: Schedule) returns (seen: Option<ConnectionError>, rest: Schedule)
      requires Valid() && world.st.w.pc == SendWaiting(buf) && world.st.w.wait.pc in {Parking.Blocked, Parking.Woken}
      modifies world
      ensures Valid() && |rest| <= |sched|
      ensures Waited(old(world.st.w), world.st.w)
      ensures seen.Some? ==>
                At(buf) && world.st.w.closed == seen && world.st.w.failed == Some(WriteConnectionLost(seen.value))
      ensures seen == world.st.w.closed
      ensures seen == None && old(world.st.w.wait.pc) == Parking.Woken ==> At(buf)
      ensures seen == None && old(world.st.w.wait.pc) == Parking.Blocked ==>
                world.st.w.pc == SendWaiting(buf) && world.st.w.wait.pc == Parking.Armed
      ensures world.chances + rest == old(world.chances) + sched
    {
      rest := world.Pause(Writer, sched);
      seen := world.st.w.closed;
      world.Step(if world.st.w.wait.pc == Parking.Blocked then SendTask(SendCheckClosed) else SendTask(SendRecheck));
    }

    /** wait_writable: an error is the published close reason; pending means parked,
        with no notification to come back on. */
    method WaitWritable(buf: seq<Byte>, sched: Schedule) returns (r: Poll<Result<(), WriteError>>, rest: Schedule)
      requires Valid() && world.st.w.pc == SendWaiting(buf) && world.st.w.wait.pc == Parking.Blocked
      modifies world
      ensures Valid() && |rest| <= |sched|
      ensures Waited(old(world.st.w), world.st.w)
      ensures r.Done? ==> At(buf)
      ensures r.Done? && r.value.Ok? ==> world.st.w.closed == None
      ensures r.Done? && r.value.Err? ==>
                r.value.error.WriteConnectionLost? && world.st.w.closed == Some(r.value.error.cause)
                && world.st.w.failed == Some(r.value.error)
      ensures r.Pending? ==> world.st.w.pc == SendWaiting(buf)
      ensures r.Pending? ==> world.st.w.wait.pc == Parking.Parked && !Parking.Notified(world.st.w.wait) && rest == []
      ensures world.chances + rest == old(world.chances) + sched
    {
      var seen, ready;
      seen, rest := LookClosed(buf, sched);
      if seen.Some? {
        return Done(Err(WriteConnectionLost(seen.value))), rest;
      }
      rest := world.Pause(Writer, rest);
      ready, rest := AwaitNotified(buf, rest);
      if !ready {
        return Pending, rest;
      }
      seen, rest := LookClosed(buf, rest);
      return if seen.Some? then Done(Err(WriteConnectionLost(seen.value))) else Done(Ok(())), rest;
    }

    /** `rx.await` */
    method AwaitReply(sched: Schedule) returns (reply: Option<Reply<WriteReply>>, rest: Schedule)
      requires Valid() && world.st.w.pc.SendAwait?
      modifies world
      ensures Valid() && |rest| <= |sched|
      ensures old(world.st.w.slot) == None && reply.Some? ==> |rest| < |sched|
      ensures Waited(old(world.st.w), world.st.w) && world.st.w.pc == old(world.st.w.pc)
      ensures world.st.w.slot == reply
      ensures reply == None ==> rest == []
      ensures world.chances + rest == old(world.chances) + sched
    {
      rest := sched;
      while world.st.w.slot == None && rest != []
        invariant Valid() && Waited(old(world.st.w), world.st.w) && world.st.w.pc == old(world.st.w.pc)
        invariant |rest| <= |sched|
        invariant old(world.st.w.slot) == None && world.st.w.slot != None ==> |rest| < |sched|
        invariant world.chances + rest == old(world.chances) + sched
        decreases |rest|
      {
        rest := world.Yield(Writer, rest);
      }
      reply := world.st.w.slot;
    }

    /** `send_cmd` and `rx.await`: one command, one reply. */
    method Exchange(buf: seq<Byte>, sched: Schedule) returns (reply: Option<Reply<WriteReply>>, rest: Schedule)
      requires Valid() && At(buf) && buf != [] && !finished
      modifies world
      ensures Valid() && |rest| <= |sched|
      ensures reply.Some? ==> |rest| < |sched|
      ensures Kept(old(world.st.w), world.st.w) && world.st.w.pc == SendAwait(buf, old(world.st.w.calls))
      ensures world.st.w.calls == old(world.st.w.calls) + 1
      ensures world.st.w.slot == reply
      ensures reply == None ==> rest == []
      ensures world.chances + rest == old(world.chances) + sched
    {
      assert world.st.w.slot == None by {
        RunKeeps(world.states, world.acts, |world.acts|);
      }
      world.Step(SendTask(SendWrite));
      reply, rest := AwaitReply(sched);
    }

    /** The arms of the match on the reply. */
    method TakeReply(buf: seq<Byte>, reply: Reply<WriteReply>) returns (round: WriteRound)
      requires Valid() && world.st.w.pc.SendAwait? && world.st.w.pc.rem == buf && world.st.w.slot == Some(reply)
      modifies world
      ensures Valid() && Kept(old(world.st.w).(acked := Acked()), world.st.w)
      ensures round.WriteAgain? ==>
                world.st.w.pc == SendWaiting(buf) && world.st.w.wait.pc == Parking.Blocked && Acked() == old(Acked())
      ensures round.WroteSome? ==>
                0 < round.n <= |buf| && At(buf[round.n..]) && Acked() == old(Acked()) + buf[..round.n]
      ensures round.WriteStops? ==> At(buf) && Acked() == old(Acked()) && world.st.w.failed == Some(round.cause)
      ensures world.st.w.ended == old(world.st.w.pc.call) && world.st.w.calls == old(world.st.w.calls)
      ensures world.chances == old(world.chances)
    {
      assert SendCalls(world.st.w) by {
        RunKeeps(world.states, world.acts, |world.acts|);
      }
      world.Step(SendTask(TakeWriteReply));
      match reply
      case Answer(Ok(n)) =>
        round := if n == 0 then WriteAgain else WroteSome(n);
      case Answer(Err(e)) =>
        round := WriteStops(e);
      case Gone =>
        round := WriteStops(WriteConnectionLost(LocallyClosed));
    }

    /** One command and the arms of the match on its reply. Nothing written and no
        error means that the task goes on to wait. */
    method Ask(buf: seq<Byte>, sched: Schedule) returns (r: Poll<WriteRound>, rest: Schedule)
      requires Valid() && At(buf) && buf != [] && !finished
      modifies world
      ensures Valid() && |rest| <= |sched|
      ensures Kept(old(world.st.w).(acked := Acked()), world.st.w)
      ensures r.Done? ==> |rest| < |sched|
      ensures r == Done(WriteAgain) ==>
                world.st.w.pc == SendWaiting(buf) && world.st.w.wait.pc == Parking.Blocked && Acked() == old(Acked())
      ensures r.Done? && r.value.WroteSome? ==>
                0 < r.value.n <= |buf| && At(buf[r.value.n..]) && Acked() == old(Acked()) + buf[..r.value.n]
      ensures r.Done? && r.value.WriteStops? ==>
                At(buf) && Acked() == old(Acked()) && world.st.w.failed == Some(r.value.cause)
      ensures old(world.st.w.calls) < world.st.w.calls && (r.Done? ==> world.st.w.ended == old(world.st.w.calls))
      ensures r.Pending? ==> Stuck() && world.st.w.pc.rem == buf && Acked() == old(Acked()) && rest == []
      ensures world.chances + rest == old(world.chances) + sched
    {
      var reply;
      reply, rest := Exchange(buf, sched);
      if reply == None {
        return Pending, rest;
      }
      var round := TakeReply(buf, reply.value);
      r := Done(round);
    }

    /** One round of the loop in `write`: ask, and wait if the answer is zero. */
    method Round(buf: seq<Byte>, sched: Schedule) returns (r: Poll<WriteRound>, rest: Schedule)
      requires Valid() && At(buf) && buf != [] && !finished
      modifies world
      ensures Valid() && |rest| <= |sched|
      ensures Kept(old(world.st.w).(acked := Acked()), world.st.w)
      ensures r == Done(WriteAgain) ==> |rest| < |sched| && world.st.w.closed == None
      ensures r.Done? && r.value.WroteSome? ==>
                0 < r.value.n <= |buf| && At(buf[r.value.n..]) && Acked() == old(Acked()) + buf[..r.value.n]
      ensures r.Done? && !r.value.WroteSome? ==> At(buf) && Acked() == old(Acked())
      ensures r.Done? && r.value.WriteStops? ==> world.st.w.failed == Some(r.value.cause)
      ensures old(world.st.w.calls) < world.st.w.calls && (r.Done? ==> world.st.w.ended == old(world.st.w.calls))
      ensures r.Pending? ==> Stuck() && world.st.w.pc.rem == buf && Acked() == old(Acked()) && rest == []
      ensures world.chances + rest == old(world.chances) + sched
    {
      r, rest := Ask(buf, sched);
      if r == Done(WriteAgain) {
        var waited;
        waited, rest := WaitWritable(buf, rest);
        if waited.Pending? {
          r := Pending;
        } else if waited.value.Err? {
          r := Done(WriteStops(waited.value.error));
        }
      }
    }

    /** write: Ok is a positive number of bytes from the front of `buf`; an error is
        the one that ended the call, with nothing of `buf` written by it; pending
        means stuck, with the schedule used up. */
    method Write(buf: seq<Byte>, sched: Schedule) returns (r: Poll<Result<nat, WriteError>>, rest: Schedule)
      requires Valid() && At(buf) && buf != []
      modifies world
      ensures Valid() && |rest| <= |sched|
      ensures Kept(old(world.st.w).(acked := Acked()), world.st.w)
      ensures r.Done? && r.value.Ok? ==>
                0 < r.value.value <= |buf| && At(buf[r.value.value..]) && Acked() == old(Acked()) + buf[..r.value.value]
      ensures r.Done? && r.value.Err? ==> At(buf) && Acked() == old(Acked())
      ensures r.Done? && r.value.Err? && !finished ==>
                world.st.w.failed == Some(r.value.error) && world.st.w.ended >= old(world.st.w.calls)
      ensures old(world.st.w.calls) <= world.st.w.calls
      ensures r.Pending? ==> Stuck() && world.st.w.pc.rem == buf && Acked() == old(Acked()) && rest == []
      ensures finished ==> r == Done(Err(WriteClosedStream)) && world.st == old(world.st)
      ensures world.chances + rest == old(world.chances) + sched
    {
      rest := sched;
      if finished {
        return Done(Err(WriteClosedStream)), rest;
      }
      while true
        invariant Valid() && At(buf) && Kept(old(world.st.w), world.st.w) && |rest| <= |sched|
        invariant old(world.st.w.calls) <= world.st.w.calls
        invariant world.chances + rest == old(world.chances) + sched
        decreases |rest|
      {
        var round;
        round, rest := Round(buf, rest);
        if round.Pending? {
          return Pending, rest;
        }
        match round.value
        case WriteAgain =>
        case WriteStops(e) =>
          return Done(Err(e)), rest;
        case WroteSome(n) =>
          return Done(Ok(n)), rest;
      }
    }

    /** A call of `write_all` begins: `buf` is what is to be written. */
    method Begin(buf: seq<Byte>)
      requires Valid() && world.st.w.pc.SendReady?
      modifies world
      ensures Valid() && At(buf) && Acked() == old(Acked())
      ensures world.st.w.offered == old(world.st.w.offered) + buf
      ensures world.st.w.calls == old(world.st.w.calls) && world.chances == old(world.chances)
    {
      world.Step(SendTask(Offer(buf)));
    }

    /** write_all: Ok means the engine took exactly `buf`; an error means it took a
        prefix and the rest is still to be written; pending means stuck. */
    method WriteAll(buf: seq<Byte>, sched: Schedule) returns (r: Poll<Result<(), WriteError>>, rest: Schedule)
      requires Valid() && world.st.w.pc.SendReady?
      modifies world
      ensures Valid()
      ensures world.st.w.offered == old(world.st.w.offered) + buf
      ensures old(Acked()) <= Acked() <= old(Acked()) + buf
      ensures r.Done? && r.value.Ok? ==> Acked() == old(Acked()) + buf && At([])
      ensures r.Done? && r.value.Err? ==> world.st.w.pc.SendReady? && Acked() + world.st.w.pc.rem == old(Acked()) + buf
      ensures r.Done? && r.value.Err? && !finished ==>
                world.st.w.failed == Some(r.value.error) && world.st.w.ended >= old(world.st.w.calls)
      ensures r.Pending? ==> Stuck() && Acked() + world.st.w.pc.rem == old(Acked()) + buf && rest == []
      ensures !world.st.w.cancelled && r.Done? ==> world.st.p.accepted == Acked()
      ensures finished && buf != [] ==> r == Done(Err(WriteClosedStream))
      ensures world.chances + rest == old(world.chances) + sched
    {
      Begin(buf);
      rest := sched;
      var offset := 0;
      while offset < |buf|
        invariant 0 <= offset <= |buf|
        invariant Valid() && At(buf[offset..])
        invariant old(Acked()) <= Acked() && Acked() + buf[offset..] == old(Acked()) + buf
        invariant world.st.w.offered == old(world.st.w.offered) + buf && old(world.st.w.calls) <= world.st.w.calls
        invariant finished ==> offset == 0
        invariant world.chances + rest == old(world.chances) + sched
      {
        var n;
        ghost var before := Acked();
        n, rest := Write(buf[offset..], rest);
        if n.Pending? {
          return Pending, rest;
        } else if n.value.Err? {
          WroteSoFar();
          return Done(Err(n.value.error)), rest;
        }
        NextPart(before, buf, offset, n.value.value);
        offset := offset + n.value.value;
      }
      WroteSoFar();
      r := Done(Ok(()));
    }

    /** Outside every call the engine holds exactly the acknowledged bytes. */
    lemma WroteSoFar()
      requires Valid() && world.st.w.pc.SendReady?
      ensures !world.st.w.cancelled ==> world.st.p.accepted == Acked()
    {
      RunKeeps(world.states, world.acts, |world.acts|);
    }

    /** finish: the first call issues the one fin write. */
    method Finish() returns (r: Result<(), ()>)
      requires Valid() && world.st.w.pc.SendReady?
      modifies this, world
      ensures Valid() && finished && world.st.w.pc == old(world.st.w.pc)
      ensures r.Ok? <==> !old(finished)
      ensures world.st.w.issued == old(world.st.w.issued)
                + (if r.Ok? then [StreamPath.Write([], true, old(world.st.w.calls))] else [])
    {
      if finished {
        return Err(());
      }
      finished := true;
      world.Step(SendTask(SendTaskStep.Finish));
      r := Ok(());
    }

    /** reset: issues the one write-shutdown unless the half is finished. */
    method Reset(code: U64) returns (r: Result<(), ()>)
      requires Valid() && world.st.w.pc.SendReady?
      modifies this, world
      ensures Valid() && finished && world.st.w.pc == old(world.st.w.pc)
      ensures r.Ok? <==> !old(finished)
      ensures world.st.w.issued == old(world.st.w.issued) + (if r.Ok? then [ShutdownWrite(code)] else [])
    {
      if finished {
        return Err(());
      }
      finished := true;
      world.Step(SendTask(ResetStream(code)));
      r := Ok(());
    }

    /** set_priority: issues one clamped change unless the half is finished. */
    method SetPriority(priority: int) returns (r: Result<(), ()>)
      requires Valid() && world.st.w.pc.SendReady?
      modifies world
      ensures Valid()
      ensures r.Ok? <==> !finished
      ensures world.st.w.issued ==
                old(world.st.w.issued) + (if r.Ok? then [StreamPath.SetPriority(Clamp(priority))] else [])
    {
      if finished {
        return Err(());
      }
      world.Step(SendTask(Prioritize(priority)));
      r := Ok(());
    }

    /** Drop: the fin is sent at the latest here. */
    method Drop()
      requires Valid() && world.st.w.pc.SendReady?
      modifies this, world
      ensures finished && world.Valid() && world.st.w.dropped
      ensures world.st.w.issued != [] && Terminal(world.st.w.issued[|world.st.w.issued| - 1])
      ensures world.st.w.issued ==
                old(world.st.w.issued)
                    + (if old(finished) then [] else [StreamPath.Write([], true, old(world.st.w.calls))])
    {
      if !finished {
        var _ := Finish();
      }
      world.Step(SendTask(DropSend));
      RunKeeps(world.states, world.acts, |world.acts|);
    }
  }

  /** src/recv_stream.rs */
  class RecvStream {
    const world: World
    var allDataRead: bool

    ghost predicate Valid()
      reads this, world
    {
      world.Valid() && allDataRead == world.st.r.allDataRead && !world.st.r.dropped
    }

    /** Everything copied into callers' buffers so far. */
    ghost function Got(): seq<Byte>
      reads this, world
    {
      world.st.r.got
    }

    ghost predicate Stopped()
      reads this, world
    {
      StopIssued(world.st.r.issued)
    }

    /** Nothing this task can do: its command is unanswered, or it is parked and
        nobody has notified it. */
    ghost predicate Stuck()
      reads this, world
    {
      var r := world.st.r;
      || (r.pc.RecvAwait? && r.slot == None)
      || (r.pc.RecvWaiting? && r.wait.pc == Parking.Parked && !Parking.Notified(r.wait))
    }

    constructor (w: World)
      requires w.Valid() && !w.st.r.allDataRead && !w.st.r.dropped
      ensures Valid() && world == w
    {
      world := w;
      allDataRead := false;
    }

    /** The rest of `notified().await` once the first poll found no permit. */
    method Park(maxLen: nat, sched: Schedule) returns (ready: bool, rest: Schedule)
      requires Valid() && world.st.r.pc == RecvWaiting(maxLen) && world.st.r.wait.pc == Parking.Parked
      modifies world
      ensures Valid() && |rest| <= |sched|
      ensures Unread(old(world.st.r), world.st.r) && world.st.r.pc == RecvWaiting(maxLen)
      ensures world.st.r.wait.pc == Parking.Parked && ready == Parking.Notified(world.st.r.wait)
      ensures !ready ==> rest == []
      ensures world.chances + rest == old(world.chances) + sched
    {
      rest := sched;
      while !Parking.Notified(world.st.r.wait) && rest != []
        invariant Valid() && world.st.r.pc == RecvWaiting(maxLen) && world.st.r.wait.pc == Parking.Parked
        invariant |rest| <= |sched|
        invariant Unread(old(world.st.r), world.st.r)
        invariant world.chances + rest == old(world.chances) + sched
        decreases |rest|
      {
        rest := world.Yield(Reader, rest);
      }
      ready := Parking.Notified(world.st.r.wait);
    }

    /** `notified().await` on the stream's Notify. */
    method AwaitNotified(maxLen: nat, sched: Schedule) returns (ready: bool, rest: Schedule)
      requires Valid() && world.st.r.pc == RecvWaiting(maxLen) && world.st.r.wait.pc == Parking.Armed
      modifies world
      ensures Valid() && |rest| <= |sched|
      ensures Unread(old(world.st.r), world.st.r) && world.st.r.pc == RecvWaiting(maxLen)
      ensures ready ==> world.st.r.wait.pc == Parking.Woken
      ensures !ready ==> world.st.r.wait.pc == Parking.Parked && !Parking.Notified(world.st.r.wait) && rest == []
      ensures world.chances + rest == old(world.chances) + sched
    {
      rest, ready := sched, true;
      world.Step(RecvTask(RecvPollNotified));
      if world.st.r.wait.pc == Parking.Parked {
        ready, rest := Park(maxLen, rest);
        if ready {
          world.Step(RecvTask(RecvWake));
        }
      }
    }

    /** One of the two looks at the close cell, before and after the wait. */
    method LookClosed(maxLen: nat, sched: Schedule) returns (seen: Option<ConnectionError>, rest: Schedule)
      requires Valid() && world.st.r.pc == RecvWaiting(maxLen) && world.st.r.wait.pc in {Parking.Blocked, Parking.Woken}
      modifies world
      ensures Valid() && |rest| <= |sched|
      ensures Unread(old(world.st.r), world.st.r)
      ensures seen.Some? ==>
                world.st.r.pc == RecvReady && world.st.r.closed == seen
                    && world.st.r.failed == Some(ReadConnectionLost(seen.value))
      ensures seen == world.st.r.closed
      ensures seen == None && old(world.st.r.wait.pc) == Parking.Woken ==> world.st.r.pc == RecvReady
      ensures seen == None && old(world.st.r.wait.pc) == Parking.Blocked ==>
                world.st.r.pc == RecvWaiting(maxLen) && world.st.r.wait.pc == Parking.Armed
      ensures world.chances + rest == old(world.chances) + sched
    {
      rest := world.Pause(Reader, sched);
      seen := world.st.r.closed;
      world.Step(if world.st.r.wait.pc == Parking.Blocked then RecvTask(RecvCheckClosed) else RecvTask(RecvRecheck));
    }

    /** wait_readable: an error is the published close reason; pending means parked,
        with no notification to come back on. */
    method WaitReadable(maxLen: nat, sched: Schedule) returns (r: Poll<Result<(), ReadError>>, rest: Schedule)
      requires Valid() && world.st.r.pc == RecvWaiting(maxLen) && world.st.r.wait.pc == Parking.Blocked
      modifies world
      ensures Valid() && |rest| <= |sched|
      ensures Unread(old(world.st.r), world.st.r)
      ensures r.Done? ==> world.st.r.pc == RecvReady
      ensures r.Done? && r.value.Ok? ==> world.st.r.closed == None
      ensures r.Done? && r.value.Err? ==>
                r.value.error.ReadConnectionLost? && world.st.r.closed == Some(r.value.error.cause)
                && world.st.r.failed == Some(r.value.error)
      ensures r.Pending? ==> world.st.r.pc == RecvWaiting(maxLen)
      ensures r.Pending? ==> world.st.r.wait.pc == Parking.Parked && !Parking.Notified(world.st.r.wait) && rest == []
      ensures world.chances + rest == old(world.chances) + sched
    {
      var seen, ready;
      seen, rest := LookClosed(maxLen, sched);
      if seen.Some? {
        return Done(Err(ReadConnectionLost(seen.value))), rest;
      }
      rest := world.Pause(Reader, rest);
      ready, rest := AwaitNotified(maxLen, rest);
      if !ready {
        return Pending, rest;
      }
      seen, rest := LookClosed(maxLen, rest);
      return if seen.Some? then Done(Err(ReadConnectionLost(seen.value))) else Done(Ok(())), rest;
    }

    /** `rx.await` */
    method AwaitReply(sched: Schedule) returns (reply: Option<Reply<ReadReply>>, rest: Schedule)
      requires Valid() && world.st.r.pc.RecvAwait?
      modifies world
      ensures Valid() && |rest| <= |sched|
      ensures old(world.st.r.slot) == None && reply.Some? ==> |rest| < |sched|
      ensures Unread(old(world.st.r), world.st.r) && world.st.r.pc == old(world.st.r.pc)
      ensures world.st.r.slot == reply
      ensures reply == None ==> rest == []
      ensures world.chances + rest == old(world.chances) + sched
    {
      rest := sched;
      while world.st.r.slot == None && rest != []
        invariant Valid() && Unread(old(world.st.r), world.st.r) && world.st.r.pc == old(world.st.r.pc)
        invariant |rest| <= |sched|
        invariant old(world.st.r.slot) == None && world.st.r.slot != None ==> |rest| < |sched|
        invariant world.chances + rest == old(world.chances) + sched
        decreases |rest|
      {
        rest := world.Yield(Reader, rest);
      }
      reply := world.st.r.slot;
    }

    /** `send_cmd` and `rx.await`: one command, one reply. */
    method Exchange(maxLen: nat, sched: Schedule) returns (reply: Option<Reply<ReadReply>>, rest: Schedule)
      requires Valid() && world.st.r.pc == RecvReady && !allDataRead && maxLen > 0
      modifies world
      ensures Valid() && |rest| <= |sched|
      ensures reply.Some? ==> |rest| < |sched|
      ensures Idle(old(world.st.r), world.st.r) && world.st.r.pc == RecvAwait(maxLen, old(world.st.r.calls))
      ensures world.st.r.calls == old(world.st.r.calls) + 1
      ensures world.st.r.slot == reply
      ensures reply == None ==> rest == []
      ensures world.chances + rest == old(world.chances) + sched
    {
      assert world.st.r.slot == None && !Stopped() by {
        RunKeeps(world.states, world.acts, |world.acts|);
      }
      world.Step(RecvTask(SendRead(maxLen)));
      reply, rest := AwaitReply(sched);
    }

    /** The arms of the match on the reply. */
    method TakeReply(maxLen: nat, reply: Reply<ReadReply>) returns (round: ReadRound)
      requires Valid() && world.st.r.pc.RecvAwait? && world.st.r.pc.maxLen == maxLen
      requires world.st.r.slot == Some(reply) && !allDataRead
      modifies world
      ensures world.Valid() && !world.st.r.dropped
      ensures world.st.r.cancelled == old(world.st.r.cancelled) && world.st.r.issued == old(world.st.r.issued)
      ensures round.Retry? ==> world.st.r.pc == RecvWaiting(maxLen) && world.st.r.wait.pc == Parking.Blocked
      ensures !round.Retry? ==> world.st.r.pc == RecvReady
      ensures round.Data? ==>
                && |round.data| <= maxLen && (round.data != [] || round.fin)
                && Got() == old(Got()) + round.data && world.st.r.allDataRead == round.fin
      ensures !round.Data? ==> Got() == old(Got()) && !world.st.r.allDataRead
      ensures round.Failed? ==> world.st.r.failed == Some(round.cause)
      ensures world.st.r.ended == old(world.st.r.pc.call) && world.st.r.calls == old(world.st.r.calls)
      ensures world.chances == old(world.chances)
    {
      assert RecvReplies(world.st.r) by {
        RunKeeps(world.states, world.acts, |world.acts|);
      }
      world.Step(RecvTask(TakeReadReply));
      match reply
      case Answer(Ok((data, fin))) =>
        round := if data == [] && !fin then Retry else Data(data, fin);
      case Answer(Err(e)) =>
        round := Failed(e);
      case Gone =>
        round := Failed(ReadConnectionLost(LocallyClosed));
    }

    /** One command and the arms of the match on its reply. `Retry` means that the
        answer was empty and the task goes on to wait. */
    method Ask(maxLen: nat, sched: Schedule) returns (r: Poll<ReadRound>, rest: Schedule)
      requires Valid() && world.st.r.pc == RecvReady && !allDataRead && maxLen > 0
      modifies world
      ensures world.Valid() && !world.st.r.dropped && |rest| <= |sched|
      ensures world.st.r.cancelled == old(world.st.r.cancelled) && Stopped() == old(Stopped())
      ensures r.Done? ==> |rest| < |sched|
      ensures r == Done(Retry) ==> world.st.r.pc == RecvWaiting(maxLen) && world.st.r.wait.pc == Parking.Blocked
      ensures r.Done? && !r.value.Retry? ==> world.st.r.pc == RecvReady
      ensures r.Done? && r.value.Data? ==>
                && |r.value.data| <= maxLen && (r.value.data != [] || r.value.fin)
                && Got() == old(Got()) + r.value.data && world.st.r.allDataRead == r.value.fin
      ensures !(r.Done? && r.value.Data?) ==> Got() == old(Got()) && !world.st.r.allDataRead
      ensures r.Done? && r.value.Failed? ==> world.st.r.failed == Some(r.value.cause)
      ensures old(world.st.r.calls) < world.st.r.calls && (r.Done? ==> world.st.r.ended == old(world.st.r.calls))
      ensures r.Pending? ==> Stuck() && rest == []
      ensures world.chances + rest == old(world.chances) + sched
    {
      var reply;
      reply, rest := Exchange(maxLen, sched);
      if reply == None {
        return Pending, rest;
      }
      var round := TakeReply(maxLen, reply.value);
      r := Done(round);
    }

    /** One round of the loop in `read`: ask, and wait if the answer is empty. */
    method Round(maxLen: nat, sched: Schedule) returns (r: Poll<ReadRound>, rest: Schedule)
      requires Valid() && world.st.r.pc == RecvReady && !allDataRead && maxLen > 0
      modifies world
      ensures world.Valid() && !world.st.r.dropped && |rest| <= |sched|
      ensures world.st.r.cancelled == old(world.st.r.cancelled) && Stopped() == old(Stopped())
      ensures r.Done? ==> world.st.r.pc == RecvReady
      ensures r == Done(Retry) ==> |rest| < |sched| && world.st.r.closed == None
      ensures r.Done? && r.value.Data? ==>
                && |r.value.data| <= maxLen && (r.value.data != [] || r.value.fin)
                && Got() == old(Got()) + r.value.data && world.st.r.allDataRead == r.value.fin
      ensures !(r.Done? && r.value.Data?) ==> Got() == old(Got()) && !world.st.r.allDataRead
      ensures r.Done? && r.value.Failed? ==> world.st.r.failed == Some(r.value.cause)
      ensures old(world.st.r.calls) < world.st.r.calls && (r.Done? ==> world.st.r.ended == old(world.st.r.calls))
      ensures r.Pending? ==> Stuck() && rest == []
      ensures world.chances + rest == old(world.chances) + sched
    {
      r, rest := Ask(maxLen, sched);
      if r == Done(Retry) {
        var waited;
        waited, rest := WaitReadable(maxLen, rest);
        if waited.Pending? {
          r := Pending;
        } else if waited.value.Err? {
          r := Done(Failed(waited.value.error));
        }
      }
    }

    /** The loop in `read`: rounds until data, an error, or nothing more to do. */
    method NextData(maxLen: nat, sched: Schedule) returns (r: Poll<ReadRound>, rest: Schedule)
      requires Valid() && world.st.r.pc == RecvReady && !allDataRead && maxLen > 0
      modifies world
      ensures world.Valid() && !world.st.r.dropped && |rest| <= |sched|
      ensures world.st.r.cancelled == old(world.st.r.cancelled) && Stopped() == old(Stopped())
      ensures r.Done? ==> world.st.r.pc == RecvReady && !r.value.Retry?
      ensures r.Done? && r.value.Data? ==>
                && |r.value.data| <= maxLen && (r.value.data != [] || r.value.fin)
                && Got() == old(Got()) + r.value.data && world.st.r.allDataRead == r.value.fin
      ensures !(r.Done? && r.value.Data?) ==> Got() == old(Got()) && !world.st.r.allDataRead
      ensures r.Done? && r.value.Failed? ==>
                world.st.r.failed == Some(r.value.cause) && world.st.r.ended >= old(world.st.r.calls)
      ensures old(world.st.r.calls) <= world.st.r.calls
      ensures r.Pending? ==> Stuck() && rest == []
      ensures world.chances + rest == old(world.chances) + sched
    {
      rest := sched;
      while true
        invariant Valid() && world.st.r.pc == RecvReady && |rest| <= |sched|
        invariant world.st.r.cancelled == old(world.st.r.cancelled) && Stopped() == old(Stopped())
        invariant Got() == old(Got()) && old(world.st.r.calls) <= world.st.r.calls
        invariant world.chances + rest == old(world.chances) + sched
        decreases |rest|
      {
        r, rest := Round(maxLen, rest);
        if r != Done(Retry) {
          return;
        }
      }
    }

    /** read into `buf[from..]`: the next bytes of the stream and nothing else, or
        the error that ended the call, or stuck with the schedule used up. */
    method Read(buf: array<Byte>, from: nat, sched: Schedule)
      returns (r: Poll<Result<Option<nat>, ReadError>>, rest: Schedule)
      requires Valid() && world.st.r.pc == RecvReady && from < buf.Length
      modifies this, world, buf
      ensures Valid() && |rest| <= |sched|
      ensures world.st.r.cancelled == old(world.st.r.cancelled) && Stopped() == old(Stopped())
      ensures r.Done? ==> world.st.r.pc == RecvReady
      ensures r.Done? && r.value.Ok? && r.value.value.Some? ==>
                var n := r.value.value.value;
                && 0 < n <= buf.Length - from
                && Got() == old(Got()) + buf[from .. from + n]
                && (forall i | 0 <= i < from || from + n <= i < buf.Length :: buf[i] == old(buf[i]))
      ensures !(r.Done? && r.value.Ok? && r.value.value.Some?) ==> Got() == old(Got()) && buf[..] == old(buf[..])
      ensures r == Done(Ok(None)) ==> allDataRead
      ensures r.Done? && r.value.Err? ==>
                !allDataRead && world.st.r.failed == Some(r.value.error) && world.st.r.ended >= old(world.st.r.calls)
      ensures old(world.st.r.calls) <= world.st.r.calls
      ensures old(allDataRead) ==> r == Done(Ok(None)) && world.st == old(world.st)
      ensures r.Pending? ==> Stuck() && rest == []
      ensures world.chances + rest == old(world.chances) + sched
    {
      rest := sched;
      if allDataRead {
        return Done(Ok(None)), rest;
      }
      var round;
      round, rest := NextData(buf.Length - from, rest);
      if round.Pending? {
        return Pending, rest;
      } else if round.value.Failed? {
        return Done(Err(round.value.cause)), rest;
      }
      var data := round.value.data;
      Copy(buf, from, data);
      if round.value.fin {
        allDataRead := true;
        if data == [] {
          return Done(Ok(None)), rest;
        }
      }
      r := Done(Ok(Some(|data|)));
    }

    /** Without a stop, a handle that has read all data holds the whole stream. */
    lemma AllDataMeansEverything()
      requires Valid() && allDataRead && !Stopped()
      ensures world.st.r.finSeen
      ensures !world.st.r.cancelled ==> Got() == world.st.p.accepted
    {
      RunKeeps(world.states, world.acts, |world.acts|);
    }

    /** `read(&mut buf[offset..])`, seen from the front of the buffer. */
    method Fill(buf: array<Byte>, offset: nat, sched: Schedule)
      returns (r: Poll<Result<Option<nat>, ReadError>>, rest: Schedule)
      requires Valid() && world.st.r.pc == RecvReady && offset < buf.Length
      modifies this, world, buf
      ensures Valid() && |rest| <= |sched| && Stopped() == old(Stopped())
      ensures r.Done? ==> world.st.r.pc == RecvReady
      ensures r.Done? && r.value.Ok? && r.value.value.Some? ==>
                var end := offset + r.value.value.value;
                && offset < end <= buf.Length
                && Got() == old(Got()) + buf[offset .. end]
                && buf[..end] == old(buf[..offset]) + buf[offset .. end]
      ensures !(r.Done? && r.value.Ok? && r.value.value.Some?) ==> Got() == old(Got()) && buf[..] == old(buf[..])
      ensures r == Done(Ok(None)) ==>
                allDataRead && (!Stopped() && !world.st.r.cancelled ==>
                    Got() == world.st.p.accepted && world.st.r.finSeen)
      ensures r.Done? && r.value.Err? ==>
                world.st.r.failed == Some(r.value.error) && world.st.r.ended >= old(world.st.r.calls)
      ensures old(world.st.r.calls) <= world.st.r.calls
      ensures r.Pending? ==> Stuck() && rest == []
      ensures world.chances + rest == old(world.chances) + sched
    {
      r, rest := Read(buf, offset, sched);
      if r == Done(Ok(None)) && !Stopped() {
        AllDataMeansEverything();
      }
    }

    /** read_exact: the whole buffer, or everything that was left. */
    method ReadExact(buf: array<Byte>, sched: Schedule) returns (r: Poll<Result<(), ReadExactError>>, rest: Schedule)
      requires Valid() && world.st.r.pc == RecvReady
      modifies this, world, buf
      ensures Valid() && Stopped() == old(Stopped())
      ensures r == Done(Ok(())) ==> Got() == old(Got()) + buf[..]
      ensures r.Done? && r.value.Err? && r.value.error.FinishedEarly? ==>
                var k := r.value.error.bytesRead;
                && k < buf.Length && Got() == old(Got()) + buf[..k] && allDataRead
                && (!Stopped() && !world.st.r.cancelled ==> Got() == world.st.p.accepted)
      ensures r.Done? && r.value.Err? && r.value.error.ReadExactFailed? ==>
                world.st.r.failed == Some(r.value.error.cause) && world.st.r.ended >= old(world.st.r.calls)
      ensures old(Got()) <= Got() && |Got()| <= |old(Got())| + buf.Length
      ensures r.Pending? ==> Stuck() && rest == []
      ensures world.chances + rest == old(world.chances) + sched
    {
      rest := sched;
      var offset := 0;
      while offset < buf.Length
        invariant 0 <= offset <= buf.Length
        invariant Valid() && world.st.r.pc == RecvReady && Stopped() == old(Stopped())
        invariant Got() == old(Got()) + buf[..offset] && old(world.st.r.calls) <= world.st.r.calls
        invariant world.chances + rest == old(world.chances) + sched
      {
        var n;
        ghost var before := buf[..];
        n, rest := Fill(buf, offset, rest);
        match n
        case Pending =>
          return Pending, rest;
        case Done(Ok(Some(k))) =>
          offset := offset + k;
        case Done(Ok(None)) =>
          assert buf[..offset] == before[..offset];
          return Done(Err(FinishedEarly(offset))), rest;
        case Done(Err(e)) =>
          return Done(Err(ReadExactFailed(e))), rest;
      }
      r := Done(Ok(()));
    }

    /** One read through the buffer of read_to_end: the bytes it brought, or None at
        the end of the stream. */
    method NextChunk(buf: array<Byte>, sched: Schedule)
      returns (r: Poll<Result<Option<seq<Byte>>, ReadError>>, rest: Schedule)
      requires Valid() && world.st.r.pc == RecvReady && buf.Length > 0
      modifies this, world, buf
      ensures Valid() && |rest| <= |sched| && Stopped() == old(Stopped())
      ensures r.Done? ==> world.st.r.pc == RecvReady
      ensures r.Done? && r.value.Ok? && r.value.value.Some? ==>
                0 < |r.value.value.value| <= buf.Length && Got() == old(Got()) + r.value.value.value
      ensures !(r.Done? && r.value.Ok? && r.value.value.Some?) ==> Got() == old(Got())
      ensures r == Done(Ok(None)) ==>
                !Stopped() && !world.st.r.cancelled ==> Got() == world.st.p.accepted && world.st.r.finSeen
      ensures r.Done? && r.value.Err? ==>
                world.st.r.failed == Some(r.value.error) && world.st.r.ended >= old(world.st.r.calls)
      ensures old(world.st.r.calls) <= world.st.r.calls
      ensures r.Pending? ==> Stuck() && rest == []
      ensures world.chances + rest == old(world.chances) + sched
    {
      var n;
      n, rest := Fill(buf, 0, sched);
      match n
      case Pending => r := Pending;
      case Done(Ok(Some(k))) => r := Done(Ok(Some(buf[..k])));
      case Done(Ok(None)) => r := Done(Ok(None));
      case Done(Err(e)) => r := Done(Err(e));
    }

    /** read_to_end: everything that was left, unless that is over the limit. */
    method ReadToEnd(sizeLimit: nat, sched: Schedule)
      returns (r: Poll<Result<seq<Byte>, ReadToEndError>>, rest: Schedule)
      requires Valid() && world.st.r.pc == RecvReady
      modifies this, world
      ensures Valid() && Stopped() == old(Stopped())
      ensures r.Done? && r.value.Ok? ==>
                && |r.value.value| <= sizeLimit
                && Got() == old(Got()) + r.value.value
                && (!Stopped() && !world.st.r.cancelled ==> Got() == world.st.p.accepted && world.st.r.finSeen)
      ensures r == Done(Err(TooLong)) ==> sizeLimit < |Got()| - |old(Got())| <= sizeLimit + CHUNK
      ensures r.Done? && r.value.Err? && r.value.error.ReadToEndFailed? ==>
                world.st.r.failed == Some(r.value.error.cause) && world.st.r.ended >= old(world.st.r.calls)
      ensures r.Pending? ==> Stuck() && rest == []
      ensures old(Got()) <= Got()
      ensures world.chances + rest == old(world.chances) + sched
    {
      rest := sched;
      var data: seq<Byte> := [];
      var buf := new Byte[CHUNK];
      while true
        invariant Valid() && world.st.r.pc == RecvReady && Stopped() == old(Stopped())
        invariant Got() == old(Got()) + data && |data| <= sizeLimit && old(world.st.r.calls) <= world.st.r.calls
        invariant fresh(buf) && buf.Length == CHUNK
        invariant world.chances + rest == old(world.chances) + sched
        decreases sizeLimit - |data|
      {
        var n;
        n, rest := NextChunk(buf, rest);
        match n
        case Pending =>
          return Pending, rest;
        case Done(Ok(Some(chunk))) =>
          data := data + chunk;
          if |data| > sizeLimit {
            return Done(Err(TooLong)), rest;
          }
        case Done(Ok(None)) =>
          return Done(Ok(data)), rest;
        case Done(Err(e)) =>
          return Done(Err(ReadToEndFailed(e))), rest;
      }
    }

    /** stop: issues the one read-shutdown unless all data has been read. */
    method Stop(code: U64) returns (r: Result<(), ()>)
      requires Valid() && world.st.r.pc == RecvReady
      modifies this, world
      ensures Valid() && allDataRead && world.st.r.pc == RecvReady
      ensures r.Ok? <==> !old(allDataRead)
      ensures world.st.r.issued == old(world.st.r.issued) + (if r.Ok? then [ShutdownRead(code)] else [])
    {
      if allDataRead {
        return Err(());
      }
      allDataRead := true;
      world.Step(RecvTask(StopStream(code)));
      r := Ok(());
    }

    /** Drop: unless all data has been read, the peer is told at the latest here. */
    method Drop()
      requires Valid() && world.st.r.pc == RecvReady
      modifies this, world
      ensures allDataRead && world.Valid() && world.st.r.dropped
      ensures world.st.r.finSeen <==> !Stopped()
      ensures world.st.r.issued == old(world.st.r.issued) + (if old(allDataRead) then [] else [ShutdownRead(0)])
    {
      if !allDataRead {
        var _ := Stop(0);
      }
      world.Step(RecvTask(DropRecv));
      RunKeeps(world.states, world.acts, |world.acts|);
    }
  }

  /** Writing n more bytes moves them from the rest of the buffer to the written. */
  lemma NextPart(written: seq<Byte>, buf: seq<Byte>, offset: nat, n: nat)
    requires offset + n <= |buf|
    ensures (written + buf[offset..][..n]) + buf[offset + n..] == written + buf[offset..]
    ensures buf[offset..][n..] == buf[offset + n..]
  {
    assert buf[offset..] == buf[offset..][..n] + buf[offset..][n..];
  }

  /** `buf[from..from + n].copy_from_slice(&data)` */
  method Copy(buf: array<Byte>, from: nat, data: seq<Byte>)
    requires from + |data| <= buf.Length
    modifies buf
    ensures buf[from .. from + |data|] == data
    ensures forall i | 0 <= i < from || from + |data| <= i < buf.Length :: buf[i] == old(buf[i])
  {
    for k := 0 to |data|
      invariant buf[from .. from + k] == data[..k]
      invariant forall i | 0 <= i < from || from + k <= i < buf.Length :: buf[i] == old(buf[i])
    {
      buf[from + k] := data[k];
    }
  }
}
