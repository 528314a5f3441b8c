/** What holds along every run of one stream. */
module StreamTheorems {
  import opened Types
  import opened Engine
  import opened StreamPath
  import opened Traces
  import Parking

  // ------------------------------------------------------------- integrity

  /** At every moment the bytes read are a prefix of the bytes accepted, which
      are a prefix of the bytes passed to the write calls. */
  lemma ReadIsPrefixOfWritten(states: seq<State>, acts: seq<Action>, i: nat)
    requires Run(states, acts) && i < |states|
    requires !states[i].w.cancelled && !states[i].r.cancelled
    ensures states[i].r.got <= states[i].p.accepted
    ensures states[i].w.acked <= states[i].p.accepted
    ensures states[i].w.clean ==> states[i].p.accepted <= states[i].w.offered
  {
    RunKeeps(states, acts, i);
    var s := states[i];
    assert s.r.got == s.p.accepted[..|s.r.got|];
  }

  /** Once a reader has seen the fin, the writer has finished and the reader
      holds every byte that was accepted; if all write calls completed, these
      are exactly the bytes passed to them. */
  lemma FinMeansEverything(states: seq<State>, acts: seq<Action>, i: nat)
    requires Run(states, acts) && i < |states|
    requires !states[i].w.cancelled && !states[i].r.cancelled && states[i].r.finSeen
    ensures states[i].w.finished
    ensures states[i].r.got == states[i].p.accepted == states[i].w.acked
    ensures states[i].w.clean && states[i].w.pc.rem == [] ==> states[i].r.got == states[i].w.offered
  {
    RunKeeps(states, acts, i);
  }

  ghost predicate Later(s: State, t: State) {
    && s.r.got <= t.r.got
    && s.p.accepted <= t.p.accepted
    && (s.w.finished ==> t.w.issued == s.w.issued && t.w.finished)
    && s.w.issued <= t.w.issued
    && s.r.issued <= t.r.issued
    && (s.r.allDataRead ==> t.r.allDataRead && t.r.issued == s.r.issued && t.r.got == s.r.got)
    && (s.w.closed.Some? ==> t.w.closed == s.w.closed)
    && (s.r.closed.Some? ==> t.r.closed == s.r.closed)
  }

  lemma SendTaskLater(w: Sender, p: Pipe, a: SendTaskStep)
    requires SendInv(w, p) && SendTaskEnabled(w, a)
    ensures var w' := SendTaskNext(w, a);
            && (w.finished ==> w'.issued == w.issued && w'.finished)
            && w.issued <= w'.issued
            && w'.closed == w.closed
  {
  }

  lemma RecvTaskLater(r: Receiver, p: Pipe, a: RecvTaskStep)
    requires PipeInv(p) && RecvInv(r, p) && RecvTaskEnabled(r, a)
    ensures var r' := RecvTaskNext(r, a);
            && r.got <= r'.got && r.issued <= r'.issued
            && (r.allDataRead ==> r'.allDataRead && r'.issued == r.issued && r'.got == r.got)
            && r'.closed == r.closed
  {
  }

  lemma StepLater(s: State, a: Action)
    requires Inv(s) && Enabled(s, a)
    ensures Later(s, Next(s, a))
  {
    match a
    case SendTask(t) => SendTaskLater(s.w, s.p, t);
    case SendSide(t) => SendSideKeeps(s.w, s.p, t);
    case RecvTask(t) => RecvTaskLater(s.r, s.p, t);
    case RecvSide(t) =>
  }

  /** Reads only append, commands only append, and neither half says anything
      after its terminal command. */
  lemma {:induction false} RunsOnlyGrow(states: seq<State>, acts: seq<Action>, i: nat, j: nat)
    requires Run(states, acts) && i <= j < |states|
    ensures Later(states[i], states[j])
    decreases j - i
  {
    if i < j {
      RunsOnlyGrow(states, acts, i, j - 1);
      RunKeeps(states, acts, j - 1);
      StepLater(states[j - 1], acts[j - 1]);
    }
  }

  /** What a `read_to_end` returns: between its first step (state i) and the
      state j in which the fin has been seen, the reader has received all the
      bytes it did not have yet, in order, each exactly once. */
  lemma ReadToEndReturnsTheRest(states: seq<State>, acts: seq<Action>, i: nat, j: nat)
    requires Run(states, acts) && i <= j < |states|
    requires !states[j].w.cancelled && !states[j].r.cancelled && states[j].r.finSeen
    requires states[j].w.clean && states[j].w.pc.rem == []
    ensures states[i].r.got <= states[j].r.got == states[j].w.offered
    ensures states[j].r.got == states[i].r.got + states[j].w.offered[|states[i].r.got|..]
  {
    RunsOnlyGrow(states, acts, i, j);
    FinMeansEverything(states, acts, j);
  }

  // --------------------------------------------------------------- wakeups

  /** A `read` parked in `wait_readable` without a notification: no permit is
      stored, no readable callback has run since the empty answer of step m, and the
      engine holds nothing for the stream unless its callback is due before any
      other command. */
  lemma NoLostReadable(states: seq<State>, acts: seq<Action>, i: nat) returns (m: nat)
    requires Run(states, acts) && i < |states|
    requires states[i].r.wait.pc == Parking.Parked && !Parking.Notified(states[i].r.wait)
    ensures !states[i].r.wait.notify.permit
    ensures m < i && AnswersNothing(states[m], acts[m], true) && forall k | m < k < i :: !CallsBack(acts[k], true)
    ensures !states[i].r.wait.owed ==>
              states[i].p.delivered == states[i].p.consumed && (states[i].p.finDelivered ==> states[i].p.finRead)
    ensures RecvTaskEnabled(Next(states[i], RecvSide(ReadableCallback)).r, RecvWake)
  {
    RunKeeps(states, acts, i);
    var s := states[i];
    Parking.NoLostWakeup(s.r.wait, Readable(s.p), EmptyReadReply(s.r));
    m := ParkedSinceAnEmptyAnswer(states, acts, i, true);
  }

  /** The same for a `write` parked in `wait_writable`. */
  lemma NoLostWritable(states: seq<State>, acts: seq<Action>, i: nat) returns (m: nat)
    requires Run(states, acts) && i < |states|
    requires states[i].w.wait.pc == Parking.Parked && !Parking.Notified(states[i].w.wait)
    ensures !states[i].w.wait.notify.permit
    ensures m < i && AnswersNothing(states[m], acts[m], false) && forall k | m < k < i :: !CallsBack(acts[k], false)
    ensures !states[i].w.wait.owed ==> states[i].p.capacity == 0
    ensures SendTaskEnabled(Next(states[i], SendSide(WritableCallback)).w, SendWake)
  {
    RunKeeps(states, acts, i);
    var s := states[i];
    Parking.NoLostWakeup(s.w.wait, s.p.capacity > 0, EmptyWriteReply(s.w));
    m := ParkedSinceAnEmptyAnswer(states, acts, i, false);
  }

  predicate CallsBack(a: Action, reading: bool) {
    if reading then a == RecvSide(ReadableCallback) else a == SendSide(WritableCallback)
  }

  function WaitOf(s: State, reading: bool): Parking.Wait {
    if reading then s.r.wait else s.w.wait
  }

  lemma SendTaskPays(w: Sender, a: SendTaskStep)
    requires SendTaskEnabled(w, a)
    ensures Parking.Paid(w.wait, SendTaskNext(w, a).wait, 0)
  {
    Parking.TaskPays(w.wait, w.closed.Some?);
    match a
    case TakeWriteReply =>
    case SendCheckClosed =>
    case SendPollNotified =>
    case SendWake =>
    case SendRecheck =>
    case CancelWrite =>
    case _ => assert SendTaskNext(w, a).wait == w.wait;
  }

  lemma SendSidePays(w: Sender, p: Pipe, a: SendSideStep)
    requires SendSideEnabled(w, p, a)
    ensures Parking.Paid(w.wait, SendSideNext(w, p, a).0.wait, if a == WritableCallback then 1 else 0)
  {
    Parking.EnginePays(w.wait);
  }

  lemma RecvTaskPays(r: Receiver, a: RecvTaskStep)
    requires RecvTaskEnabled(r, a)
    ensures Parking.Paid(r.wait, RecvTaskNext(r, a).wait, 0)
  {
    Parking.TaskPays(r.wait, r.closed.Some?);
    match a
    case TakeReadReply =>
    case RecvCheckClosed =>
    case RecvPollNotified =>
    case RecvWake =>
    case RecvRecheck =>
    case CancelRead =>
    case _ => assert RecvTaskNext(r, a).wait == r.wait;
  }

  lemma RecvSidePays(r: Receiver, p: Pipe, a: RecvSideStep)
    requires RecvSideEnabled(r, p, a)
    ensures Parking.Paid(r.wait, RecvSideNext(r, p, a).0.wait, if a == ReadableCallback then 1 else 0)
  {
    Parking.EnginePays(r.wait);
  }

  lemma StepPays(s: State, a: Action, reading: bool)
    requires Enabled(s, a)
    ensures Parking.Paid(WaitOf(s, reading), WaitOf(Next(s, a), reading), if CallsBack(a, reading) then 1 else 0)
  {
    match a
    case SendTask(t) => SendTaskPays(s.w, t);
    case SendSide(t) => SendSidePays(s.w, s.p, t);
    case RecvTask(t) => RecvTaskPays(s.r, t);
    case RecvSide(t) => RecvSidePays(s.r, s.p, t);
  }

  /** How many waits of a half ended between two moments of a run, and how many of
      its callbacks ran. */
  function WaitsEnded(states: seq<State>, i: nat, j: nat, reading: bool): nat
    requires i <= j < |states|
    decreases j
  {
    if i == j then 0
    else
      WaitsEnded(states, i, j - 1, reading) +
      (if Parking.Ends(WaitOf(states[j - 1], reading), WaitOf(states[j], reading)) then 1 else 0)
  }

  function Callbacks(acts: seq<Action>, i: nat, j: nat, reading: bool): nat
    requires i <= j <= |acts|
    decreases j
  {
    if i == j then 0 else Callbacks(acts, i, j - 1, reading) + (if CallsBack(acts[j - 1], reading) then 1 else 0)
  }

  lemma {:induction false} PaidAlong(states: seq<State>, acts: seq<Action>, i: nat, j: nat, reading: bool)
    requires |states| == |acts| + 1 && i <= j < |states|
    requires forall k | 0 <= k < |acts| ::
               Parking.Paid(WaitOf(states[k], reading), WaitOf(states[k + 1], reading),
                   if CallsBack(acts[k], reading) then 1 else 0)
    ensures WaitsEnded(states, i, j, reading) + Parking.Held(WaitOf(states[j], reading))
              <= Parking.Held(WaitOf(states[i], reading)) + Callbacks(acts, i, j, reading)
    decreases j
  {
    if i < j {
      PaidAlong(states, acts, i, j - 1, reading);
      assert Parking.Paid(WaitOf(states[j - 1], reading), WaitOf(states[j - 1 + 1], reading),
                          if CallsBack(acts[j - 1], reading) then 1 else 0);
    }
  }

  /** Outside every call of the half's handle. */
  predicate Outside(s: State, reading: bool) {
    if reading then s.r.pc.RecvReady? else s.w.pc.SendReady?
  }

  /** Between any two moments of a run, the waits that end are paid for by the
      notification held at the first, at most one, and by the callbacks since. So a
      call of `read` or `write` goes through at most one round more than there are
      callbacks during it, however many callbacks ran before it began. */
  lemma RoundsArePaidFor(states: seq<State>, acts: seq<Action>, i: nat, j: nat, reading: bool)
    requires Run(states, acts) && i <= j < |states|
    ensures WaitsEnded(states, i, j, reading) + Parking.Held(WaitOf(states[j], reading))
              <= Parking.Held(WaitOf(states[i], reading)) + Callbacks(acts, i, j, reading)
    ensures Outside(states[i], reading) ==> WaitsEnded(states, i, j, reading) <= 1 + Callbacks(acts, i, j, reading)
  {
    forall k | 0 <= k < |acts|
      ensures Parking.Paid(WaitOf(states[k], reading), WaitOf(states[k + 1], reading),
                if CallsBack(acts[k], reading) then 1 else 0)
    {
      StepPays(states[k], acts[k], reading);
    }
    PaidAlong(states, acts, i, j, reading);
    RunKeeps(states, acts, i);
  }

  // --------------------------------------------------------------- grammar

  /** Send half: data writes and priority changes, then at most one fin or
      write-shutdown, which is there exactly when the handle is finished and has
      been issued by the drop at the latest. */
  lemma SendCommandsFollowGrammar(states: seq<State>, acts: seq<Action>, i: nat)
    requires Run(states, acts) && i < |states|
    ensures var w := states[i].w;
            && (forall k | 0 <= k < |w.issued| - 1 :: DataWrite(w.issued[k]) || w.issued[k].SetPriority?)
            && (w.finished <==> w.issued != [] && Terminal(w.issued[|w.issued| - 1]))
            && (w.dropped ==> w.finished)
  {
    RunKeeps(states, acts, i);
  }

  /** Receive half: reads, then at most one read-shutdown; a dropped handle has
      either seen the fin or sent the shutdown, never both. */
  lemma RecvCommandsFollowGrammar(states: seq<State>, acts: seq<Action>, i: nat)
    requires Run(states, acts) && i < |states|
    ensures var r := states[i].r;
            && (forall k | 0 <= k < |r.issued| - 1 :: r.issued[k].Read?)
            && (r.dropped ==> (r.finSeen <==> !StopIssued(r.issued)))
            && !(r.finSeen && StopIssued(r.issued))
  {
    RunKeeps(states, acts, i);
  }

  /** What a step of the sending task puts into the queue. */
  function SendIssues(w: Sender, t: SendTaskStep): seq<SendCmd> {
    match t
    case SendWrite => [Write(w.pc.rem, false, w.calls)]
    case Finish => [Write([], true, w.calls)]
    case ResetStream(code) => [ShutdownWrite(code)]
    case Prioritize(priority) => [SetPriority(Clamp(priority))]
    case DropSend => if w.finished then [] else [Write([], true, w.calls)]
    case _ => []
  }

  function RecvIssues(r: Receiver, t: RecvTaskStep): seq<RecvCmd> {
    match t
    case SendRead(maxLen) => [Read(maxLen, r.calls)]
    case StopStream(code) => [ShutdownRead(code)]
    case DropRecv => if r.allDataRead then [] else [ShutdownRead(0)]
    case _ => []
  }

  /** Along every run the queues receive exactly these commands, from nobody else; a
      handle that is dropped unfinished ends its half with the fin write, one that is
      dropped unread with a read-shutdown of code 0. */
  lemma StepsIssue(states: seq<State>, acts: seq<Action>, n: nat)
    requires Run(states, acts) && n < |acts|
    ensures states[n + 1].w.issued ==
              states[n].w.issued + (if acts[n].SendTask? then SendIssues(states[n].w, acts[n].sendTask) else [])
    ensures states[n + 1].r.issued ==
              states[n].r.issued + (if acts[n].RecvTask? then RecvIssues(states[n].r, acts[n].recvTask) else [])
  {
    match acts[n]
    case SendTask(t) => SendStepIssues(states[n].w, t);
    case RecvTask(t) => RecvStepIssues(states[n].r, t);
    case _ =>
    assert states[n].w.issued + [] == states[n].w.issued && states[n].r.issued + [] == states[n].r.issued;
  }

  lemma SendStepIssues(w: Sender, t: SendTaskStep)
    requires SendTaskEnabled(w, t)
    ensures SendTaskNext(w, t).issued == w.issued + SendIssues(w, t)
  {
    assert w.issued + [] == w.issued;
  }

  lemma RecvStepIssues(r: Receiver, t: RecvTaskStep)
    requires RecvTaskEnabled(r, t)
    ensures RecvTaskNext(r, t).issued == r.issued + RecvIssues(r, t)
  {
    assert r.issued + [] == r.issued;
  }

  // ------------------------------------------------------------------- fin

  /** The step processes a send command without losing it, and the engine does not
      refuse a write. */
  predicate SendsWell(s: State, a: Action) {
    a.SendSide? ==>
      && !a.sendSide.LoseSend?
      && (a.sendSide.ProcessSend? && s.w.done < |s.w.issued| && s.w.issued[s.w.done].Write? ==>
            a.sendSide.wa.Some? && (a.sendSide.wa.value.Wrote? || a.sendSide.wa.value.WriteDone?))
  }

  /** The engine knows of the fin as soon as the fin write has been processed. */
  ghost predicate FinKnown(s: State) {
    0 < s.w.done <= |s.w.issued| && s.w.issued[s.w.done - 1].Write? && s.w.issued[s.w.done - 1].fin ==> s.p.fin
  }

  lemma StepKeepsFin(s: State, a: Action)
    requires Inv(s) && Enabled(s, a) && SendsWell(s, a) && FinKnown(s)
    ensures FinKnown(Next(s, a))
  {
    if a.SendTask? {
      assert s.w.issued <= SendTaskNext(s.w, a.sendTask).issued;
    }
  }

  lemma {:induction false} FinAlong(states: seq<State>, acts: seq<Action>, n: nat)
    requires |states| == |acts| + 1 && n < |states| && FinKnown(states[0])
    requires forall k | 0 <= k < n :: FinKnown(states[k]) ==> FinKnown(states[k + 1])
    ensures FinKnown(states[n])
  {
    if n > 0 {
      FinAlong(states, acts, n - 1);
      assert FinKnown(states[n - 1]) ==> FinKnown(states[n - 1 + 1]);
    }
  }

  /** If nothing was lost or refused, a half that ended with a fin write and whose
      commands have all been processed has told the engine of the fin. */
  lemma FinishReachesTheEngine(states: seq<State>, acts: seq<Action>, n: nat)
    requires Run(states, acts) && n < |states|
    requires forall k | 0 <= k < n :: SendsWell(states[k], acts[k])
    requires var w := states[n].w;
             w.done == |w.issued| && w.issued != [] && w.issued[|w.issued| - 1].Write? && w.issued[|w.issued| - 1].fin
    ensures states[n].p.fin
  {
    forall k | 0 <= k < n && FinKnown(states[k]) ensures FinKnown(states[k + 1]) {
      RunKeeps(states, acts, k);
      StepKeepsFin(states[k], acts[k]);
    }
    FinAlong(states, acts, n);
  }

  // ---------------------------------------------------------------- errors

  /** How the bridge has dealt with a command that awaits a reply. */
  datatype Served<T> = Answered(answer: Option<T>) | Lost

  /** What the sending bridge has done with the write commands in the first n steps,
      each given by its number. */
  function WritesServed(states: seq<State>, acts: seq<Action>, n: nat): set<(nat, Served<WriteAnswer>)>
    requires n <= |acts| <= |states|
  {
    if n == 0 then {} else WritesServed(states, acts, n - 1) + WriteServed(states[n - 1], acts[n - 1])
  }

  function WriteServed(s: State, a: Action): set<(nat, Served<WriteAnswer>)> {
    if !a.SendSide? || s.w.done >= |s.w.issued| || !s.w.issued[s.w.done].Write? then
      {}
    else
      match a.sendSide
      case ProcessSend(wa) => {(s.w.issued[s.w.done].call, Answered(wa))}
      case LoseSend => {(s.w.issued[s.w.done].call, Lost)}
      case _ => {}
  }

  /** The engine answered the command that its stream was stopped, with a code that
      is n up to 32 bits. */
  ghost predicate StoppedWith(given: set<(nat, Served<WriteAnswer>)>, call: nat, n: int) {
    exists code: U64 :: (call, Answered(Some(StreamStopped(code)))) in given && SameLow(code, n)
  }

  predicate SameLow(code: U64, n: int) {
    0 <= n < TWO_32 && (code - n) % TWO_32 == 0
  }

  /** Where a write error comes from: what the engine answered to that very command,
      the loss of that command, or the close cell. */
  ghost predicate WriteErrorGiven(given: set<(nat, Served<WriteAnswer>)>, call: nat, closed: Option<ConnectionError>,
      e: WriteError) {
    match e
    case Stopped(n) => StoppedWith(given, call, n)
    case WriteClosedStream => (call, Answered(Some(WriteFailed))) in given
    case WriteConnectionLost(cause) =>
      || closed == Some(cause)
      || (cause == LocallyClosed && ((call, Answered(None)) in given || (call, Lost) in given))
  }

  ghost predicate WriteReplyGiven(given: set<(nat, Served<WriteAnswer>)>, call: nat, reply: Reply<WriteReply>) {
    match reply
    case Answer(v) => exists wa :: (call, Answered(wa)) in given && ReportsWrite(v, wa)
    case Gone => (call, Lost) in given
  }

  ghost predicate WriteTraced(w: Sender, given: set<(nat, Served<WriteAnswer>)>) {
    && (w.slot.Some? ==> w.pc.SendAwait? && WriteReplyGiven(given, w.pc.call, w.slot.value))
    && (!w.pc.SendReady? ==> w.failed == None)
    && (w.failed.Some? ==> WriteErrorGiven(given, w.ended, w.closed, w.failed.value))
  }

  lemma WriteTracedLater(w: Sender, given: set<(nat, Served<WriteAnswer>)>, more: set<(nat, Served<WriteAnswer>)>)
    requires WriteTraced(w, given) && given <= more
    ensures WriteTraced(w, more)
  {
    if w.slot.Some? && w.slot.value.Answer? {
      var wa :| (w.pc.call, Answered(wa)) in given && ReportsWrite(w.slot.value.value, wa);
      assert (w.pc.call, Answered(wa)) in more;
    }
    if w.failed.Some? && w.failed.value.Stopped? {
      var code: U64 :| (w.ended, Answered(Some(StreamStopped(code)))) in given && SameLow(code, w.failed.value.code);
      assert (w.ended, Answered(Some(StreamStopped(code)))) in more;
    }
  }

  lemma SendTaskTraces(w: Sender, t: SendTaskStep, given: set<(nat, Served<WriteAnswer>)>)
    requires WriteTraced(w, given) && SendTaskEnabled(w, t)
    ensures WriteTraced(SendTaskNext(w, t), given)
  {
    if t.TakeWriteReply? {
      TakeWriteTraces(w, given);
    } else {
      var w' := SendTaskNext(w, t);
      assert w'.failed in {None, w.failed, LostIfClosed(w)} && w'.closed == w.closed && w'.ended == w.ended;
    }
  }

  lemma ErrorReplyIsGiven(given: set<(nat, Served<WriteAnswer>)>, call: nat, closed: Option<ConnectionError>,
      e: WriteError)
    requires WriteReplyGiven(given, call, Answer(Err(e)))
    ensures WriteErrorGiven(given, call, closed, e)
  {
    var wa :| (call, Answered(wa)) in given && ReportsWrite(Err(e), wa);
    if e.Stopped? {
      assert SameLow(wa.value.code, e.code);
    }
  }

  lemma TakeWriteTraces(w: Sender, given: set<(nat, Served<WriteAnswer>)>)
    requires WriteTraced(w, given) && w.slot.Some? && w.pc.SendAwait?
    ensures WriteTraced(OnWriteReply(w), given)
  {
    if w.slot.value.Answer? && w.slot.value.value.Err? {
      ErrorReplyIsGiven(given, w.pc.call, w.closed, w.slot.value.value.error);
    }
  }

  lemma SendSideTraces(s: State, t: SendSideStep, given: set<(nat, Served<WriteAnswer>)>)
    requires WriteTraced(s.w, given) && SendSideEnabled(s.w, s.p, t)
    ensures WriteTraced(SendSideNext(s.w, s.p, t).0, given + WriteServed(s, SendSide(t)))
  {
    var w', more := SendSideNext(s.w, s.p, t).0, given + WriteServed(s, SendSide(t));
    WriteTracedLater(s.w, given, more);
    if w'.slot != s.w.slot {
      WriteSlotIsGiven(s, t, more);
    }
  }

  lemma WriteSlotIsGiven(s: State, t: SendSideStep, more: set<(nat, Served<WriteAnswer>)>)
    requires SendSideEnabled(s.w, s.p, t) && WriteServed(s, SendSide(t)) <= more
    requires SendSideNext(s.w, s.p, t).0.slot != s.w.slot
    ensures var w' := SendSideNext(s.w, s.p, t).0;
            w'.slot.Some? && w'.pc.SendAwait? && WriteReplyGiven(more, w'.pc.call, w'.slot.value)
  {
    if t.ProcessSend? {
      assert (s.w.pc.call, Answered(t.wa)) in WriteServed(s, SendSide(t));
    } else {
      assert (s.w.pc.call, Lost) in WriteServed(s, SendSide(t));
    }
  }

  /** The same for the receiving side. */
  function ReadsServed(states: seq<State>, acts: seq<Action>, n: nat): set<(nat, Served<ReadAnswer>)>
    requires n <= |acts| <= |states|
  {
    if n == 0 then {} else ReadsServed(states, acts, n - 1) + ReadServed(states[n - 1], acts[n - 1])
  }

  function ReadServed(s: State, a: Action): set<(nat, Served<ReadAnswer>)> {
    if !a.RecvSide? || s.r.done >= |s.r.issued| || !s.r.issued[s.r.done].Read? then
      {}
    else
      match a.recvSide
      case ProcessRecv(ra) => {(s.r.issued[s.r.done].call, Answered(ra))}
      case LoseRecv => {(s.r.issued[s.r.done].call, Lost)}
      case _ => {}
  }

  ghost predicate ResetWith(given: set<(nat, Served<ReadAnswer>)>, call: nat, n: int) {
    exists code: U64 :: (call, Answered(Some(StreamReset(code)))) in given && SameLow(code, n)
  }

  ghost predicate ReadErrorGiven(given: set<(nat, Served<ReadAnswer>)>, call: nat, closed: Option<ConnectionError>,
      e: ReadError) {
    match e
    case ResetByPeer(n) => ResetWith(given, call, n)
    case ReadClosedStream => (call, Answered(Some(ReadFailed))) in given
    case ReadConnectionLost(cause) =>
      || closed == Some(cause)
      || (cause == LocallyClosed && ((call, Answered(None)) in given || (call, Lost) in given))
  }

  ghost predicate ReadReplyGiven(given: set<(nat, Served<ReadAnswer>)>, call: nat, reply: Reply<ReadReply>) {
    match reply
    case Answer(v) => exists ra :: (call, Answered(ra)) in given && ReportsRead(v, ra)
    case Gone => (call, Lost) in given
  }

  ghost predicate ReadTraced(r: Receiver, given: set<(nat, Served<ReadAnswer>)>) {
    && (r.slot.Some? ==> r.pc.RecvAwait? && ReadReplyGiven(given, r.pc.call, r.slot.value))
    && (!r.pc.RecvReady? ==> r.failed == None)
    && (r.failed.Some? ==> ReadErrorGiven(given, r.ended, r.closed, r.failed.value))
  }

  lemma ReadTracedLater(r: Receiver, given: set<(nat, Served<ReadAnswer>)>, more: set<(nat, Served<ReadAnswer>)>)
    requires ReadTraced(r, given) && given <= more
    ensures ReadTraced(r, more)
  {
    if r.slot.Some? && r.slot.value.Answer? {
      var ra :| (r.pc.call, Answered(ra)) in given && ReportsRead(r.slot.value.value, ra);
      assert (r.pc.call, Answered(ra)) in more;
    }
    if r.failed.Some? && r.failed.value.ResetByPeer? {
      var code: U64 :| (r.ended, Answered(Some(StreamReset(code)))) in given && SameLow(code, r.failed.value.code);
      assert (r.ended, Answered(Some(StreamReset(code)))) in more;
    }
  }

  lemma RecvTaskTraces(r: Receiver, t: RecvTaskStep, given: set<(nat, Served<ReadAnswer>)>)
    requires ReadTraced(r, given) && RecvTaskEnabled(r, t)
    ensures ReadTraced(RecvTaskNext(r, t), given)
  {
    if t.TakeReadReply? {
      TakeReadTraces(r, given);
    } else {
      var r' := RecvTaskNext(r, t);
      assert r'.failed in {None, r.failed, CutIfClosed(r)} && r'.closed == r.closed && r'.ended == r.ended;
    }
  }

  lemma ReadErrorReplyIsGiven(given: set<(nat, Served<ReadAnswer>)>, call: nat, closed: Option<ConnectionError>,
      e: ReadError)
    requires ReadReplyGiven(given, call, Answer(Err(e)))
    ensures ReadErrorGiven(given, call, closed, e)
  {
    var ra :| (call, Answered(ra)) in given && ReportsRead(Err(e), ra);
    if e.ResetByPeer? {
      assert SameLow(ra.value.code, e.code);
    }
  }

  lemma TakeReadTraces(r: Receiver, given: set<(nat, Served<ReadAnswer>)>)
    requires ReadTraced(r, given) && r.slot.Some? && r.pc.RecvAwait?
    ensures ReadTraced(OnReadReply(r), given)
  {
    if r.slot.value.Answer? && r.slot.value.value.Err? {
      ReadErrorReplyIsGiven(given, r.pc.call, r.closed, r.slot.value.value.error);
    }
  }

  lemma RecvSideTraces(s: State, t: RecvSideStep, given: set<(nat, Served<ReadAnswer>)>)
    requires ReadTraced(s.r, given) && RecvSideEnabled(s.r, s.p, t)
    ensures ReadTraced(RecvSideNext(s.r, s.p, t).0, given + ReadServed(s, RecvSide(t)))
  {
    var r', more := RecvSideNext(s.r, s.p, t).0, given + ReadServed(s, RecvSide(t));
    ReadTracedLater(s.r, given, more);
    if r'.slot != s.r.slot {
      ReadSlotIsGiven(s, t, more);
    }
  }

  lemma ReadSlotIsGiven(s: State, t: RecvSideStep, more: set<(nat, Served<ReadAnswer>)>)
    requires RecvSideEnabled(s.r, s.p, t) && ReadServed(s, RecvSide(t)) <= more
    requires RecvSideNext(s.r, s.p, t).0.slot != s.r.slot
    ensures var r' := RecvSideNext(s.r, s.p, t).0;
            r'.slot.Some? && r'.pc.RecvAwait? && ReadReplyGiven(more, r'.pc.call, r'.slot.value)
  {
    if t.ProcessRecv? {
      assert (s.r.pc.call, Answered(t.ra)) in ReadServed(s, RecvSide(t));
    } else {
      assert (s.r.pc.call, Lost) in ReadServed(s, RecvSide(t));
    }
  }

  lemma StepTraces(s: State, a: Action, wrote: set<(nat, Served<WriteAnswer>)>, read: set<(nat, Served<ReadAnswer>)>)
    requires WriteTraced(s.w, wrote) && ReadTraced(s.r, read) && Enabled(s, a)
    ensures WriteTraced(Next(s, a).w, wrote + WriteServed(s, a))
    ensures ReadTraced(Next(s, a).r, read + ReadServed(s, a))
  {
    WriteTracedLater(s.w, wrote, wrote + WriteServed(s, a));
    ReadTracedLater(s.r, read, read + ReadServed(s, a));
    match a
    case SendTask(t) => SendTaskTraces(s.w, t, wrote + WriteServed(s, a));
    case SendSide(t) => SendSideTraces(s, t, wrote);
    case RecvTask(t) => RecvTaskTraces(s.r, t, read + ReadServed(s, a));
    case RecvSide(t) => RecvSideTraces(s, t, read);
  }

  lemma {:induction false} RunTraces(states: seq<State>, acts: seq<Action>, n: nat)
    requires Run(states, acts) && n < |states|
    ensures WriteTraced(states[n].w, WritesServed(states, acts, n))
    ensures ReadTraced(states[n].r, ReadsServed(states, acts, n))
  {
    if n > 0 {
      RunTraces(states, acts, n - 1);
      StepTraces(states[n - 1], acts[n - 1], WritesServed(states, acts, n - 1), ReadsServed(states, acts, n - 1));
    }
  }

  /** No handle makes up an error. In every state of every run, the error that ended
      the latest write or read says what the engine answered to that very command - a
      stop or reset with its code up to 32 bits, a failure, a connection that is gone
      - or stands for that command having been lost, or is the published close
      reason. */
  lemma ErrorsAreTrue(states: seq<State>, acts: seq<Action>, n: nat)
    requires Run(states, acts) && n < |states|
    ensures var w := states[n].w;
            w.failed.Some? ==> WriteErrorGiven(WritesServed(states, acts, n), w.ended, w.closed, w.failed.value)
    ensures var r := states[n].r;
            r.failed.Some? ==> ReadErrorGiven(ReadsServed(states, acts, n), r.ended, r.closed, r.failed.value)
  {
    RunTraces(states, acts, n);
  }

  // ------------------------------------------------------- where waits come from

  /** The step answers a command of the half with nothing and leaves its owner to
      wait. */
  predicate AnswersNothing(s: State, a: Action, reading: bool) {
    if reading then
      && a.RecvSide? && a.recvSide.ProcessRecv? && s.r.done < |s.r.issued| && s.r.issued[s.r.done].Read?
      && (a.recvSide.ra == Some(ReadDone) || a.recvSide.ra == Some(Gave([], false)))
    else
      && a.SendSide? && a.sendSide.ProcessSend? && s.w.done < |s.w.issued| && s.w.issued[s.w.done].Write?
      && (a.sendSide.wa == Some(WriteDone) || a.sendSide.wa == Some(Wrote(0)))
  }

  lemma StepWants(s: State, a: Action, reading: bool)
    requires Enabled(s, a) && WaitOf(Next(s, a), reading).want
    ensures AnswersNothing(s, a, reading) || (WaitOf(s, reading).want && !CallsBack(a, reading))
  {
    if a.SendSide? && !reading {
      SendSideWants(s, a.sendSide);
    } else if a.RecvSide? && reading {
      RecvSideWants(s, a.recvSide);
    }
  }

  lemma SendSideWants(s: State, t: SendSideStep)
    requires SendSideEnabled(s.w, s.p, t) && SendSideNext(s.w, s.p, t).0.wait.want
    ensures AnswersNothing(s, SendSide(t), false) || (s.w.wait.want && t != WritableCallback)
  {
  }

  lemma RecvSideWants(s: State, t: RecvSideStep)
    requires RecvSideEnabled(s.r, s.p, t) && RecvSideNext(s.r, s.p, t).0.wait.want
    ensures AnswersNothing(s, RecvSide(t), true) || (s.r.wait.want && t != ReadableCallback)
  {
  }

  lemma {:induction false} WantedSince(states: seq<State>, acts: seq<Action>, n: nat, reading: bool) returns (m: nat)
    requires |states| == |acts| + 1 && n < |states| && WaitOf(states[n], reading).want
              && !WaitOf(states[0], reading).want
    requires forall k | 0 <= k < |acts| && WaitOf(states[k + 1], reading).want ::
               AnswersNothing(states[k], acts[k], reading) || (WaitOf(states[k], reading).want
                   && !CallsBack(acts[k], reading))
    ensures m < n && AnswersNothing(states[m], acts[m], reading)
    ensures forall k | m < k < n :: !CallsBack(acts[k], reading)
  {
    assert WaitOf(states[n - 1 + 1], reading).want;
    if AnswersNothing(states[n - 1], acts[n - 1], reading) {
      m := n - 1;
    } else {
      m := WantedSince(states, acts, n - 1, reading);
    }
  }

  /** A read or write parked without a notification was answered with nothing at step
      m, and no callback for its half has run since. */
  lemma ParkedSinceAnEmptyAnswer(states: seq<State>, acts: seq<Action>, n: nat, reading: bool) returns (m: nat)
    requires Run(states, acts) && n < |states|
    requires WaitOf(states[n], reading).pc == Parking.Parked && !Parking.Notified(WaitOf(states[n], reading))
    ensures m < n && AnswersNothing(states[m], acts[m], reading)
    ensures forall k | m < k < n :: !CallsBack(acts[k], reading)
  {
    forall k | 0 <= k < |acts| && WaitOf(states[k + 1], reading).want
      ensures AnswersNothing(states[k], acts[k], reading) || (WaitOf(states[k], reading).want
                && !CallsBack(acts[k], reading))
    {
      StepWants(states[k], acts[k], reading);
    }
    RunKeeps(states, acts, n);
    m := WantedSince(states, acts, n, reading);
  }

  predicate SeesClosed(s: State, reading: bool, err: ConnectionError) {
    (if reading then s.r.closed else s.w.closed) == Some(err)
  }

  predicate GivesClosed(a: Action, reading: bool, err: ConnectionError) {
    if reading then a == RecvSide(CloseRecvSide(err)) else a == SendSide(CloseSendSide(err))
  }

  lemma StepCloses(s: State, a: Action, reading: bool, err: ConnectionError)
    requires Enabled(s, a) && SeesClosed(Next(s, a), reading, err)
    ensures SeesClosed(s, reading, err) || GivesClosed(a, reading, err)
  {
  }

  /** The close cell of a half holds what it was given. */
  lemma StreamCloseWasGiven(states: seq<State>, acts: seq<Action>, n: nat, reading: bool, err: ConnectionError)
      returns (m: nat)
    requires Run(states, acts) && n < |states|
    requires SeesClosed(states[n], reading, err) && !SeesClosed(states[0], reading, err)
    ensures m < n && GivesClosed(acts[m], reading, err)
  {
    forall k | 0 <= k < |acts| && SeesClosed(states[k + 1], reading, err)
      ensures SeesClosed(states[k], reading, err) || GivesClosed(acts[k], reading, err)
    {
      StepCloses(states[k], acts[k], reading, err);
    }
    m := Origin(states, acts, n, s => SeesClosed(s, reading, err), (s, a) => GivesClosed(a, reading, err));
  }
}
