/** How one stream half waits for the engine: the empty answer, the
    `wait_readable` / `wait_writable` sequence of the handle that owns the half,
    and the callback that ends the wait. Reading and writing use the same
    protocol, so it is stated and proved once, over `ready`: the engine could
    make progress on this half (unread data, or free capacity). */
module Parking {
  import opened Sync

  /** The only task that ever waits on a stream's Notify: the methods that wait
      borrow the handle mutably. */
  const OWNER: Task := 0

  datatype WaitPc =
    | Away      // not inside the wait function
    | Blocked   // got an empty answer, close cell not yet read
    | Armed     // close cell was empty, notified() created, not yet polled
    | Parked    // polled without a permit
    | Woken     // the await has returned, close cell not yet re-read

  /** `want`: the engine answered Done and owes a callback once ready.
      `owed`: it has become ready since, and the callback has not run yet. */
  datatype Wait = Wait(pc: WaitPc, notify: Notify, want: bool, owed: bool)

  /** A fresh wait; a callback may have run before the handle existed. */
  ghost predicate Fresh(w: Wait) {
    && w.pc == Away
    && w.notify.waiters == [] && w.notify.woken == {}
    && !w.want && !w.owed
  }

  // ---- engine side ----

  function AnswerDone(w: Wait): Wait {
    w.(want := true)
  }

  function BecomeReady(w: Wait): Wait {
    w.(owed := w.want)
  }

  /** on_stream_readable / on_stream_writable / on_stream_closed on this half. */
  function Callback(w: Wait): Wait {
    w.(want := false, owed := false, notify := w.notify.NotifyOne())
  }

  // ---- task side, one atomic access each ----

  function Block(w: Wait): Wait {
    w.(pc := Blocked)
  }

  /** First look at the close cell. */
  function CheckClosed(w: Wait, closed: bool): Wait {
    if closed then w.(pc := Away) else w.(pc := Armed, notify := w.notify.Arm(OWNER))
  }

  function PollNotified(w: Wait): Wait {
    var n := w.notify.PollFirst(OWNER);
    if OWNER in n.woken then
      w.(pc := Woken, notify := n.Observe(OWNER))
    else
      w.(pc := Parked, notify := n)
  }

  function Wake(w: Wait): Wait {
    w.(pc := Woken, notify := w.notify.Observe(OWNER))
  }

  function Leave(w: Wait): Wait {
    w.(pc := Away)
  }

  /** Dropping the future that is inside the wait: a queued waiter leaves the
      queue, a delivered but unobserved notification is handed back. */
  function Cancel(w: Wait): Wait {
    var n := w.notify.(armed := w.notify.armed - {OWNER}, waiters := [], woken := w.notify.woken - {OWNER});
    w.(pc := Away, notify := if OWNER in w.notify.woken then n.NotifyOne() else n)
  }

  predicate Notified(w: Wait) {
    OWNER in w.notify.woken
  }

  // ---- invariant ----

  /** Where the task and its Notify stand relative to each other. */
  ghost predicate Placed(w: Wait) {
    if w.pc == Parked then
      || (w.notify.waiters == [OWNER] && w.notify.woken == {} && !w.notify.permit)
      || (w.notify.waiters == [] && w.notify.woken == {OWNER})
    else
      w.notify.waiters == [] && w.notify.woken == {}
  }

  /** An empty answer leaves a way back: a stored permit or an owed callback. */
  predicate Covered(w: Wait) {
    w.notify.permit || w.want
  }

  ghost function Held(w: Wait): nat {
    (if w.notify.permit then 1 else 0) + (if Notified(w) then 1 else 0)
  }

  /** `empty`: the reply slot of the owner holds an empty answer. */
  ghost predicate Inv(w: Wait, ready: bool, empty: bool) {
    && Placed(w)
    && (empty ==> w.pc == Away)
    && (w.want && ready ==> w.owed)
    && (empty || w.pc in {Blocked, Armed} ==> Covered(w))
    && (w.pc == Parked && !Notified(w) ==> w.want)
  }

  /** No lost wakeup. A task parked without a notification holds no permit, the
      engine still owes it a callback, and the engine can make no progress on this
      half unless the callback is the very next thing due. */
  lemma NoLostWakeup(w: Wait, ready: bool, empty: bool)
    requires Inv(w, ready, empty)
    requires w.pc == Parked && !Notified(w)
    ensures !w.notify.permit && w.want
    ensures ready ==> w.owed
    ensures Notified(Callback(w))
  {
    assert w.notify.waiters == [OWNER];
  }

  lemma EngineKeeps(w: Wait, ready: bool, empty: bool)
    requires Inv(w, ready, empty)
    ensures Inv(BecomeReady(w), true, empty)
    ensures Inv(Callback(w), ready, empty)
    ensures !ready ==> Inv(AnswerDone(w), ready, empty)
    ensures !ready && w.pc == Away ==> Inv(AnswerDone(w), ready, true)
  {
    var n := w.notify.NotifyOne();
    assert w.notify.waiters == [OWNER] ==> n.waiters == [] && n.woken == {OWNER};
  }

  lemma TaskKeeps(w: Wait, ready: bool, closed: bool)
    requires Inv(w, ready, false)
    ensures w.pc == Blocked ==> Inv(CheckClosed(w, closed), ready, false)
    ensures w.pc == Armed ==> Inv(PollNotified(w), ready, false)
    ensures w.pc == Parked && Notified(w) ==> Inv(Wake(w), ready, false)
    ensures w.pc == Woken ==> Inv(Leave(w), ready, false)
  {
    assert w.notify.waiters == [] ==> w.notify.waiters + [OWNER] == [OWNER];
    assert {OWNER} - {OWNER} == {};
  }

  lemma CancelKeeps(w: Wait, ready: bool, empty: bool)
    requires Inv(w, ready, empty)
    ensures Inv(Cancel(w), ready, false)
    ensures Notified(w) ==> Cancel(w).notify.permit
  {
    assert {OWNER} - {OWNER} == {};
  }

  /** The await returns in this step. */
  predicate Ends(a: Wait, b: Wait) {
    a.pc != Woken && b.pc == Woken
  }

  /** A wait ends at the cost of a notification held, and only callbacks bring one. */
  ghost predicate Paid(a: Wait, b: Wait, callbacks: nat) {
    (if Ends(a, b) then 1 else 0) + Held(b) <= Held(a) + callbacks
  }

  lemma EnginePays(w: Wait)
    ensures Paid(w, AnswerDone(w), 0) && Paid(w, BecomeReady(w), 0) && Paid(w, Callback(w), 1)
  {
  }

  lemma TaskPays(w: Wait, closed: bool)
    ensures Paid(w, Block(w), 0) && Paid(w, CheckClosed(w, closed), 0) && Paid(w, PollNotified(w), 0)
    ensures Notified(w) ==> Paid(w, Wake(w), 0)
    ensures Paid(w, Leave(w), 0) && Paid(w, Cancel(w), 0)
  {
  }
}
