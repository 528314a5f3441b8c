/** The two tokio primitives the bridge protocol rests on, as values. */
module Sync {

  type Task = nat

  /** tokio::sync::Notify: at most one stored permit, the futures that exist but
      have not been polled (`armed`), the futures queued as waiters, and the
      futures that have been woken and not yet observed it. */
  datatype Notify = Notify(permit: bool, armed: set<Task>, waiters: seq<Task>, woken: set<Task>) {

    /** `notified()`: the future exists from here on and will see every later
        `notify_waiters`, but takes no permit before it is polled. */
    function Arm(t: Task): Notify {
      this.(armed := armed + {t})
    }

    /** The first poll: a woken future is ready, a stored permit is consumed,
        otherwise the task queues up. */
    function PollFirst(t: Task): Notify {
      if t in woken then
        this
      else if permit then
        this.(permit := false, armed := armed - {t}, woken := woken + {t})
      else
        this.(armed := armed - {t}, waiters := waiters + [t])
    }

    /** `notify_one`: hand the notification to the first waiter, or store it. */
    function NotifyOne(): Notify {
      if waiters == [] then
        this.(permit := true)
      else
        this.(waiters := waiters[1..], woken := woken + {waiters[0]})
    }

    /** `notify_waiters`: wake every future that exists now; store nothing. */
    function NotifyWaiters(): Notify {
      Notify(permit, {}, [], woken + armed + (set t | t in waiters))
    }

    /** The awaiting task observes its wakeup. */
    function Observe(t: Task): Notify {
      this.(woken := woken - {t})
    }
  }

  /** tokio::sync::watch: the value and the number of sends so far. A receiver
      is the version it has last marked as seen; `borrow` marks nothing. */
  datatype Watch<T> = Watch(value: T, version: nat) {
    function Send(v: T): Watch<T> {
      Watch(v, version + 1)
    }

    /** `changed()` is ready for a receiver that last saw `seen`. */
    predicate Changed(seen: nat) {
      version != seen
    }
  }
}
