/** What the ready queue, the timers and the event slots hand around. */
module Tasks {

  datatype Option<+T> = None | Some(value: T)

  type FiberId = nat
  type CallId = nat

  /** The two directions an fd can be waited on (READ and WRITE of the event enumeration). */
  datatype Event = READ | WRITE

  /** Callbacks the runtime itself knows apart.
      `UserCb` is application code; `WakeCb` is the timer callback of a hooked
      sleep; `TimeoutCb` is the condition-timer callback of a hooked wait. */
  datatype Callback =
    | UserCb(id: nat)
    | WakeCb(sleeper: FiberId)
    | TimeoutCb(call: CallId, fd: nat, event: Event)

  /** A queued piece of work: a fiber to resume or a callback to run. */
  datatype Task = FiberTask(fiber: FiberId) | CbTask(cb: Callback)

  /** A queue entry with the thread it is pinned to, -1 for none. */
  datatype Entry = Entry(task: Task, thread: int)

  /** States of a fiber. */
  datatype FiberState = INIT | HOLD | EXEC | TERM | READY | EXCPT
}
