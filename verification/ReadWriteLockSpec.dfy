/** The reader/writer lock a client is promised, told by the sets of the threads that hold it. */
module ReadWriteLockSpec {
  datatype Held = Held(readers: set<nat>, writers: set<nat>) {
    function Change(t: nat, asReader: bool, asWriter: bool): Held {
      Held(if asReader then readers + {t} else readers - {t}, if asWriter then writers + {t} else writers - {t})
    }
  }

  datatype Event = Silent | AcquireRead | ReleaseRead | AcquireWrite | ReleaseWrite

  /** A writer shares the lock with nobody. */
  ghost predicate Exclusive(a: Held) {
    a.writers == {} || (a.readers == {} && |a.writers| == 1)
  }

  /** What thread `t` may do to the lock. */
  ghost predicate Allowed(a: Held, e: Event, t: nat, b: Held) {
    match e
    case Silent => b == a
    case AcquireRead => a.writers == {} && t !in a.readers && b == Held(a.readers + {t}, {})
    case ReleaseRead => t in a.readers && b == Held(a.readers - {t}, a.writers)
    case AcquireWrite => a == Held({}, {}) && b == Held({}, {t})
    case ReleaseWrite => a == Held({}, {t}) && b == Held({}, {})
  }
}
