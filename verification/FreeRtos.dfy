/** The kernel objects the add-ons are built from.

    - A binary semaphore is a `bool`: full or empty. A take waits for it to be full.
    - A mutex is an `Option<nat>`: the thread that owns it, or `None`. Only the owner may give it back.
    - Threads are numbered; thread `i` of a system with `n` threads has `i < n`.
  */
module FreeRtos {
  datatype Option<+T> = None | Some(value: T)

  type Mutex = Option<nat>

  function Bit(b: bool): nat { if b then 1 else 0 }

  /** Mutual exclusion: the owner of the mutex is the one thread at a place `inside` its section. */
  ghost predicate Owned<T>(m: Mutex, at: seq<T>, inside: T -> bool) {
    && (m.Some? ==> m.value < |at|)
    && (forall i :: 0 <= i < |at| ==> (inside(at[i]) <==> m == Some(i)))
  }

  /** A thread enters the section with a take and leaves it with a give. */
  predicate Follows<T>(m: Mutex, t: nat, from: T, to: T, m': Mutex, inside: T -> bool) {
    if inside(from) == inside(to) then m' == m
    else if inside(to) then m == None && m' == Some(t)
    else m' == None
  }

  /** Where the owner of the mutex is. */
  function Owner<T>(m: Mutex, at: seq<T>): Option<T> {
    if m.Some? && m.value < |at| then Some(at[m.value]) else None
  }

  lemma OwnedKept<T>(m: Mutex, at: seq<T>, t: nat, to: T, m': Mutex, inside: T -> bool)
    requires Owned(m, at, inside) && t < |at| && Follows(m, t, at[t], to, m', inside)
    ensures Owned(m', at[t := to], inside)
    ensures Owner(m', at[t := to]) ==
      if inside(to) then Some(to) else if inside(at[t]) then None else Owner(m, at)
    ensures inside(at[t]) ==> Owner(m, at) == Some(at[t])
  {
  }
}
