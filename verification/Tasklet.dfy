/** Tasklets (ctasklet.cpp): any number of threads and interrupts schedule a tasklet, and one deletes it, while the
    timer daemon runs it. DtorLock is the one token of the protocol.

    Threads are 0 to n - 1 and the timer daemon is thread n. The daemon's command queue is a FIFO that may refuse a
    command; the commands of others are left out. Once CheckForSafeDelete has deleted DtorLock nobody can use it: a
    thread that still tries to has broken its contract, and never moves again.
  */
module Tasklet {
  import opened Counting
  import opened FreeRtos
  import opened Interleavings

  datatype Call = Schedule(parameter: nat) | ScheduleFromISR(parameter: nat) | CheckForSafeDelete

  // What a thread is about to execute; Return(ok) is the return from Schedule or ScheduleFromISR.
  datatype Pc =
    | Idle
    | TakeLock(parameter: nat)
    | TakeLockFromISR(parameter: nat)
    | Pend(parameter: nat)
    | GiveBack
    | Return(ok: bool)
    | TakeForDelete
    | DeleteLock

  datatype Thread = Thread(pc: Pc, todo: seq<Call>, answers: seq<bool>)

  // TaskletAdapterFunction, in the timer daemon.
  datatype Daemon = Waiting | RunTasklet(parameter: nat) | GiveLock

  datatype State = State(
    dtorLock: bool, deleted: bool, pending: seq<nat>, daemon: Daemon, threads: seq<Thread>,
    scheduled: seq<nat>, ran: seq<nat>)   // the parameters of every pended call, and of every run
  {
    function Go(t: nat, pc: Pc): State
      requires t < |threads|
    {
      this.(threads := threads[t := threads[t].(pc := pc)])
    }
  }

  /** The next step: by thread `t`; `accepted` says whether a pend finds room before its timeout. */
  datatype Move = Move(t: nat, accepted: bool)

  function Initial(programs: seq<seq<Call>>): State {
    State(true, false, [], Waiting, seq(|programs|, i requires 0 <= i < |programs| => Thread(Idle, programs[i], [])),
          [], [])
  }

  predicate Enabled(s: State, t: nat) {
    if t == |s.threads| then
      s.daemon.Waiting? ==> s.pending != []
    else
      t < |s.threads| &&
      match s.threads[t].pc
      case Idle => s.threads[t].todo != []
      case TakeLock(_) | TakeForDelete => !s.deleted && s.dtorLock
      case TakeLockFromISR(_) => !s.deleted
      case _ => true
  }

  function DaemonStep(s: State): State
    requires Enabled(s, |s.threads|)
  {
    match s.daemon
    case Waiting => s.(daemon := RunTasklet(s.pending[0]), pending := s.pending[1..])
    case RunTasklet(p) => s.(daemon := GiveLock, ran := s.ran + [p])
    case GiveLock => s.(daemon := Waiting, dtorLock := true)
  }

  function ThreadStep(s: State, t: nat, accepted: bool): State
    requires Enabled(s, t) && t < |s.threads|
  {
    var th := s.threads[t];
    match th.pc
    case Idle =>
      var pc := match th.todo[0]
        case Schedule(p) => TakeLock(p)
        case ScheduleFromISR(p) => TakeLockFromISR(p)
        case CheckForSafeDelete => TakeForDelete;
      s.(threads := s.threads[t := th.(pc := pc, todo := th.todo[1..])])
    case TakeLock(p) => s.Go(t, Pend(p)).(dtorLock := false)
    case TakeLockFromISR(p) => if s.dtorLock then s.Go(t, Pend(p)).(dtorLock := false) else s.Go(t, Return(false))
    case Pend(p) =>
      if accepted then s.Go(t, Return(true)).(pending := s.pending + [p], scheduled := s.scheduled + [p])
      else s.Go(t, GiveBack)
    case GiveBack => s.Go(t, Return(false)).(dtorLock := true)
    case Return(ok) => s.(threads := s.threads[t := th.(pc := Idle, answers := th.answers + [ok])])
    case TakeForDelete => s.Go(t, DeleteLock).(dtorLock := false)
    case DeleteLock => s.Go(t, Idle).(deleted := true)
  }

  function Next(s: State, m: Move): State
    requires Enabled(s, m.t)
  {
    if m.t == |s.threads| then DaemonStep(s) else ThreadStep(s, m.t, m.accepted)
  }

  // ---------- The invariant ----------

  /** Between its take of DtorLock and the pend, the give back or the deletion. */
  predicate Holds(th: Thread) {
    th.pc.Pend? || th.pc.GiveBack? || th.pc.DeleteLock?
  }

  /** The token is in DtorLock, with one thread, with the one pending or executing run, or deleted. */
  ghost predicate OneToken(s: State) {
    Bit(s.dtorLock) + Count(s.threads, Holds) + |s.pending| + Bit(!s.daemon.Waiting?) + Bit(s.deleted) == 1
  }

  function Executing(d: Daemon): seq<nat> {
    if d.RunTasklet? then [d.parameter] else []
  }

  ghost predicate Accounted(s: State) {
    s.scheduled == s.ran + Executing(s.daemon) + s.pending
  }

  function Yes(answers: seq<bool>): nat {
    if answers == [] then 0 else Yes(answers[..|answers| - 1]) + Bit(answers[|answers| - 1])
  }

  /** How often a thread has been, or is about to be, told that its call was scheduled. */
  function Successes(th: Thread): nat {
    Yes(th.answers) + Bit(th.pc == Return(true))
  }

  ghost predicate Invariant(s: State) {
    OneToken(s) && Accounted(s) && |s.scheduled| == Total(s.threads, Successes)
  }

  lemma InvariantInitially(programs: seq<seq<Call>>)
    ensures Invariant(Initial(programs))
  {
    CountNone(Initial(programs).threads, Holds);
    TotalNone(Initial(programs).threads, Successes);
  }

  lemma YesMore(answers: seq<bool>, ok: bool)
    ensures Yes(answers + [ok]) == Yes(answers) + Bit(ok)
  {
    assert (answers + [ok])[..|answers|] == answers;
  }

  lemma ThreadKeepsToken(s: State, t: nat, accepted: bool)
    requires OneToken(s) && Enabled(s, t) && t < |s.threads|
    ensures OneToken(ThreadStep(s, t, accepted))
  {
    CountUpdate(s.threads, t, ThreadStep(s, t, accepted).threads[t], Holds);
    if Holds(s.threads[t]) {
      CountMember(s.threads, t, Holds);
    }
  }

  lemma ThreadAnswers(s: State, t: nat, accepted: bool)
    requires Enabled(s, t) && t < |s.threads|
    ensures var s' := ThreadStep(s, t, accepted);
      && s'.threads == s.threads[t := s'.threads[t]]
      && |s'.scheduled| - |s.scheduled| == Successes(s'.threads[t]) - Successes(s.threads[t])
  {
    if s.threads[t].pc.Return? {
      YesMore(s.threads[t].answers, s.threads[t].pc.ok);
    }
  }

  lemma ThreadKeepsAccount(s: State, t: nat, accepted: bool)
    requires Accounted(s) && Enabled(s, t) && t < |s.threads|
    ensures Accounted(ThreadStep(s, t, accepted))
  {
  }

  lemma InvariantKept(s: State, m: Move)
    requires Invariant(s) && Enabled(s, m.t)
    ensures Invariant(Next(s, m)) && |Next(s, m).threads| == |s.threads|
  {
    if m.t < |s.threads| {
      ThreadKeepsToken(s, m.t, m.accepted);
      ThreadKeepsAccount(s, m.t, m.accepted);
      ThreadAnswers(s, m.t, m.accepted);
      TotalUpdate(s.threads, m.t, Next(s, m).threads[m.t], Successes);
      return;
    }
  }

  // ---------- Whole runs ----------

  ghost predicate Legal(s: State, schedule: seq<Move>)
    decreases |schedule|
  {
    schedule == [] || (Enabled(s, schedule[0].t) && Legal(Next(s, schedule[0]), schedule[1..]))
  }

  ghost function Run(s: State, schedule: seq<Move>): State
    requires Legal(s, schedule)
    decreases |schedule|
  {
    if schedule == [] then s else Run(Next(s, schedule[0]), schedule[1..])
  }

  lemma {:induction false} InvariantAlways(s: State, schedule: seq<Move>)
    requires Invariant(s) && Legal(s, schedule)
    ensures Invariant(Run(s, schedule)) && |Run(s, schedule).threads| == |s.threads|
    decreases |schedule|
  {
    if schedule != [] {
      InvariantKept(s, schedule[0]);
      InvariantAlways(Next(s, schedule[0]), schedule[1..]);
    }
  }

  // ---------- What the threads ask for, and what they are told ----------

  /** How many calls of its program a thread has begun, and from how many it has returned. */
  function Begun(program: seq<Call>, th: Thread): int { |program| - |th.todo| }

  function Returned(program: seq<Call>, th: Thread): int {
    Begun(program, th) - if th.pc.Idle? then 0 else 1
  }

  /** The function that a thread is in is the one that it called. */
  predicate CallOf(pc: Pc, call: Call) {
    match pc
    case Idle => true
    case TakeLock(p) => call == Schedule(p)
    case TakeLockFromISR(p) => call == ScheduleFromISR(p)
    case Pend(p) => !call.CheckForSafeDelete? && call.parameter == p
    case GiveBack | Return(_) => !call.CheckForSafeDelete?
    case TakeForDelete | DeleteLock => call.CheckForSafeDelete?
  }

  function ScheduleCalls(calls: seq<Call>): nat {
    if calls == [] then 0
    else
      var n := |calls| - 1;
      ScheduleCalls(calls[..n]) + if calls[n].CheckForSafeDelete? then 0 else 1
  }

  /** The parameters of the calls of Schedule and ScheduleFromISR that were answered with true. */
  function Granted(calls: seq<Call>, answers: seq<bool>): seq<nat>
    requires |answers| == ScheduleCalls(calls)
  {
    if calls == [] then []
    else
      var n, m := |calls| - 1, |answers| - 1;
      if calls[n].CheckForSafeDelete? then Granted(calls[..n], answers)
      else Granted(calls[..n], answers[..m]) + if answers[m] then [calls[n].parameter] else []
  }

  /** A thread is where its program says, each of its calls of Schedule and ScheduleFromISR has its answer, and it has
      returned from a CheckForSafeDelete only after the deletion of DtorLock.
    */
  ghost predicate InProgram(program: seq<Call>, th: Thread, deleted: bool) {
    && 0 <= Returned(program, th) && program[Begun(program, th)..] == th.todo
    && (!th.pc.Idle? ==> CallOf(th.pc, program[Returned(program, th)]))
    && |th.answers| == ScheduleCalls(program[..Returned(program, th)])
    && (forall k :: 0 <= k < Returned(program, th) && program[k].CheckForSafeDelete? ==> deleted)
  }

  function GrantedTo(program: seq<Call>, th: Thread): seq<nat>
    requires InProgram(program, th, true)
  {
    var n := Returned(program, th);
    Granted(program[..n], th.answers) + if th.pc == Return(true) then [program[n].parameter] else []
  }

  /** What is scheduled are the parameters of the calls that are answered with true: `who` tells whose they are. */
  ghost predicate ScheduledAsTold(programs: seq<seq<Call>>, s: State, who: seq<nat>) {
    && |s.threads| == |programs| && |who| == |s.scheduled|
    && (forall k :: 0 <= k < |who| ==> who[k] < |programs|)
    && (forall t :: 0 <= t < |programs| ==>
          && InProgram(programs[t], s.threads[t], s.deleted)
          && By(s.scheduled, who, t) == GrantedTo(programs[t], s.threads[t]))
  }

  /** A call begins: the next of the program. */
  lemma CallBegins(program: seq<Call>, s: State, t: nat, accepted: bool)
    requires Enabled(s, t) && t < |s.threads| && s.threads[t].pc.Idle? && InProgram(program, s.threads[t], s.deleted)
    ensures var s' := ThreadStep(s, t, accepted);
      && s'.threads == s.threads[t := s'.threads[t]] && s'.scheduled == s.scheduled && s'.deleted == s.deleted
      && InProgram(program, s'.threads[t], s'.deleted)
      && GrantedTo(program, s'.threads[t]) == GrantedTo(program, s.threads[t])
  {
    var n, todo := Begun(program, s.threads[t]), s.threads[t].todo;
    assert program[n] == todo[0] && program[n + 1..] == todo[1..];
  }

  /** A call goes on: only an accepted pend schedules anything, and that call will be answered with true. */
  lemma CallGoesOn(program: seq<Call>, s: State, t: nat, accepted: bool)
    requires Enabled(s, t) && t < |s.threads| && InProgram(program, s.threads[t], s.deleted)
    requires !s.threads[t].pc.Idle? && !s.threads[t].pc.Return? && !s.threads[t].pc.DeleteLock?
    ensures var s', pc := ThreadStep(s, t, accepted), s.threads[t].pc;
      var granted := if pc.Pend? && accepted then [pc.parameter] else [];
      && s'.threads == s.threads[t := s'.threads[t]] && s'.deleted == s.deleted
      && s'.scheduled == s.scheduled + granted
      && InProgram(program, s'.threads[t], s'.deleted)
      && GrantedTo(program, s'.threads[t]) == GrantedTo(program, s.threads[t]) + granted
  {
  }

  /** A call returns. */
  lemma CallReturns(program: seq<Call>, s: State, t: nat, accepted: bool)
    requires Enabled(s, t) && t < |s.threads| && InProgram(program, s.threads[t], s.deleted)
    requires s.threads[t].pc.Return? || s.threads[t].pc.DeleteLock?
    ensures var s' := ThreadStep(s, t, accepted);
      && s'.threads == s.threads[t := s'.threads[t]] && s'.scheduled == s.scheduled && (s.deleted ==> s'.deleted)
      && InProgram(program, s'.threads[t], s'.deleted)
      && GrantedTo(program, s'.threads[t]) == GrantedTo(program, s.threads[t])
  {
    var n, answers := Returned(program, s.threads[t]), s.threads[t].answers;
    assert program[..n + 1][..n] == program[..n];
    assert s.threads[t].pc.Return? ==> (answers + [s.threads[t].pc.ok])[..|answers|] == answers;
  }

  lemma ThreadAsks(program: seq<Call>, s: State, t: nat, accepted: bool)
    requires Enabled(s, t) && t < |s.threads| && InProgram(program, s.threads[t], s.deleted)
    ensures var s', pc := ThreadStep(s, t, accepted), s.threads[t].pc;
      var granted := if pc.Pend? && accepted then [pc.parameter] else [];
      && s'.threads == s.threads[t := s'.threads[t]] && (s.deleted ==> s'.deleted)
      && s'.scheduled == s.scheduled + granted
      && InProgram(program, s'.threads[t], s'.deleted)
      && GrantedTo(program, s'.threads[t]) == GrantedTo(program, s.threads[t]) + granted
  {
    var pc := s.threads[t].pc;
    if pc.Idle? {
      CallBegins(program, s, t, accepted);
      return;
    } else if pc.Return? || pc.DeleteLock? {
      CallReturns(program, s, t, accepted);
      return;
    } else {
      CallGoesOn(program, s, t, accepted);
      return;
    }
  }

  lemma ThreadSchedulesAsTold(programs: seq<seq<Call>>, s: State, who: seq<nat>, t: nat, accepted: bool)
    returns (who': seq<nat>)
    requires ScheduledAsTold(programs, s, who) && Enabled(s, t) && t < |s.threads|
    ensures ScheduledAsTold(programs, ThreadStep(s, t, accepted), who')
  {
    var s', pc := ThreadStep(s, t, accepted), s.threads[t].pc;
    ThreadAsks(programs[t], s, t, accepted);
    if !(pc.Pend? && accepted) {
      return who;
    }
    who' := who + [t];
    forall i | 0 <= i < |programs| ensures By(s'.scheduled, who', i) == GrantedTo(programs[i], s'.threads[i]) {
      ByMore(s.scheduled, who, pc.parameter, t, i);
    }
  }

  lemma {:induction false} ScheduledAsToldAlways(programs: seq<seq<Call>>, s: State, who: seq<nat>,
                                                 schedule: seq<Move>)
    returns (who': seq<nat>)
    requires ScheduledAsTold(programs, s, who) && Legal(s, schedule)
    ensures ScheduledAsTold(programs, Run(s, schedule), who')
    decreases |schedule|
  {
    if schedule == [] {
      return who;
    }
    var m, s' := schedule[0], Next(s, schedule[0]);
    var who1 := who;
    if m.t < |s.threads| {
      who1 := ThreadSchedulesAsTold(programs, s, who, m.t, m.accepted);
    } else {
      assert s'.threads == s.threads && s'.scheduled == s.scheduled && s'.deleted == s.deleted;
    }
    who' := ScheduledAsToldAlways(programs, s', who1, schedule[1..]);
  }

  /** Over every interleaving: what is scheduled are the parameters of exactly those calls that are answered with
      true, each thread's in the order of its program; and no CheckForSafeDelete returns before it has deleted
      DtorLock.
    */
  lemma CallsAreAnswered(programs: seq<seq<Call>>, schedule: seq<Move>) returns (who: seq<nat>)
    requires Legal(Initial(programs), schedule)
    ensures ScheduledAsTold(programs, Run(Initial(programs), schedule), who)
  {
    assert forall t :: 0 <= t < |programs| ==> Initial(programs).threads[t] == Thread(Idle, programs[t], []);
    who := ScheduledAsToldAlways(programs, Initial(programs), [], schedule);
  }

  // ---------- What the token is for ----------

  /** Over every interleaving: at most one run is pending or executing; runs keep the order of the calls; and a run has
      happened, is happening or is pending for each call that was answered with true, and for no other.
    */
  lemma EachSuccessRunsOnce(programs: seq<seq<Call>>, schedule: seq<Move>)
    requires Legal(Initial(programs), schedule)
    ensures var s := Run(Initial(programs), schedule);
      && |s.pending| + Bit(!s.daemon.Waiting?) <= 1 && s.ran <= s.scheduled
      && |s.ran| + |Executing(s.daemon)| + |s.pending| == Total(s.threads, Successes)
  {
    InvariantInitially(programs);
    InvariantAlways(Initial(programs), schedule);
  }

  /** While a thread holds the token no run is pending or executing, and no other thread holds it: so what it gives back
      after a refused pend, it gives to an empty semaphore, and what it deletes nobody uses.
    */
  lemma HolderIsAlone(s: State, t: nat)
    requires Invariant(s) && t < |s.threads| && Holds(s.threads[t])
    ensures !s.dtorLock && !s.deleted && s.pending == [] && s.daemon.Waiting? && s.ran == s.scheduled
    ensures forall i :: 0 <= i < |s.threads| && i != t ==> !Holds(s.threads[i])
  {
    CountMember(s.threads, t, Holds);
    forall i | 0 <= i < |s.threads| && i != t ensures !Holds(s.threads[i]) {
      if Holds(s.threads[i]) {
        CountTwo(s.threads, if i < t then i else t, if i < t then t else i, Holds);
      }
    }
  }

  /** The daemon, too, gives DtorLock only when it is empty. */
  lemma DaemonGivesEmpty(s: State)
    requires Invariant(s) && s.daemon.GiveLock?
    ensures !s.dtorLock && !s.deleted
  {
  }

  ghost predicate SafelyDeleted(s: State) {
    s.deleted || exists t :: 0 <= t < |s.threads| && s.threads[t].pc.DeleteLock?
  }

  lemma DeletedStays(s: State, m: Move)
    requires Invariant(s) && SafelyDeleted(s) && Enabled(s, m.t)
    ensures SafelyDeleted(Next(s, m)) && Next(s, m).scheduled == s.scheduled && Next(s, m).ran == s.ran
    ensures s.pending == [] && s.daemon.Waiting? && s.ran == s.scheduled
  {
    if !s.deleted {
      var t :| 0 <= t < |s.threads| && s.threads[t].pc.DeleteLock?;
      HolderIsAlone(s, t);
      if m.t != t {
        assert Next(s, m).threads[t].pc.DeleteLock?;
      }
    } else if m.t < |s.threads| && Holds(s.threads[m.t]) {
      HolderIsAlone(s, m.t);
    }
  }

  /** Once CheckForSafeDelete has the token, and ever after, nothing is pending, nothing executes and nothing more will:
      the tasklet may be deleted.
    */
  lemma {:induction false} NoRunAfterSafeDelete(s: State, schedule: seq<Move>)
    requires Invariant(s) && SafelyDeleted(s) && Legal(s, schedule)
    ensures var s' := Run(s, schedule);
      && s'.pending == [] && s'.daemon.Waiting?
      && s'.scheduled == s.scheduled && s'.ran == s.ran == s.scheduled
    decreases |schedule|
  {
    if schedule != [] {
      InvariantKept(s, schedule[0]);
      DeletedStays(s, schedule[0]);
      NoRunAfterSafeDelete(Next(s, schedule[0]), schedule[1..]);
    } else if !s.deleted {
      var t :| 0 <= t < |s.threads| && s.threads[t].pc.DeleteLock?;
      HolderIsAlone(s, t);
    }
  }

  /** Once thread `t` has returned from a CheckForSafeDelete of its program, and ever after, nothing is pending, nothing
      executes and nothing more will.
    */
  lemma NoRunAfterReturn(programs: seq<seq<Call>>, a: seq<Move>, t: nat, k: nat, b: seq<Move>)
    requires t < |programs| && k < |programs[t]| && programs[t][k].CheckForSafeDelete? && Legal(Initial(programs), a)
    requires var s := Run(Initial(programs), a);
      t < |s.threads| && k < Returned(programs[t], s.threads[t]) && Legal(s, b)
    ensures var s, s' := Run(Initial(programs), a), Run(Run(Initial(programs), a), b);
      && s'.pending == [] && s'.daemon.Waiting?
      && s'.scheduled == s.scheduled && s'.ran == s.ran == s.scheduled
  {
    var who := CallsAreAnswered(programs, a);
    InvariantInitially(programs);
    InvariantAlways(Initial(programs), a);
    NoRunAfterSafeDelete(Run(Initial(programs), a), b);
  }

  // ---------- A call by itself ----------

  lemma First(s: State, m: Move, rest: seq<Move>)
    requires Enabled(s, m.t) && Legal(Next(s, m), rest)
    ensures Legal(s, [m] + rest) && Run(s, [m] + rest) == Run(Next(s, m), rest)
  {
    assert ([m] + rest)[1..] == rest;
  }

  /** With the token in DtorLock, and nobody else moving, a call of Schedule or ScheduleFromISR is answered with
      whether the command queue accepts; if it does, a run is pending, and if not, the token is back.
    */
  lemma CallWithToken(s: State, t: nat, accepted: bool) returns (schedule: seq<Move>)
    requires t < |s.threads| && s.threads[t].pc.Idle? && s.threads[t].todo != [] && s.dtorLock && !s.deleted
    requires !s.threads[t].todo[0].CheckForSafeDelete?
    ensures Legal(s, schedule)
    ensures var th, p := s.threads[t], s.threads[t].todo[0].parameter;
      var told := s.threads[t := Thread(Idle, th.todo[1..], th.answers + [accepted])];
      Run(s, schedule) ==
        if accepted then
          s.(threads := told, dtorLock := false, pending := s.pending + [p], scheduled := s.scheduled + [p])
        else s.(threads := told)
  {
    var m := Move(t, accepted);
    var s1 := Next(s, m);
    var s2 := Next(s1, m);
    var s3 := Next(s2, m);
    var s4 := Next(s3, m);
    if accepted {
      First(s3, m, []);
      First(s2, m, [m]);
      First(s1, m, [m, m]);
      First(s, m, [m, m, m]);
      return [m] + [m, m, m];
    } else {
      First(s4, m, []);
      First(s3, m, [m]);
      First(s2, m, [m, m]);
      First(s1, m, [m, m, m]);
      First(s, m, [m, m, m, m]);
      return [m] + [m, m, m, m];
    }
  }

  /** Without it, ScheduleFromISR answers with false at once, and Schedule waits. */
  lemma CallWithoutToken(s: State, t: nat, m: Move)
    requires t < |s.threads| && s.threads[t].pc.Idle? && s.threads[t].todo != [] && !s.dtorLock && !s.deleted
    requires m.t == t
    ensures var th := s.threads[t];
      match th.todo[0]
      case ScheduleFromISR(_) =>
        && Legal(s, [m, m, m])
        && Run(s, [m, m, m]) ==
           s.(threads := s.threads[t := Thread(Idle, th.todo[1..], th.answers + [false])])
      case _ => !Enabled(Next(s, m), t)
  {
    var s1 := Next(s, m);
    if s.threads[t].todo[0].ScheduleFromISR? {
      var s2 := Next(s1, m);
      First(s2, m, []);
      First(s1, m, [m]);
      First(s, m, [m, m]);
    }
  }

  ghost predicate Done(s: State) {
    forall i :: 0 <= i < |s.threads| ==> s.threads[i].pc.Idle? && s.threads[i].todo == []
  }

  /** When nobody can move, every scheduled run has happened; and then either all calls have returned, or the tasklet
      was deleted under a thread that still calls it.
    */
  lemma Quiescence(programs: seq<seq<Call>>, schedule: seq<Move>)
    requires Legal(Initial(programs), schedule)
    requires forall t :: !Enabled(Run(Initial(programs), schedule), t)
    ensures var s := Run(Initial(programs), schedule);
      s.ran == s.scheduled && |s.ran| == Total(s.threads, Successes) && (Done(s) || s.deleted)
  {
    InvariantInitially(programs);
    InvariantAlways(Initial(programs), schedule);
    var s := Run(Initial(programs), schedule);
    assert !Enabled(s, |s.threads|);
    if !s.deleted {
      if Count(s.threads, Holds) > 0 {
        var h := CountWitness(s.threads, Holds);
        assert Enabled(s, h);
      }
      forall i | 0 <= i < |s.threads| ensures s.threads[i].pc.Idle? && s.threads[i].todo == [] {
        assert !Enabled(s, i);
      }
    }
  }

  // ---------- Every run ends ----------

  /** An upper bound of the steps that the rest of a call still causes, those of the daemon included. */
  function Rank(th: Thread): nat {
    7 * |th.todo| +
    match th.pc
    case Idle => 0
    case TakeLock(_) => 6
    case TakeLockFromISR(_) => 6
    case Pend(_) => 5
    case GiveBack => 2
    case Return(_) => 1
    case TakeForDelete => 2
    case DeleteLock => 1
  }

  function DaemonRank(d: Daemon): nat {
    match d case Waiting => 0 case RunTasklet(_) => 2 case GiveLock => 1
  }

  ghost function Work(s: State): nat {
    Total(s.threads, Rank) + 3 * |s.pending| + DaemonRank(s.daemon)
  }

  lemma ThreadWork(s: State, t: nat, accepted: bool)
    requires Enabled(s, t) && t < |s.threads|
    ensures var s' := ThreadStep(s, t, accepted);
      && s'.threads == s.threads[t := s'.threads[t]] && s'.daemon == s.daemon
      && Rank(s'.threads[t]) + 3 * |s'.pending| < Rank(s.threads[t]) + 3 * |s.pending|
  {
  }

  lemma WorkDecreases(s: State, m: Move)
    requires Enabled(s, m.t)
    ensures Work(Next(s, m)) < Work(s)
  {
    if m.t < |s.threads| {
      ThreadWork(s, m.t, m.accepted);
      TotalUpdate(s.threads, m.t, Next(s, m).threads[m.t], Rank);
      return;
    }
  }

  lemma {:induction false} WorkBoundsSteps(s: State, schedule: seq<Move>)
    requires Legal(s, schedule)
    ensures |schedule| <= Work(s)
    decreases |schedule|
  {
    if schedule != [] {
      WorkDecreases(s, schedule[0]);
      WorkBoundsSteps(Next(s, schedule[0]), schedule[1..]);
    }
  }

  function Calls(programs: seq<seq<Call>>): nat {
    if programs == [] then 0 else |programs[0]| + Calls(programs[1..])
  }

  lemma {:induction false} InitialWork(programs: seq<seq<Call>>)
    ensures Work(Initial(programs)) == 7 * Calls(programs)
  {
    if programs != [] {
      assert Initial(programs).threads[1..] == Initial(programs[1..]).threads;
      InitialWork(programs[1..]);
    }
  }

  /** However the threads, the interrupts and the daemon are interleaved, a call causes at most seven steps. */
  lemma RunsEnd(programs: seq<seq<Call>>, schedule: seq<Move>)
    requires Legal(Initial(programs), schedule)
    ensures |schedule| <= 7 * Calls(programs)
  {
    WorkBoundsSteps(Initial(programs), schedule);
    InitialWork(programs);
  }

  // ---------- The tasklet itself ----------

  /** The tasklet, the timer daemon and the threads, changed in place one statement at a time. */
  class TaskletSystem {
    var dtorLock: bool
    var deleted: bool
    var pending: seq<nat>
    var daemon: Daemon
    var threads: seq<Thread>
    var scheduled: seq<nat>
    var ran: seq<nat>

    ghost function Value(): State
      reads this
    {
      State(dtorLock, deleted, pending, daemon, threads, scheduled, ran)
    }

    constructor (programs: seq<seq<Call>>)
      ensures Value() == Initial(programs)
    {
      dtorLock, deleted, pending, daemon := true, false, [], Waiting;
      threads := seq(|programs|, i requires 0 <= i < |programs| => Thread(Idle, programs[i], []));
      scheduled, ran := [], [];
    }

    /** TaskletAdapterFunction. */
    method AdapterStep()
      requires Enabled(Value(), |threads|)
      modifies this
      ensures Value() == DaemonStep(old(Value()))
    {
      match daemon
      case Waiting =>
        daemon := RunTasklet(pending[0]);
        pending := pending[1..];
      case RunTasklet(p) =>
        ran := ran + [p];
        daemon := GiveLock;
      case GiveLock =>
        dtorLock := true;
        daemon := Waiting;
    }

    method Go(t: nat, pc: Pc)
      requires t < |threads|
      modifies this`threads
      ensures threads == old(threads)[t := old(threads)[t].(pc := pc)]
    {
      threads := threads[t := threads[t].(pc := pc)];
    }

    /** Schedule and ScheduleFromISR. */
    method ScheduleStep(t: nat, accepted: bool)
      requires Enabled(Value(), t) && t < |threads|
      requires var pc := threads[t].pc; pc.TakeLock? || pc.TakeLockFromISR? || pc.Pend? || pc.GiveBack?
      modifies this
      ensures Value() == ThreadStep(old(Value()), t, accepted)
    {
      match threads[t].pc
      case TakeLock(p) =>
        dtorLock := false;
        Go(t, Pend(p));
      case TakeLockFromISR(p) =>
        if dtorLock {
          dtorLock := false;
          Go(t, Pend(p));
        } else {
          Go(t, Return(false));
        }
      case Pend(p) =>
        if accepted {
          pending, scheduled := pending + [p], scheduled + [p];
          Go(t, Return(true));
        } else {
          Go(t, GiveBack);
        }
      case GiveBack =>
        dtorLock := true;
        Go(t, Return(false));
    }

    /** CheckForSafeDelete, and the caller between its calls. */
    method CallerStep(t: nat)
      requires Enabled(Value(), t) && t < |threads|
      requires threads[t].pc.Idle? || threads[t].pc.Return? || threads[t].pc.TakeForDelete? || threads[t].pc.DeleteLock?
      modifies this
      ensures Value() == ThreadStep(old(Value()), t, false)
    {
      var th := threads[t];
      match th.pc
      case Idle =>
        var pc := match th.todo[0]
          case Schedule(p) => TakeLock(p)
          case ScheduleFromISR(p) => TakeLockFromISR(p)
          case CheckForSafeDelete => TakeForDelete;
        threads := threads[t := th.(pc := pc, todo := th.todo[1..])];
      case Return(ok) =>
        threads := threads[t := th.(pc := Idle, answers := th.answers + [ok])];
      case TakeForDelete =>
        dtorLock := false;
        Go(t, DeleteLock);
      case DeleteLock =>
        deleted := true;
        Go(t, Idle);
    }

    method Step(m: Move)
      requires Invariant(Value()) && Enabled(Value(), m.t)
      modifies this
      ensures Value() == Next(old(Value()), m) && Invariant(Value())
    {
      InvariantKept(Value(), m);
      if m.t == |threads| {
        AdapterStep();
      } else {
        var pc := threads[m.t].pc;
        if pc.Idle? || pc.Return? || pc.TakeForDelete? || pc.DeleteLock? {
          CallerStep(m.t);
        } else {
          ScheduleStep(m.t, m.accepted);
        }
      }
    }

    /** Runs any interleaving. */
    method Execute(schedule: seq<Move>)
      requires Invariant(Value()) && Legal(Value(), schedule)
      modifies this
      ensures Value() == Run(old(Value()), schedule) && Invariant(Value())
      ensures ran <= scheduled <= ran + Executing(daemon) + pending
    {
      var k := 0;
      while k < |schedule|
        invariant k <= |schedule| && Invariant(Value()) && Legal(Value(), schedule[k..])
        invariant Run(Value(), schedule[k..]) == Run(old(Value()), schedule)
      {
        Step(schedule[k]);
        k := k + 1;
      }
    }
  }
}
