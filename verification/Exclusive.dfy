/**
 The exclusive-section protocol of qemu/cpu-common.c: `start_exclusive`, `end_exclusive`,
 `cpu_exec_start` and `cpu_exec_end`, run by any finite number of vCPU threads.

 The protocol is a sequentially consistent transition system.  Every access to the two fields
 that are read without the list lock (`pending_cpus` and `running`) is a step of its own, and so
 is every lock, unlock, sleep, signal and broadcast.  `has_waiter` is only touched under the
 lock, so its accesses are merged with the neighbouring step.  Condition variables may wake a
 sleeper spuriously.
 */
module Exclusive {

  import opened Wrappers

  type Cpu = nat

  /** Where a vCPU thread stands; the comments name the C statement that runs next. */
  datatype Pc =
    | Outside
    // start_exclusive
    | StartLock                                  // lock
    | StartIdle                                  // while (pending_cpus)
    | StartAsleep                                // asleep on exclusive_resume
    | StartRelock                                // woken, needs the lock again
    | StartAnnounce                              // pending_cpus = 1
    | StartScan(todo: set<Cpu>, seen: nat)       // CPU_FOREACH, `todo` still to visit
    | StartCount(seen: nat)                      // pending_cpus = running_cpus + 1
    | StartCheck                                 // while (pending_cpus > 1)
    | StartWait                                  // asleep on exclusive_cond
    | StartWake                                  // woken, needs the lock again
    | StartUnlock                                // unlock
    | StartReturn                                // exclusive_context_count = 1
    | Inside                                     // returned from start_exclusive
    // end_exclusive
    | EndLock | EndReset | EndBroadcast | EndUnlock
    // cpu_exec_start
    | ExecRead                                   // if (pending_cpus)
    | ExecLock | ExecTest                        // lock; if (!has_waiter)
    | ExecClear                                  // running = false
    | ExecIdle | ExecAsleep | ExecRelock         // exclusive_idle
    | ExecSet                                    // running = true
    | ExecUnlock
    | Executing                                  // returned from cpu_exec_start
    // cpu_exec_end
    | LeaveRead                                  // if (pending_cpus)
    | LeaveLock | LeaveTest                      // lock; if (has_waiter) has_waiter = false
    | LeaveDecrement                             // pending_cpus = pending_cpus - 1
    | LeaveNotify                                // if (pending_cpus == 1) signal
    | LeaveUnlock

  /** One vCPU thread together with its CPUState. */
  datatype Thread = Thread(pc: Pc, running: bool, hasWaiter: bool, depth: nat)

  datatype State = State(cpus: map<Cpu, Thread>, pending: int, lock: Option<Cpu>)

  /** What the scheduler or the caller decides in a step. */
  datatype Choice =
    | Proceed            // run the next statement
    | CallStart          // call start_exclusive
    | CallEnd            // call end_exclusive
    | CallExec           // call cpu_exec_start
    | CallLeave          // call cpu_exec_end
    | Pick(cpu: Cpu)     // the CPU visited by CPU_FOREACH, or the sleeper a signal wakes

  predicate IsCall(ch: Choice) {
    ch.CallStart? || ch.CallEnd? || ch.CallExec? || ch.CallLeave?
  }

  /** A thread and what it was to do. */
  datatype Move = Move(cpu: Cpu, choice: Choice)

  ghost predicate Init(s: State) {
    s.pending == 0 && s.lock == None
    && forall c | c in s.cpus :: s.cpus[c] == Thread(Outside, false, false, 0)
  }

  function Goto(s: State, t: Cpu, pc: Pc): State
    requires t in s.cpus
  {
    s.(cpus := s.cpus[t := s.cpus[t].(pc := pc)])
  }

  function SetRunning(s: State, t: Cpu, running: bool, pc: Pc): State
    requires t in s.cpus
  {
    s.(cpus := s.cpus[t := s.cpus[t].(pc := pc, running := running)])
  }

  function SetWaiter(s: State, t: Cpu, hasWaiter: bool): State
    requires t in s.cpus
  {
    s.(cpus := s.cpus[t := s.cpus[t].(hasWaiter := hasWaiter)])
  }

  function Resumed(th: Thread): Thread {
    if th.pc.StartAsleep? then th.(pc := StartRelock)
    else if th.pc.ExecAsleep? then th.(pc := ExecRelock)
    else th
  }

  /** qemu_cond_broadcast(&exclusive_resume). */
  function Broadcast(s: State): State {
    s.(cpus := map c | c in s.cpus :: Resumed(s.cpus[c]))
  }

  predicate SomeoneWaits(s: State) {
    exists c :: c in s.cpus && s.cpus[c].pc == StartWait
  }

  predicate SomeoneIdles(s: State) {
    exists c :: c in s.cpus && (s.cpus[c].pc == StartAsleep || s.cpus[c].pc == ExecAsleep)
  }

  /** One visit of CPU_FOREACH in start_exclusive. */
  function Visit(s: State, t: Cpu, c: Cpu): State
    requires t in s.cpus && s.cpus[t].pc.StartScan? && c in s.cpus
  {
    var pc := s.cpus[t].pc;
    if s.cpus[c].running
    then Goto(SetWaiter(s, c, true), t, StartScan(pc.todo - {c}, pc.seen + 1))
    else Goto(s, t, StartScan(pc.todo - {c}, pc.seen))
  }

  /** The statements of the four functions, without their operands. */
  datatype Instr =
    | Call                                    // the caller decides what to do next
    | Lock(next: Pc) | Unlock(next: Pc)
    | Idle(asleep: Pc, next: Pc)              // while (pending_cpus) wait for exclusive_resume
    | Woken(next: Pc)                         // a spurious wake-up
    | IfPending(zero: Pc, nonzero: Pc)
    | IfWaiter(without: Pc, with: Pc)
    | Running(value: bool, next: Pc)
    | Announce | Scan | Count | Await | Enter | Reset | Resume | Uncount | Decrement | Notify

  function Code(pc: Pc): Instr {
    match pc
    // start_exclusive
    case StartLock => Lock(StartIdle)
    case StartIdle => Idle(StartAsleep, StartAnnounce)
    case StartAsleep => Woken(StartRelock)
    case StartRelock => Lock(StartIdle)
    case StartAnnounce => Announce
    case StartScan(_, _) => Scan
    case StartCount(_) => Count
    case StartCheck => Await
    case StartWait => Woken(StartWake)
    case StartWake => Lock(StartCheck)
    case StartUnlock => Unlock(StartReturn)
    case StartReturn => Enter
    // end_exclusive
    case EndLock => Lock(EndReset)
    case EndReset => Reset
    case EndBroadcast => Resume
    case EndUnlock => Unlock(Outside)
    // cpu_exec_start
    case ExecRead => IfPending(Executing, ExecLock)
    case ExecLock => Lock(ExecTest)
    case ExecTest => IfWaiter(ExecClear, ExecUnlock)
    case ExecClear => Running(false, ExecIdle)
    case ExecIdle => Idle(ExecAsleep, ExecSet)
    case ExecAsleep => Woken(ExecRelock)
    case ExecRelock => Lock(ExecIdle)
    case ExecSet => Running(true, ExecUnlock)
    case ExecUnlock => Unlock(Executing)
    // cpu_exec_end
    case LeaveRead => IfPending(Outside, LeaveLock)
    case LeaveLock => Lock(LeaveTest)
    case LeaveTest => Uncount
    case LeaveDecrement => Decrement
    case LeaveNotify => Notify
    case LeaveUnlock => Unlock(Outside)
    case Outside => Call
    case Inside => Call
    case Executing => Call
  }

  /** The next state of thread `t`, or None where the statement blocks or `ch` does not apply. */
  function Step(s: State, t: Cpu, ch: Choice): Option<State>
    requires t in s.cpus
  {
    var th := s.cpus[t];
    if IsCall(ch) != Code(th.pc).Call? then None
    else match Code(th.pc)
    case Call => CallStep(s, t, ch)
    case Lock(next) => if s.lock.None? then Some(Goto(s, t, next).(lock := Some(t))) else None
    case Unlock(next) => Some(Goto(s, t, next).(lock := None))
    case Idle(asleep, next) =>
      if s.pending != 0 then Some(Goto(s, t, asleep).(lock := None)) else Some(Goto(s, t, next))
    case Woken(next) => Some(Goto(s, t, next))
    case IfPending(zero, nonzero) => Some(Goto(s, t, if s.pending != 0 then nonzero else zero))
    case IfWaiter(without, with) => Some(Goto(s, t, if th.hasWaiter then with else without))
    case Running(value, next) => Some(SetRunning(s, t, value, next))
    case Announce => Some(Goto(s, t, StartScan(s.cpus.Keys, 0)).(pending := 1))
    case Scan => ScanStep(s, t, ch)
    case Count => Some(Goto(s, t, StartCheck).(pending := if th.pc.StartCount? then th.pc.seen + 1 else 0))
    case Await =>
      if s.pending > 1 then Some(Goto(s, t, StartWait).(lock := None)) else Some(Goto(s, t, StartUnlock))
    case Enter => Some(s.(cpus := s.cpus[t := th.(pc := Inside, depth := 1)]))
    case Reset => Some(Goto(s, t, EndBroadcast).(pending := 0))
    case Resume => Some(Goto(Broadcast(s), t, EndUnlock))
    case Uncount =>
      if th.hasWaiter then Some(Goto(SetWaiter(s, t, false), t, LeaveDecrement))
      else Some(Goto(s, t, LeaveUnlock))
    case Decrement => Some(Goto(s, t, LeaveNotify).(pending := s.pending - 1))
    case Notify =>
      if s.pending != 1 || !SomeoneWaits(s) then Some(Goto(s, t, LeaveUnlock))
      else if ch.Pick? && ch.cpu in s.cpus && s.cpus[ch.cpu].pc == StartWait
      then Some(Goto(Goto(s, ch.cpu, StartWake), t, LeaveUnlock))
      else None
  }

  /** Outside, a thread may call start_exclusive or cpu_exec_start; inside an exclusive section,
      start_exclusive (which nests) or end_exclusive; while it executes, cpu_exec_end. */
  function CallStep(s: State, t: Cpu, ch: Choice): Option<State>
    requires t in s.cpus
  {
    var th := s.cpus[t];
    if th.pc.Inside? then
      if ch.CallStart? then Some(s.(cpus := s.cpus[t := th.(depth := th.depth + 1)]))
      else if !ch.CallEnd? then None
      else if th.depth > 1 then Some(s.(cpus := s.cpus[t := th.(depth := th.depth - 1)]))
      else Some(s.(cpus := s.cpus[t := th.(depth := 0, pc := EndLock)]))
    else if th.pc.Executing? then
      if ch.CallLeave? then Some(SetRunning(s, t, false, LeaveRead)) else None
    else if ch.CallStart? then Some(Goto(s, t, StartLock))
    else if ch.CallExec? then Some(SetRunning(s, t, true, ExecRead))
    else None
  }

  function ScanStep(s: State, t: Cpu, ch: Choice): Option<State>
    requires t in s.cpus
  {
    var pc := s.cpus[t].pc;
    if !pc.StartScan? then None
    else if pc.todo == {} then Some(Goto(s, t, StartCount(pc.seen)))
    else if ch.Pick? && ch.cpu in pc.todo && ch.cpu in s.cpus then Some(Visit(s, t, ch.cpu))
    else None
  }

  ghost predicate Takes(s: State, m: Move, s': State) {
    m.cpu in s.cpus && Step(s, m.cpu, m.choice) == Some(s')
  }

  /** A run: any interleaving of any number of moves, from the initial state on. */
  ghost predicate IsRun(run: seq<State>, moves: seq<Move>) {
    |run| == |moves| + 1 && Init(run[0]) && forall i | 0 <= i < |moves| :: Takes(run[i], moves[i], run[i + 1])
  }

  // ---------------------------------------------------------------------------------------
  // The inductive invariant

  predicate HoldsLock(pc: Pc) {
    pc.StartIdle? || pc.StartAnnounce? || pc.StartScan? || pc.StartCount? || pc.StartCheck?
    || pc.StartUnlock? || pc.EndReset? || pc.EndBroadcast? || pc.EndUnlock? || pc.ExecTest?
    || pc.ExecClear? || pc.ExecIdle? || pc.ExecSet? || pc.ExecUnlock? || pc.LeaveTest?
    || pc.LeaveDecrement? || pc.LeaveNotify? || pc.LeaveUnlock?
  }

  /** The exclusive request is announced and not yet reset. */
  predicate Owns(pc: Pc) {
    pc.StartScan? || pc.StartCount? || pc.StartCheck? || pc.StartWait? || pc.StartWake? || Granted(pc)
  }

  /** Every CPU has been waited for: from the end of the wait loop to the reset in end_exclusive. */
  predicate Granted(pc: Pc) {
    pc.StartUnlock? || pc.StartReturn? || pc.Inside? || pc.EndLock? || pc.EndReset?
  }

  predicate RunningAt(pc: Pc) {
    pc.ExecRead? || pc.ExecLock? || pc.ExecTest? || pc.ExecClear? || pc.ExecUnlock? || pc.Executing?
  }

  /** Where a CPU counted in pending_cpus can be: on its way to the test in cpu_exec_end. */
  predicate CountedAt(pc: Pc) {
    pc.ExecRead? || pc.ExecLock? || pc.ExecTest? || pc.ExecUnlock? || pc.Executing?
    || pc.LeaveRead? || pc.LeaveLock? || pc.LeaveTest?
  }

  ghost function Waiters(s: State): set<Cpu> {
    set c | c in s.cpus && s.cpus[c].hasWaiter
  }

  ghost predicate Locking(s: State) {
    (s.lock.Some? ==> s.lock.value in s.cpus)
    && forall c | c in s.cpus :: HoldsLock(s.cpus[c].pc) <==> s.lock == Some(c)
  }

  /** The fields of one thread agree with its program counter. */
  ghost predicate Local(th: Thread) {
    && (th.running <==> RunningAt(th.pc))
    && (th.depth > 0 <==> th.pc == Inside)
    && (th.hasWaiter ==> CountedAt(th.pc))
    && (th.pc.ExecClear? ==> !th.hasWaiter)
  }

  ghost predicate Locals(s: State) {
    forall c | c in s.cpus :: Local(s.cpus[c])
  }

  /** `o` is the one thread, if any, that owns the exclusive request. */
  ghost predicate Owning(s: State, o: Option<Cpu>) {
    (o.Some? ==> o.value in s.cpus)
    && forall c | c in s.cpus :: Owns(s.cpus[c].pc) <==> o == Some(c)
  }

  ghost function PcOf(s: State, o: Option<Cpu>): Pc {
    if o.Some? && o.value in s.cpus then s.cpus[o.value].pc else Outside
  }

  /** pending_cpus and has_waiter, by the stage the owner has reached. While a CPU is between
      clearing has_waiter and decrementing, pending_cpus is one ahead of has_waiter. */
  ghost predicate Counted(s: State, pc: Pc) {
    var ahead := if PcOf(s, s.lock) == LeaveDecrement then 1 else 0;
    if pc.StartScan? then
      s.pending == 1 && pc.seen == |Waiters(s)| && Waiters(s) !! pc.todo && pc.todo <= s.cpus.Keys
    else if pc.StartCount? then
      s.pending == 1 && pc.seen == |Waiters(s)|
    else if pc.StartCheck? || pc.StartWait? || pc.StartWake? then
      s.pending == 1 + |Waiters(s)| + ahead
    else
      s.pending == (if Granted(pc) then 1 else 0) && Waiters(s) == {} && ahead == 0
  }

  /** A CPU that already executes while a request is announced has been counted by it. */
  ghost predicate Announced(s: State, pc: Pc) {
    Owns(pc) ==>
      forall c | c in s.cpus && (s.cpus[c].pc.Executing? || s.cpus[c].pc.ExecUnlock?)
        && !(pc.StartScan? && c in pc.todo) :: s.cpus[c].hasWaiter
  }

  /** No wake-up is lost on either condition variable. */
  ghost predicate NoLostWakeup(s: State, pc: Pc) {
    && (pc.StartWait? ==> s.pending > 1 || PcOf(s, s.lock).LeaveNotify?)
    && (forall c | c in s.cpus && (s.cpus[c].pc.StartAsleep? || s.cpus[c].pc.ExecAsleep?) ::
          s.pending != 0 || PcOf(s, s.lock).EndBroadcast?)
  }

  /** Under the lock these three have seen, or just made, pending_cpus zero. */
  predicate SeesIdle(pc: Pc) {
    pc.StartAnnounce? || pc.EndBroadcast? || pc.ExecSet?
  }

  ghost predicate InvFor(s: State, o: Option<Cpu>) {
    && Locking(s) && Locals(s) && Owning(s, o)
    && Counted(s, PcOf(s, o)) && Announced(s, PcOf(s, o)) && NoLostWakeup(s, PcOf(s, o))
    && (SeesIdle(PcOf(s, s.lock)) ==> o == None)
  }

  ghost predicate Inv(s: State) {
    exists o :: InvFor(s, o)
  }

  lemma InitInv(s: State)
    requires Init(s)
    ensures Inv(s)
  {
    assert InvFor(s, None);
  }

  // ---------------------------------------------------------------------------------------
  // Every step keeps the invariant

  /** Only thread `t` changed, and the lock followed its program counter. */
  ghost predicate OneThread(s: State, s': State, t: Cpu) {
    && t in s.cpus && s'.cpus.Keys == s.cpus.Keys
    && (forall c | c in s.cpus && c != t :: s'.cpus[c] == s.cpus[c])
    && Local(s'.cpus[t])
    && (if HoldsLock(s'.cpus[t].pc)
        then s'.lock == Some(t) && (s.lock == None || s.lock == Some(t))
        else s'.lock == if s.lock == Some(t) then None else s.lock)
  }

  lemma OneThreadKeeps(s: State, s': State, t: Cpu, o: Option<Cpu>, o': Option<Cpu>)
    requires Locking(s) && Locals(s) && Owning(s, o) && OneThread(s, s', t)
    requires if Owns(s'.cpus[t].pc) then o' == Some(t) && (o == None || o == Some(t))
             else o' == if o == Some(t) then None else o
    ensures Locking(s') && Locals(s') && Owning(s', o')
  {}

  lemma WaitersSame(s: State, s': State)
    requires s'.cpus.Keys == s.cpus.Keys
    requires forall c | c in s.cpus :: s'.cpus[c].hasWaiter == s.cpus[c].hasWaiter
    ensures Waiters(s') == Waiters(s)
  {}

  /** A step of a thread that does not own the request. */
  ghost predicate BystanderMoves(s: State, s': State, t: Cpu) {
    && OneThread(s, s', t)
    && var pc, pc' := s.cpus[t].pc, s'.cpus[t].pc;
    && !Owns(pc) && !Owns(pc')
    && (pc'.Executing? || pc'.ExecUnlock?
        ==> s'.cpus[t].hasWaiter || s.pending == 0
            || (pc.ExecUnlock? && s'.cpus[t].hasWaiter == s.cpus[t].hasWaiter))
    && (SeesIdle(pc') ==> s.pending == 0)
  }

  lemma BystanderKeeps(s: State, s': State, t: Cpu, o: Option<Cpu>)
    requires InvFor(s, o) && BystanderMoves(s, s', t)
    ensures Locking(s') && Locals(s') && Owning(s', o)
    ensures Announced(s', PcOf(s', o)) && (SeesIdle(PcOf(s', s'.lock)) ==> o == None)
  {
    OneThreadKeeps(s, s', t, o, o);
    assert o.Some? ==> s.pending != 0;
    assert PcOf(s', o) == PcOf(s, o);
  }

  /** ... and that leaves the counters and the sleepers' conditions alone. */
  ghost predicate Quiet(s: State, s': State, t: Cpu, o: Option<Cpu>) {
    && BystanderMoves(s, s', t) && s'.pending == s.pending
    && s'.cpus[t].hasWaiter == s.cpus[t].hasWaiter
    && var pc, pc' := s.cpus[t].pc, s'.cpus[t].pc;
    && !pc.LeaveDecrement? && !pc'.LeaveDecrement?
    && (pc.LeaveNotify? && s.pending == 1 ==> !PcOf(s', o).StartWait?)
    && (pc.EndBroadcast? ==> !SomeoneIdles(s'))
    && (pc'.StartAsleep? || pc'.ExecAsleep? ==> s.pending != 0)
  }

  lemma QuietKeeps(s: State, s': State, t: Cpu, o: Option<Cpu>)
    requires InvFor(s, o) && Quiet(s, s', t, o)
    ensures InvFor(s', o)
  {
    BystanderKeeps(s, s', t, o);
    WaitersSame(s, s');
  }

  /** What the invariant says about the moving thread alone. */
  ghost predicate View(s: State, t: Cpu) {
    && t in s.cpus && Local(s.cpus[t]) && (HoldsLock(s.cpus[t].pc) <==> s.lock == Some(t))
    && (SeesIdle(s.cpus[t].pc) ==> s.pending == 0) && (s.pending == 0 ==> !s.cpus[t].hasWaiter)
  }

  lemma InvView(s: State, t: Cpu, o: Option<Cpu>)
    requires InvFor(s, o) && t in s.cpus
    ensures View(s, t) && (Owns(s.cpus[t].pc) ==> o == Some(t))
  {
    assert s.cpus[t].hasWaiter ==> t in Waiters(s);
  }

  /** A step of the owner that keeps the request announced. */
  ghost predicate OwnerMoves(s: State, s': State, t: Cpu) {
    && OneThread(s, s', t) && s'.cpus[t].hasWaiter == s.cpus[t].hasWaiter
    && var pc, pc' := s.cpus[t].pc, s'.cpus[t].pc;
    && Owns(pc) && Owns(pc') && Counted(s', pc')
    && (pc.StartScan? ==> pc.todo == {}) && !pc'.StartScan?
    && (pc'.StartWait? ==> s'.pending > 1)
  }

  lemma OwnerKeeps(s: State, s': State, t: Cpu)
    requires InvFor(s, Some(t)) && OwnerMoves(s, s', t)
    ensures InvFor(s', Some(t))
  {
    OneThreadKeeps(s, s', t, Some(t), Some(t));
    OwnerAnnounced(s, s', t);
    OwnerWakeups(s, s', t);
    hide Locking, Locals, Owning, Announced, Counted, NoLostWakeup, OneThread;
  }

  lemma OwnerAnnounced(s: State, s': State, t: Cpu)
    requires InvFor(s, Some(t)) && OwnerMoves(s, s', t)
    ensures Announced(s', PcOf(s', Some(t))) && Counted(s', PcOf(s', Some(t)))
  {
    hide NoLostWakeup, Locking, Locals, Waiters;
  }

  lemma OwnerWakeups(s: State, s': State, t: Cpu)
    requires InvFor(s, Some(t)) && OwnerMoves(s, s', t)
    ensures NoLostWakeup(s', PcOf(s', Some(t))) && !SeesIdle(PcOf(s', s'.lock))
  {
    assert s'.pending != 0 by { hide Announced, NoLostWakeup, OneThread, Locking, Owning; }
    hide Counted, Announced, Locals, Locking;
  }

  lemma AnnounceKeeps(s: State, t: Cpu, o: Option<Cpu>)
    requires InvFor(s, o) && t in s.cpus && s.cpus[t].pc == StartAnnounce
    ensures InvFor(Goto(s, t, StartScan(s.cpus.Keys, 0)).(pending := 1), Some(t))
  {
    WaitersSame(s, Goto(s, t, StartScan(s.cpus.Keys, 0)).(pending := 1));
  }

  lemma MarkWaiters(s: State, c: Cpu)
    requires c in s.cpus
    ensures Waiters(SetWaiter(s, c, true)) == Waiters(s) + {c}
  {}

  lemma VisitWaiters(s: State, t: Cpu, c: Cpu)
    requires t in s.cpus && s.cpus[t].pc.StartScan? && Counted(s, s.cpus[t].pc) && c in s.cpus[t].pc.todo
    ensures c in s.cpus
    ensures var s' := Visit(s, t, c); Counted(s', s'.cpus[t].pc)
  {
    MarkWaiters(s, c);
    WaitersSame(if s.cpus[c].running then SetWaiter(s, c, true) else s, Visit(s, t, c));
    assert c !in Waiters(s);
  }

  lemma VisitLocals(s: State, t: Cpu, c: Cpu)
    requires InvFor(s, Some(t)) && t in s.cpus && s.cpus[t].pc.StartScan? && c in s.cpus[t].pc.todo && c in s.cpus
    ensures var s' := Visit(s, t, c); Locking(s') && Locals(s') && Owning(s', Some(t))
  {
    var s' := Visit(s, t, c);
    forall d | d in s.cpus ensures Local(s'.cpus[d]) { assert Local(s.cpus[d]); }
  }

  lemma VisitKeeps(s: State, t: Cpu, c: Cpu)
    requires InvFor(s, Some(t)) && t in s.cpus && s.cpus[t].pc.StartScan? && c in s.cpus[t].pc.todo
    ensures c in s.cpus && InvFor(Visit(s, t, c), Some(t))
  {
    VisitWaiters(s, t, c);
    VisitLocals(s, t, c);
  }

  lemma ResetKeeps(s: State, t: Cpu)
    requires InvFor(s, Some(t)) && t in s.cpus && s.cpus[t].pc == EndReset
    ensures InvFor(Goto(s, t, EndBroadcast).(pending := 0), None)
  {
    WaitersSame(s, Goto(s, t, EndBroadcast).(pending := 0));
  }

  lemma ResumedSame(th: Thread)
    ensures var th' := Resumed(th);
            && (HoldsLock(th'.pc) <==> HoldsLock(th.pc)) && (Owns(th'.pc) <==> Owns(th.pc))
            && (Local(th) ==> Local(th')) && th'.hasWaiter == th.hasWaiter
            && !th'.pc.StartAsleep? && !th'.pc.ExecAsleep? && (HoldsLock(th.pc) ==> th' == th)
  {}

  lemma BroadcastLocals(s: State)
    requires Locking(s) && Locals(s) && Owning(s, None)
    ensures var b := Broadcast(s); Locking(b) && Locals(b) && Owning(b, None) && !SomeoneIdles(b)
    ensures PcOf(Broadcast(s), s.lock) == PcOf(s, s.lock)
  {
    var b := Broadcast(s);
    forall c | c in b.cpus
      ensures Local(b.cpus[c]) && (HoldsLock(b.cpus[c].pc) <==> b.lock == Some(c)) && !Owns(b.cpus[c].pc)
      ensures !b.cpus[c].pc.StartAsleep? && !b.cpus[c].pc.ExecAsleep?
    {
      ResumedSame(s.cpus[c]);
    }
  }

  lemma BroadcastWakes(s: State)
    requires InvFor(s, None)
    ensures InvFor(Broadcast(s), None) && !SomeoneIdles(Broadcast(s))
  {
    BroadcastLocals(s);
    WaitersSame(s, Broadcast(s));
  }

  lemma BroadcastDone(b: State, t: Cpu)
    requires View(b, t) && b.cpus[t].pc == EndBroadcast && !SomeoneIdles(b)
    ensures Quiet(b, Goto(b, t, EndUnlock), t, None)
  {}

  lemma BroadcastKeeps(s: State, t: Cpu)
    requires InvFor(s, None) && t in s.cpus && s.cpus[t].pc == EndBroadcast
    ensures InvFor(Goto(Broadcast(s), t, EndUnlock), None)
  {
    BroadcastWakes(s);
    var b := Broadcast(s);
    InvView(b, t, None);
    BroadcastDone(b, t);
    QuietKeeps(b, Goto(b, t, EndUnlock), t, None);
  }

  lemma UncountCounts(s: State, t: Cpu, o: Option<Cpu>)
    requires InvFor(s, o) && t in s.cpus && s.cpus[t].pc == LeaveTest && s.cpus[t].hasWaiter
    ensures var s' := Goto(SetWaiter(s, t, false), t, LeaveDecrement);
            Counted(s', PcOf(s', o)) && PcOf(s', o) == PcOf(s, o)
  {
    var s' := Goto(SetWaiter(s, t, false), t, LeaveDecrement);
    assert t in Waiters(s);
    assert Waiters(s') == Waiters(s) - {t};
  }

  lemma UncountKeeps(s: State, t: Cpu, o: Option<Cpu>)
    requires InvFor(s, o) && t in s.cpus && s.cpus[t].pc == LeaveTest && s.cpus[t].hasWaiter
    ensures InvFor(Goto(SetWaiter(s, t, false), t, LeaveDecrement), o)
  {
    var s' := Goto(SetWaiter(s, t, false), t, LeaveDecrement);
    InvView(s, t, o);
    UncountCounts(s, t, o);
    LockedOut(s, t, o);
    UncountMoves(s, t);
    UncountWakeups(s, s', t, o);
    hide Locking, Locals, Owning, Announced, Counted, NoLostWakeup, BystanderMoves, Waiters;
    BystanderKeeps(s, s', t, o);
  }

  lemma UncountMoves(s: State, t: Cpu)
    requires View(s, t) && s.cpus[t].pc == LeaveTest
    ensures BystanderMoves(s, Goto(SetWaiter(s, t, false), t, LeaveDecrement), t)
  {}

  lemma UncountWakeups(s: State, s': State, t: Cpu, o: Option<Cpu>)
    requires NoLostWakeup(s, PcOf(s, o)) && PcOf(s', o) == PcOf(s, o)
    requires t in s.cpus && s.cpus[t].pc == LeaveTest && s.lock == Some(t)
    requires s' == Goto(SetWaiter(s, t, false), t, LeaveDecrement)
    ensures NoLostWakeup(s', PcOf(s', o))
  {}

  lemma DecrementCounts(s: State, s': State, t: Cpu, o: Option<Cpu>)
    requires Counted(s, PcOf(s, o)) && NoLostWakeup(s, PcOf(s, o)) && PcOf(s', o) == PcOf(s, o)
    requires t in s.cpus && s.cpus[t].pc == LeaveDecrement && s.lock == Some(t)
    requires !PcOf(s, o).StartScan? && !PcOf(s, o).StartCount?
    requires s' == Goto(s, t, LeaveNotify).(pending := s.pending - 1) && Waiters(s') == Waiters(s)
    ensures Counted(s', PcOf(s', o)) && NoLostWakeup(s', PcOf(s', o))
  {
    hide Waiters;
  }

  /** While another thread holds the lock the owner is not in a part that needs it. */
  lemma LockedOut(s: State, t: Cpu, o: Option<Cpu>)
    requires Locking(s) && Owning(s, o) && t in s.cpus && HoldsLock(s.cpus[t].pc) && !Owns(s.cpus[t].pc)
    ensures s.lock == Some(t) && o != Some(t) && !HoldsLock(PcOf(s, o))
  {}

  lemma DecrementMoves(s: State, t: Cpu)
    requires View(s, t) && s.cpus[t].pc == LeaveDecrement
    ensures BystanderMoves(s, Goto(s, t, LeaveNotify).(pending := s.pending - 1), t)
  {}

  lemma DecrementKeeps(s: State, t: Cpu, o: Option<Cpu>)
    requires InvFor(s, o) && t in s.cpus && s.cpus[t].pc == LeaveDecrement
    ensures InvFor(Goto(s, t, LeaveNotify).(pending := s.pending - 1), o)
  {
    var s' := Goto(s, t, LeaveNotify).(pending := s.pending - 1);
    InvView(s, t, o);
    DecrementMoves(s, t);
    LockedOut(s, t, o);
    hide Locking, Locals, Owning, Announced, Counted, NoLostWakeup, BystanderMoves, Waiters;
    BystanderKeeps(s, s', t, o);
    WaitersSame(s, s');
    DecrementCounts(s, s', t, o);
  }

  lemma WakeKeeps(s: State, c: Cpu)
    requires InvFor(s, Some(c)) && c in s.cpus && s.cpus[c].pc == StartWait
    ensures InvFor(Goto(s, c, StartWake), Some(c))
  {
    var woken := Goto(s, c, StartWake);
    WaitersSame(s, woken);
    OwnerKeeps(s, woken, c);
  }

  lemma NotifyQuiet(s: State, t: Cpu, o: Option<Cpu>)
    requires View(s, t) && s.cpus[t].pc == LeaveNotify && o != Some(t)
    requires s.pending != 1 || !PcOf(s, o).StartWait?
    ensures Quiet(s, Goto(s, t, LeaveUnlock), t, o)
  {}

  lemma NotifyDone(s: State, t: Cpu, o: Option<Cpu>)
    requires InvFor(s, o) && t in s.cpus && s.cpus[t].pc == LeaveNotify
    requires s.pending != 1 || !PcOf(s, o).StartWait?
    ensures InvFor(Goto(s, t, LeaveUnlock), o)
  {
    InvView(s, t, o);
    NotifyQuiet(s, t, o);
    QuietKeeps(s, Goto(s, t, LeaveUnlock), t, o);
  }

  lemma SignalKeeps(s: State, t: Cpu, c: Cpu)
    requires InvFor(s, Some(c)) && t in s.cpus && s.cpus[t].pc == LeaveNotify
    requires c in s.cpus && s.cpus[c].pc == StartWait
    ensures InvFor(Goto(Goto(s, c, StartWake), t, LeaveUnlock), Some(c))
  {
    WakeKeeps(s, c);
    NotifyDone(Goto(s, c, StartWake), t, Some(c));
  }

  /** The steps that only move a thread about: none of them touches another thread or a counter. */
  predicate Mover(th: Thread) {
    var i := Code(th.pc);
    && !Owns(th.pc)
    && (i.Call? || i.Lock? || i.Unlock? || i.Idle? || i.Woken? || i.IfPending? || i.IfWaiter?
        || i.Running? || (i.Uncount? && !th.hasWaiter))
  }

  lemma OutsideIsQuiet(s: State, t: Cpu, ch: Choice, s': State, o: Option<Cpu>)
    requires View(s, t) && s.cpus[t].pc.Outside? && Step(s, t, ch) == Some(s')
    ensures Quiet(s, s', t, o)
  {}

  lemma LeavingIsQuiet(s: State, t: Cpu, ch: Choice, s': State, o: Option<Cpu>)
    requires View(s, t) && s.cpus[t].pc.Executing? && Step(s, t, ch) == Some(s')
    ensures Quiet(s, s', t, o)
  {}

  lemma LockIsQuiet(s: State, t: Cpu, ch: Choice, s': State, o: Option<Cpu>)
    requires View(s, t) && Mover(s.cpus[t]) && Code(s.cpus[t].pc).Lock? && Step(s, t, ch) == Some(s')
    ensures Quiet(s, s', t, o)
  {}

  lemma UnlockIsQuiet(s: State, t: Cpu, ch: Choice, s': State, o: Option<Cpu>)
    requires View(s, t) && Mover(s.cpus[t]) && Code(s.cpus[t].pc).Unlock? && Step(s, t, ch) == Some(s')
    ensures Quiet(s, s', t, o)
  {}

  lemma IdleIsQuiet(s: State, t: Cpu, ch: Choice, s': State, o: Option<Cpu>)
    requires View(s, t) && Mover(s.cpus[t]) && Code(s.cpus[t].pc).Idle? && Step(s, t, ch) == Some(s')
    ensures Quiet(s, s', t, o)
  {}

  lemma WokenIsQuiet(s: State, t: Cpu, ch: Choice, s': State, o: Option<Cpu>)
    requires View(s, t) && Mover(s.cpus[t]) && Code(s.cpus[t].pc).Woken? && Step(s, t, ch) == Some(s')
    ensures Quiet(s, s', t, o)
  {}

  lemma BranchIsQuiet(s: State, t: Cpu, ch: Choice, s': State, o: Option<Cpu>)
    requires View(s, t) && Mover(s.cpus[t]) && Step(s, t, ch) == Some(s')
    requires var i := Code(s.cpus[t].pc); i.IfPending?
    ensures Quiet(s, s', t, o)
  {}

  lemma RunningIsQuiet(s: State, t: Cpu, ch: Choice, s': State, o: Option<Cpu>)
    requires View(s, t) && Mover(s.cpus[t]) && Code(s.cpus[t].pc).Running? && Step(s, t, ch) == Some(s')
    ensures Quiet(s, s', t, o)
  {}

  lemma WaiterIsQuiet(s: State, t: Cpu, ch: Choice, s': State, o: Option<Cpu>)
    requires View(s, t) && Mover(s.cpus[t]) && Step(s, t, ch) == Some(s')
    requires var i := Code(s.cpus[t].pc); i.IfWaiter? || i.Uncount?
    ensures Quiet(s, s', t, o)
  {}

  lemma MoverIsQuiet(s: State, t: Cpu, ch: Choice, s': State, o: Option<Cpu>)
    requires View(s, t) && Mover(s.cpus[t]) && Step(s, t, ch) == Some(s')
    ensures Quiet(s, s', t, o)
  {
    match Code(s.cpus[t].pc)
    case Call =>
      if s.cpus[t].pc.Outside? {
        OutsideIsQuiet(s, t, ch, s', o);
      } else {
        LeavingIsQuiet(s, t, ch, s', o);
      }
    case Lock(_) => LockIsQuiet(s, t, ch, s', o);
    case Unlock(_) => UnlockIsQuiet(s, t, ch, s', o);
    case Idle(_, _) => IdleIsQuiet(s, t, ch, s', o);
    case Woken(_) => WokenIsQuiet(s, t, ch, s', o);
    case IfPending(_, _) => BranchIsQuiet(s, t, ch, s', o);
    case Running(_, _) => RunningIsQuiet(s, t, ch, s', o);
    case _ => WaiterIsQuiet(s, t, ch, s', o);
  }

  /** The owner's steps up to the end of its wait loop. */
  lemma ScannedMoves(s: State, t: Cpu, ch: Choice, s': State)
    requires View(s, t) && Step(s, t, ch) == Some(s') && Counted(s, s.cpus[t].pc)
    requires s.cpus[t].pc.StartScan? && s.cpus[t].pc.todo == {}
    ensures OwnerMoves(s, s', t)
  {
    assert s' == Goto(s, t, StartCount(s.cpus[t].pc.seen));
    hide Step;
    WaitersSame(s, s');
  }

  lemma CountMoves(s: State, t: Cpu, ch: Choice, s': State)
    requires View(s, t) && Step(s, t, ch) == Some(s') && Counted(s, s.cpus[t].pc)
    requires s.cpus[t].pc.StartCount?
    ensures OwnerMoves(s, s', t)
  {
    assert s' == Goto(s, t, StartCheck).(pending := s.cpus[t].pc.seen + 1);
    hide Step;
    WaitersSame(s, s');
  }

  lemma CheckMoves(s: State, t: Cpu, ch: Choice, s': State)
    requires View(s, t) && Step(s, t, ch) == Some(s') && Counted(s, s.cpus[t].pc)
    requires s.cpus[t].pc.StartCheck?
    ensures OwnerMoves(s, s', t)
  {
    assert s' == if s.pending > 1 then Goto(s, t, StartWait).(lock := None) else Goto(s, t, StartUnlock);
    hide Step;
    WaitersSame(s, s');
  }

  lemma SleeperMoves(s: State, t: Cpu, ch: Choice, s': State)
    requires View(s, t) && Step(s, t, ch) == Some(s') && Counted(s, s.cpus[t].pc)
    requires s.cpus[t].pc.StartWait?
    ensures OwnerMoves(s, s', t)
  {
    assert s' == Goto(s, t, StartWake);
    hide Step;
    WaitersSame(s, s');
  }

  lemma WokenMoves(s: State, t: Cpu, ch: Choice, s': State)
    requires View(s, t) && Step(s, t, ch) == Some(s') && Counted(s, s.cpus[t].pc)
    requires s.cpus[t].pc.StartWake?
    ensures OwnerMoves(s, s', t)
  {
    assert s' == Goto(s, t, StartCheck).(lock := Some(t));
    hide Step;
    WaitersSame(s, s');
  }

  lemma UnlockMoves(s: State, t: Cpu, ch: Choice, s': State)
    requires View(s, t) && Step(s, t, ch) == Some(s') && Counted(s, s.cpus[t].pc)
    requires s.cpus[t].pc.StartUnlock?
    ensures OwnerMoves(s, s', t)
  {
    assert s' == Goto(s, t, StartReturn).(lock := None);
    hide Step;
    WaitersSame(s, s');
  }

  lemma RelockMoves(s: State, t: Cpu, ch: Choice, s': State)
    requires View(s, t) && Step(s, t, ch) == Some(s') && Counted(s, s.cpus[t].pc)
    requires s.cpus[t].pc.EndLock?
    ensures OwnerMoves(s, s', t)
  {
    assert s' == Goto(s, t, EndReset).(lock := Some(t));
    hide Step;
    WaitersSame(s, s');
  }

  lemma InsideMoves(s: State, t: Cpu, ch: Choice, s': State)
    requires View(s, t) && Step(s, t, ch) == Some(s') && Counted(s, s.cpus[t].pc)
    requires s.cpus[t].pc.Inside?
    ensures OwnerMoves(s, s', t)
  {
    InsideIs(s, t, ch, s');
    hide Step;
    WaitersSame(s, s');
  }

  /** A nested call changes the depth; the last end_exclusive leaves. */
  lemma InsideIs(s: State, t: Cpu, ch: Choice, s': State)
    requires t in s.cpus && Step(s, t, ch) == Some(s') && s.cpus[t].pc.Inside?
    ensures t in s'.cpus && s' == s.(cpus := s.cpus[t := s'.cpus[t]])
    ensures var th, th' := s.cpus[t], s'.cpus[t];
            && th' == th.(pc := th'.pc, depth := th'.depth)
            && (th'.depth > 0 <==> th'.pc.Inside?) && (th'.pc.Inside? || th'.pc.EndLock?)
  {}

  lemma ReturnMoves(s: State, t: Cpu, ch: Choice, s': State)
    requires View(s, t) && Step(s, t, ch) == Some(s') && Counted(s, s.cpus[t].pc)
    requires s.cpus[t].pc.StartReturn?
    ensures OwnerMoves(s, s', t)
  {
    assert s' == s.(cpus := s.cpus[t := s.cpus[t].(pc := Inside, depth := 1)]);
    hide Step;
    WaitersSame(s, s');
  }

  /** The steps of the request's owner. */
  lemma OwnerStepKeeps(s: State, t: Cpu, ch: Choice, s': State)
    requires InvFor(s, Some(t)) && View(s, t) && Owns(s.cpus[t].pc) && Step(s, t, ch) == Some(s')
    ensures Inv(s')
  {
    var pc := s.cpus[t].pc;
    if pc.EndReset? {
      ResetKeeps(s, t);
    } else if pc.StartScan? && pc.todo != {} {
      VisitKeeps(s, t, ch.cpu);
    } else {
      if pc.StartScan? { ScannedMoves(s, t, ch, s'); }
      else if pc.StartCount? { CountMoves(s, t, ch, s'); }
      else if pc.StartCheck? { CheckMoves(s, t, ch, s'); }
      else if pc.StartWait? { SleeperMoves(s, t, ch, s'); }
      else if pc.StartWake? { WokenMoves(s, t, ch, s'); }
      else if pc.StartUnlock? { UnlockMoves(s, t, ch, s'); }
      else if pc.EndLock? { RelockMoves(s, t, ch, s'); }
      else if pc.StartReturn? { ReturnMoves(s, t, ch, s'); }
      else { InsideMoves(s, t, ch, s'); }
      OwnerKeeps(s, s', t);
    }
  }

  lemma NotifyKeeps(s: State, t: Cpu, c: Cpu, o: Option<Cpu>)
    requires InvFor(s, o) && t in s.cpus && s.cpus[t].pc.LeaveNotify?
    requires c in s.cpus && s.cpus[c].pc.StartWait?
    ensures Inv(Goto(Goto(s, c, StartWake), t, LeaveUnlock))
  {
    assert Owns(s.cpus[c].pc);
    SignalKeeps(s, t, c);
  }

  lemma SilentNotifyKeeps(s: State, t: Cpu, o: Option<Cpu>)
    requires InvFor(s, o) && t in s.cpus && s.cpus[t].pc.LeaveNotify?
    requires s.pending != 1 || !SomeoneWaits(s)
    ensures Inv(Goto(s, t, LeaveUnlock))
  {
    assert PcOf(s, o).StartWait? ==> SomeoneWaits(s);
    NotifyDone(s, t, o);
  }

  /** The outcomes of a bystander's step that is not a plain move. */
  ghost predicate SpecialStep(s: State, t: Cpu, ch: Choice, s': State)
    requires t in s.cpus
  {
    var pc := s.cpus[t].pc;
    || (pc.StartAnnounce? && s' == Goto(s, t, StartScan(s.cpus.Keys, 0)).(pending := 1))
    || (pc.EndBroadcast? && s' == Goto(Broadcast(s), t, EndUnlock))
    || (pc.LeaveTest? && s.cpus[t].hasWaiter && s' == Goto(SetWaiter(s, t, false), t, LeaveDecrement))
    || (pc.LeaveDecrement? && s' == Goto(s, t, LeaveNotify).(pending := s.pending - 1))
    || (pc.LeaveNotify? && (s.pending != 1 || !SomeoneWaits(s)) && s' == Goto(s, t, LeaveUnlock))
    || (pc.LeaveNotify? && ch.Pick? && ch.cpu in s.cpus && s.cpus[ch.cpu].pc.StartWait?
        && s' == Goto(Goto(s, ch.cpu, StartWake), t, LeaveUnlock))
  }

  lemma StepIsSpecial(s: State, t: Cpu, ch: Choice, s': State)
    requires t in s.cpus && !Mover(s.cpus[t]) && !Owns(s.cpus[t].pc) && Step(s, t, ch) == Some(s')
    ensures SpecialStep(s, t, ch, s')
  {}

  lemma SpecialStepKeeps(s: State, t: Cpu, ch: Choice, s': State, o: Option<Cpu>)
    requires InvFor(s, o) && t in s.cpus && SpecialStep(s, t, ch, s')
    ensures Inv(s')
  {
    match s.cpus[t].pc
    case StartAnnounce => AnnounceKeeps(s, t, o);
    case EndBroadcast => BroadcastKeeps(s, t);
    case LeaveTest => UncountKeeps(s, t, o);
    case LeaveDecrement => DecrementKeeps(s, t, o);
    case LeaveNotify =>
      if s' == Goto(s, t, LeaveUnlock) && (s.pending != 1 || !SomeoneWaits(s)) {
        SilentNotifyKeeps(s, t, o);
      } else {
        NotifyKeeps(s, t, ch.cpu, o);
      }
  }

  /** The invariant is inductive: no step of any thread breaks it. */
  lemma StepKeepsInv(s: State, t: Cpu, ch: Choice, s': State)
    requires Inv(s) && t in s.cpus && Step(s, t, ch) == Some(s')
    ensures Inv(s')
  {
    var o :| InvFor(s, o);
    InvView(s, t, o);
    if Owns(s.cpus[t].pc) {
      OwnerStepKeeps(s, t, ch, s');
    } else if Mover(s.cpus[t]) {
      MoverIsQuiet(s, t, ch, s', o);
      QuietKeeps(s, s', t, o);
    } else {
      StepIsSpecial(s, t, ch, s');
      SpecialStepKeeps(s, t, ch, s', o);
    }
  }

  lemma {:induction false} RunKeepsInv(run: seq<State>, moves: seq<Move>, i: nat)
    requires IsRun(run, moves) && i < |run|
    ensures Inv(run[i])
  {
    if i == 0 {
      InitInv(run[0]);
    } else {
      RunKeepsInv(run, moves, i - 1);
      var m := moves[i - 1];
      assert Takes(run[i - 1], m, run[i - 1 + 1]);
      StepKeepsInv(run[i - 1], m.cpu, m.choice, run[i]);
    }
  }

  // ---------------------------------------------------------------------------------------
  // Calls and returns

  /** How often thread `t` made the call `call`. */
  function Calls(moves: seq<Move>, t: Cpu, call: Choice): nat {
    if moves == [] then 0
    else Calls(moves[..|moves| - 1], t, call) + if moves[|moves| - 1] == Move(t, call) then 1 else 0
  }

  /** Called start_exclusive, and the call has not returned. */
  predicate InStart(pc: Pc) {
    pc.StartLock? || pc.StartIdle? || pc.StartAsleep? || pc.StartRelock? || pc.StartAnnounce?
    || pc.StartScan? || pc.StartCount? || pc.StartCheck? || pc.StartWait? || pc.StartWake?
    || pc.StartUnlock? || pc.StartReturn?
  }

  /** Called cpu_exec_start, and the call has not returned. */
  predicate InExecStart(pc: Pc) {
    pc.ExecRead? || pc.ExecLock? || pc.ExecTest? || pc.ExecClear? || pc.ExecIdle? || pc.ExecAsleep?
    || pc.ExecRelock? || pc.ExecSet? || pc.ExecUnlock?
  }

  /** The calls of start_exclusive that have returned. */
  ghost function Started(moves: seq<Move>, t: Cpu, pc: Pc): int {
    Calls(moves, t, CallStart) - if InStart(pc) then 1 else 0
  }

  /** The calls of cpu_exec_start that have returned. */
  ghost function ExecStarted(moves: seq<Move>, t: Cpu, pc: Pc): int {
    Calls(moves, t, CallExec) - if InExecStart(pc) then 1 else 0
  }

  /** After `i` moves more calls of start_exclusive have returned to `t` than it has called end_exclusive. */
  ghost predicate Exclusively(run: seq<State>, moves: seq<Move>, i: nat, t: Cpu)
    requires i < |run| && i <= |moves| && t in run[i].cpus
  {
    Started(moves[..i], t, run[i].cpus[t].pc) > Calls(moves[..i], t, CallEnd)
  }

  /** After `i` moves more calls of cpu_exec_start have returned to `t` than it has called cpu_exec_end. */
  ghost predicate Executes(run: seq<State>, moves: seq<Move>, i: nat, t: Cpu)
    requires i < |run| && i <= |moves| && t in run[i].cpus
  {
    ExecStarted(moves[..i], t, run[i].cpus[t].pc) > Calls(moves[..i], t, CallLeave)
  }

  /** The thread's depth and place are those of its calls and returns. */
  ghost predicate Accounted(moves: seq<Move>, t: Cpu, th: Thread) {
    && Started(moves, t, th.pc) == Calls(moves, t, CallEnd) + th.depth
    && ExecStarted(moves, t, th.pc) == Calls(moves, t, CallLeave) + if th.pc.Executing? then 1 else 0
  }

  /** How a step of its own moves a thread between the calls. */
  ghost predicate Accounts(ch: Choice, th: Thread, th': Thread) {
    && (if ch.CallStart? then 1 else 0) + (if InStart(th.pc) then 1 else 0) - (if InStart(th'.pc) then 1 else 0)
       == (if ch.CallEnd? then 1 else 0) + th'.depth - th.depth
    && (if ch.CallExec? then 1 else 0) + (if InExecStart(th.pc) then 1 else 0) - (if InExecStart(th'.pc) then 1 else 0)
       == (if ch.CallLeave? then 1 else 0) + (if th'.pc.Executing? then 1 else 0) - (if th.pc.Executing? then 1 else 0)
  }

  lemma CallAccounts(s: State, t: Cpu, ch: Choice, s': State)
    requires t in s.cpus && IsCall(ch) && Local(s.cpus[t]) && Step(s, t, ch) == Some(s')
    ensures t in s'.cpus && Accounts(ch, s.cpus[t], s'.cpus[t])
  {}

  lemma StartAccounts(s: State, t: Cpu, ch: Choice, s': State)
    requires t in s.cpus && !IsCall(ch) && InStart(s.cpus[t].pc) && Local(s.cpus[t]) && Step(s, t, ch) == Some(s')
    ensures t in s'.cpus && Accounts(ch, s.cpus[t], s'.cpus[t])
  {}

  lemma StatementAccounts(s: State, t: Cpu, ch: Choice, s': State)
    requires t in s.cpus && !IsCall(ch) && !InStart(s.cpus[t].pc) && Local(s.cpus[t]) && Step(s, t, ch) == Some(s')
    ensures t in s'.cpus && Accounts(ch, s.cpus[t], s'.cpus[t])
  {}

  /** A step of another thread may wake a sleeper and mark a waiter, no more. */
  lemma OthersAccount(s: State, t: Cpu, ch: Choice, s': State, c: Cpu)
    requires t in s.cpus && c in s.cpus && c != t && Step(s, t, ch) == Some(s')
    ensures c in s'.cpus && Accounts(Proceed, s.cpus[c], s'.cpus[c])
  {}

  lemma CallsAfter(moves: seq<Move>, m: Move, t: Cpu, call: Choice)
    ensures Calls(moves + [m], t, call) == Calls(moves, t, call) + if m == Move(t, call) then 1 else 0
  {
    assert (moves + [m])[..|moves|] == moves;
  }

  lemma AccountedAfter(moves: seq<Move>, m: Move, t: Cpu, th: Thread, th': Thread)
    requires Accounted(moves, t, th) && Accounts(if m.cpu == t then m.choice else Proceed, th, th')
    ensures Accounted(moves + [m], t, th')
  {
    hide InStart, InExecStart;
    CallsAfter(moves, m, t, CallStart);
    CallsAfter(moves, m, t, CallEnd);
    CallsAfter(moves, m, t, CallExec);
    CallsAfter(moves, m, t, CallLeave);
  }

  lemma StepAccounts(s: State, m: Move, s': State, t: Cpu)
    requires m.cpu in s.cpus && Local(s.cpus[m.cpu]) && t in s.cpus && Step(s, m.cpu, m.choice) == Some(s')
    ensures t in s'.cpus
    ensures Accounts(if m.cpu == t then m.choice else Proceed, s.cpus[t], s'.cpus[t])
  {
    hide *;
    if t != m.cpu {
      OthersAccount(s, m.cpu, m.choice, s', t);
    } else if IsCall(m.choice) {
      CallAccounts(s, t, m.choice, s');
    } else if InStart(s.cpus[t].pc) {
      StartAccounts(s, t, m.choice, s');
    } else {
      StatementAccounts(s, t, m.choice, s');
    }
  }

  lemma InitAccounts(s: State, t: Cpu)
    requires Init(s) && t in s.cpus
    ensures Accounted([], t, s.cpus[t])
  {}

  lemma LocalOf(s: State, t: Cpu)
    requires Inv(s) && t in s.cpus
    ensures Local(s.cpus[t])
  {}

  /** No step starts or ends a thread. */
  lemma SameThreads(s: State, t: Cpu, ch: Choice, s': State)
    requires t in s.cpus && Step(s, t, ch) == Some(s')
    ensures s'.cpus.Keys == s.cpus.Keys
  {}

  lemma {:induction false} RunAccounts(run: seq<State>, moves: seq<Move>, i: nat, t: Cpu)
    requires IsRun(run, moves) && i < |run| && t in run[i].cpus
    ensures Accounted(moves[..i], t, run[i].cpus[t])
  {
    hide Inv, Step, Local, Accounted, Accounts, Init;
    if i == 0 {
      InitAccounts(run[0], t);
      assert moves[..0] == [];
    } else {
      var s, m, s' := run[i - 1], moves[i - 1], run[i];
      assert Takes(s, m, run[i - 1 + 1]);
      SameThreads(s, m.cpu, m.choice, s');
      RunKeepsInv(run, moves, i - 1);
      LocalOf(s, m.cpu);
      RunAccounts(run, moves, i - 1, t);
      StepAccounts(s, m, s', t);
      AccountedAfter(moves[..i - 1], m, t, s.cpus[t], s'.cpus[t]);
      assert moves[..i] == moves[..i - 1] + [m];
    }
  }

  // ---------------------------------------------------------------------------------------
  // What every run guarantees

  /**
   exclusive_context_count is the number of returned start_exclusive calls still without their
   end_exclusive. A thread stands inside exactly while there is one, that is until the outermost
   end_exclusive, and executes exactly between the return of cpu_exec_start and cpu_exec_end.
   */
  lemma SectionsNest(run: seq<State>, moves: seq<Move>, i: nat, t: Cpu)
    requires IsRun(run, moves) && i < |run| && t in run[i].cpus
    ensures run[i].cpus[t].depth == Started(moves[..i], t, run[i].cpus[t].pc) - Calls(moves[..i], t, CallEnd)
    ensures Exclusively(run, moves, i, t) <==> run[i].cpus[t].pc.Inside?
    ensures Executes(run, moves, i, t) <==> run[i].cpus[t].pc.Executing?
  {
    RunAccounts(run, moves, i, t);
    RunKeepsInv(run, moves, i);
    assert Local(run[i].cpus[t]);
  }

  /** No call is refused: a thread outside may start a section or execution, one inside may nest or end, and one
      that executes may stop. A nested start_exclusive returns at once, without the lock. */
  lemma CallsAccepted(s: State, t: Cpu)
    requires t in s.cpus
    ensures s.cpus[t].pc.Outside? ==> Step(s, t, CallStart).Some? && Step(s, t, CallExec).Some?
    ensures s.cpus[t].pc.Executing? ==> Step(s, t, CallLeave).Some?
    ensures s.cpus[t].pc.Inside? ==> Step(s, t, CallStart).Some? && Step(s, t, CallEnd).Some?
    ensures s.cpus[t].pc.Inside? ==>
              var s' := Step(s, t, CallStart).value; t in s'.cpus && s'.cpus[t].pc.Inside? && s'.lock == s.lock
  {}

  /** cpu_exec_start and cpu_exec_end go for the list lock exactly if they have seen a pending request. */
  lemma LocksIfPending(s: State, m: Move, s': State)
    requires Takes(s, m, s') && (s.cpus[m.cpu].pc.ExecRead? || s.cpus[m.cpu].pc.LeaveRead?)
    ensures m.cpu in s'.cpus && s'.lock == s.lock
    ensures s.pending != 0 <==> s'.cpus[m.cpu].pc.ExecLock? || s'.cpus[m.cpu].pc.LeaveLock?
    ensures s.pending == 0 ==> s'.cpus[m.cpu].pc == if s.cpus[m.cpu].pc.ExecRead? then Executing else Outside
  {}

  /** start_exclusive is never called, nested or not, by a CPU that is marked running. */
  lemma StartNotRunning(run: seq<State>, moves: seq<Move>, i: nat)
    requires IsRun(run, moves) && i < |moves| && moves[i].choice == CallStart
    ensures moves[i].cpu in run[i].cpus && !run[i].cpus[moves[i].cpu].running
  {
    RunKeepsInv(run, moves, i);
    assert Takes(run[i], moves[i], run[i + 1]);
    assert Local(run[i].cpus[moves[i].cpu]);
  }

  /**
   In every interleaving, while more calls of start_exclusive have returned to one thread than it
   has called end_exclusive, this holds of no other thread, and no CPU is between the return of
   cpu_exec_start and its cpu_exec_end.
   */
  lemma MutualExclusion(run: seq<State>, moves: seq<Move>, i: nat, x: Cpu, c: Cpu)
    requires IsRun(run, moves) && i < |run| && x in run[i].cpus && c in run[i].cpus
    requires Exclusively(run, moves, i, x)
    ensures !Executes(run, moves, i, c) && (c != x ==> !Exclusively(run, moves, i, c))
  {
    SectionsNest(run, moves, i, x);
    SectionsNest(run, moves, i, c);
    RunKeepsInv(run, moves, i);
    NobodyElse(run[i], x, c);
  }

  lemma NobodyElse(s: State, x: Cpu, c: Cpu)
    requires Inv(s) && x in s.cpus && c in s.cpus && s.cpus[x].pc.Inside?
    ensures !s.cpus[c].pc.Executing? && (c != x ==> !s.cpus[c].pc.Inside?)
  {
    var o :| InvFor(s, o);
    assert Local(s.cpus[x]) && Local(s.cpus[c]);
    assert o == Some(x);
    assert s.cpus[c].hasWaiter ==> c in Waiters(s);
  }

  /** `running` may be true while another thread is exclusive, but then the CPU is on its way to wait. */
  lemma RunningUnderExclusion(run: seq<State>, moves: seq<Move>, i: nat, x: Cpu, c: Cpu)
    requires IsRun(run, moves) && i < |run| && x in run[i].cpus && c in run[i].cpus
    requires Exclusively(run, moves, i, x) && run[i].cpus[c].running
    ensures var pc := run[i].cpus[c].pc; pc.ExecRead? || pc.ExecLock? || pc.ExecTest? || pc.ExecClear?
    ensures run[i].pending == 1 && !run[i].cpus[c].hasWaiter
  {
    SectionsNest(run, moves, i, x);
    RunKeepsInv(run, moves, i);
    var s := run[i];
    var o :| InvFor(s, o);
    assert Local(s.cpus[x]) && Local(s.cpus[c]);
    assert o == Some(x);
    assert s.cpus[c].hasWaiter ==> c in Waiters(s);
  }

  /** While the lock is free, pending_cpus is one more than the number of CPUs with a waiter. */
  lemma PendingCountsWaiters(run: seq<State>, moves: seq<Move>, i: nat)
    requires IsRun(run, moves) && i < |run| && run[i].lock == None
    ensures run[i].pending == 0 ==> Waiters(run[i]) == {}
    ensures run[i].pending != 0 ==> run[i].pending == 1 + |Waiters(run[i])|
  {
    RunKeepsInv(run, moves, i);
    var o :| InvFor(run[i], o);
    assert o.Some? ==> Owns(PcOf(run[i], o)) && !HoldsLock(PcOf(run[i], o));
  }

  /** At most one thread sleeps on exclusive_cond, and with the lock free only while it must. */
  lemma OneSleeper(run: seq<State>, moves: seq<Move>, i: nat, x: Cpu, y: Cpu)
    requires IsRun(run, moves) && i < |run| && x in run[i].cpus && y in run[i].cpus
    requires run[i].cpus[x].pc.StartWait? && run[i].cpus[y].pc.StartWait?
    ensures x == y
    ensures run[i].lock == None ==> run[i].pending > 1
  {
    RunKeepsInv(run, moves, i);
    var o :| InvFor(run[i], o);
    assert o == Some(x);
  }

  // ---------------------------------------------------------------------------------------
  // Nobody is forgotten

  predicate AtRest(pc: Pc) {
    pc.Outside? || pc.Inside? || pc.Executing?
  }

  predicate Asleep(pc: Pc) {
    pc.StartAsleep? || pc.ExecAsleep? || pc.StartWait?
  }

  ghost predicate CanStep(s: State, t: Cpu)
    requires t in s.cpus
  {
    exists ch :: Step(s, t, ch).Some?
  }

  lemma HolderIsAwake(pc: Pc)
    requires HoldsLock(pc)
    ensures !AtRest(pc) && !Code(pc).Lock?
  {}

  lemma ScanSteps(s: State, t: Cpu, c: Cpu)
    requires t in s.cpus && s.cpus[t].pc.StartScan? && c in s.cpus[t].pc.todo && c in s.cpus
    ensures CanStep(s, t)
  {
    assert Step(s, t, Pick(c)).Some?;
  }

  lemma NotifySteps(s: State, t: Cpu, c: Cpu)
    requires t in s.cpus && s.cpus[t].pc.LeaveNotify? && c in s.cpus && s.cpus[c].pc == StartWait
    ensures CanStep(s, t)
  {
    assert Step(s, t, Pick(c)).Some?;
  }

  lemma HolderCanStep(s: State, t: Cpu, o: Option<Cpu>)
    requires InvFor(s, o) && t in s.cpus && HoldsLock(s.cpus[t].pc)
    ensures CanStep(s, t)
  {
    var pc := s.cpus[t].pc;
    assert Local(s.cpus[t]) && (pc.StartScan? ==> pc.todo <= s.cpus.Keys);
    hide InvFor, Step, CanStep, Code, HoldsLock, AtRest;
    HolderIsAwake(pc);
    if pc.StartScan? && pc.todo != {} {
      var c :| c in pc.todo;
      ScanSteps(s, t, c);
    } else if pc.LeaveNotify? && SomeoneWaits(s) {
      var c :| c in s.cpus && s.cpus[c].pc == StartWait;
      NotifySteps(s, t, c);
    } else {
      ProceedSteps(s, t);
    }
  }

  lemma ProceedSteps(s: State, t: Cpu)
    requires t in s.cpus
    requires var pc := s.cpus[t].pc;
             && !AtRest(pc) && !(pc.StartScan? && pc.todo != {}) && !(pc.LeaveNotify? && SomeoneWaits(s))
             && (Code(pc).Lock? ==> s.lock == None)
    ensures CanStep(s, t)
  {
    assert Step(s, t, Proceed).Some?;
  }

  /**
   No deadlock and no lost wake-up: when every thread is at rest, asleep, or held up by the lock,
   the lock is in fact free, a thread asleep on exclusive_cond waits for a CPU that still executes
   and carries has_waiter, and a thread asleep on exclusive_resume waits for an exclusive section
   that is running or waits for such a CPU itself.
   */
  lemma NoDeadlock(run: seq<State>, moves: seq<Move>, i: nat)
    requires IsRun(run, moves) && i < |run|
    requires forall t | t in run[i].cpus :: AtRest(run[i].cpus[t].pc) || Asleep(run[i].cpus[t].pc) || !CanStep(run[i], t)
    ensures run[i].lock == None
    ensures forall t | t in run[i].cpus :: AtRest(run[i].cpus[t].pc) || Asleep(run[i].cpus[t].pc)
    ensures (exists t :: t in run[i].cpus && run[i].cpus[t].pc.StartWait?)
            ==> exists c :: c in run[i].cpus && run[i].cpus[c].hasWaiter && run[i].cpus[c].pc.Executing?
    ensures SomeoneIdles(run[i])
            ==> exists x :: x in run[i].cpus && (run[i].cpus[x].pc.Inside? || run[i].cpus[x].pc.StartWait?)
  {
    hide InvFor, IsRun, Step, Code, CanStep, AtRest, Asleep, SomeoneWaits;
    RunKeepsInv(run, moves, i);
    var s := run[i];
    var o :| InvFor(s, o);
    LockHeld(s, o);
    if s.lock.Some? {
      HolderAwake(s, s.lock.value);
      HolderCanStep(s, s.lock.value, o);
      assert false;
    }
    forall t | t in s.cpus ensures AtRest(s.cpus[t].pc) || Asleep(s.cpus[t].pc) {
      if !AtRest(s.cpus[t].pc) && !Asleep(s.cpus[t].pc) { ProceedSteps(s, t); }
    }
    SleepersHaveCause(s, o);
  }

  lemma LockHeld(s: State, o: Option<Cpu>)
    requires InvFor(s, o)
    ensures s.lock.Some? ==> s.lock.value in s.cpus && HoldsLock(s.cpus[s.lock.value].pc)
    ensures forall t | t in s.cpus :: HoldsLock(s.cpus[t].pc) ==> s.lock == Some(t)
  {}

  lemma HolderAwake(s: State, t: Cpu)
    requires t in s.cpus && HoldsLock(s.cpus[t].pc)
    ensures !AtRest(s.cpus[t].pc) && !Asleep(s.cpus[t].pc)
  {}

  lemma SleepersHaveCause(s: State, o: Option<Cpu>)
    requires InvFor(s, o) && s.lock == None
    requires forall t | t in s.cpus :: AtRest(s.cpus[t].pc) || Asleep(s.cpus[t].pc)
    ensures (exists t :: t in s.cpus && s.cpus[t].pc.StartWait?)
            ==> exists c :: c in s.cpus && s.cpus[c].hasWaiter && s.cpus[c].pc.Executing?
    ensures SomeoneIdles(s)
            ==> exists x :: x in s.cpus && (s.cpus[x].pc.Inside? || s.cpus[x].pc.StartWait?)
  {}
}
