/** `ssooii/pist2/pist2.c`: N gunslingers, one process each, play rounds under System V semaphores.

    The program is modelled as a transition system: one program counter per process, one atomic step
    per access to shared memory, to a semaphore or to the message queue.  Read-modify-write
    operations on the status words (`status |= ...`) are two steps, so that they can interleave;
    `rounds++`, `process_count++` and `alive_count++`, which only one process does at a time, are one. */
module Pist2 {

  /** The two ways the program is built: by default shots travel as messages; with
      `BYPASS_STATEMENT` a bit of the victim's status word is the only record of a shot. */
  datatype Build = MessageQueue | StatusBits

  /** The bits of a status word that this program uses. */
  datatype Status = Status(ready: bool, deadThisRound: bool, dead: bool)

  const READY := Status(true, false, false)
  const DEAD := Status(false, false, true)

  /** Where a child process stands; each is the operation it will do next. */
  datatype Pc =
    | Unborn             // not forked yet
    | BootReady          // status = READY
    | BootDec            // decrement READY (which is S2)
    | BootZero           // wait for READY to be zero
    | Elect              // i = process_count
    | Scan(i: nat)       // look at the player below i, to find the last one not dead
    | AskLast            // coordinator: is alive_count 1?
    | CountRound         // coordinator: rounds++
    | CacheAlive         // coordinator: remember alive_count
    | IncShot            // coordinator: raise S1
    | Choose             // ask the library for a victim
    | ReadTarget         // first half of the victim's status |= DEAD_THIS_ROUND
    | WriteTarget        // second half
    | Send               // send the message
    | DecShot            // decrement S1
    | ZeroShot           // wait for S1 to be zero
    | IncReceived        // coordinator: raise S2
    | Receive            // have I been shot?
    | Drain              // throw away the other messages
    | ReadSelf           // first half of my status |= DEAD
    | WriteSelf          // second half
    | DecAlive           // atomic decrement of alive_count
    | BeReady            // status = READY
    | DecReceived        // decrement S2
    | ZeroReceived       // wait for S2 to be zero
    | AskDead            // am I dead?
    | Gone               // exited
    | Aborted            // an assertion failed

  /** A child: its program counter and its local variables. */
  datatype Proc = Proc(pc: Pc, coordinator: bool, cached: int, target: nat, seen: Status)

  /** Where the parent stands; `k` is the child being created. */
  datatype ParentPc = MarkDead(k: nat) | Fork(k: nat) | Register(k: nat) | CountAlive(k: nat) | PassReady | Reap | Over

  datatype State = State(parent: ParentPc, procs: seq<Proc>, status: seq<Status>, s1: int, s2: int,
                         processCount: nat, aliveCount: int, rounds: nat, queue: multiset<nat>)

  /** Who moves; the victim is used only by a child that asks the library for one. */
  datatype Actor = Parent | Child(p: nat, victim: nat)

  /** A semaphore operation: add `op` unless that makes the value negative; zero waits for zero. */
  predicate SemOk(value: int, op: int) {
    if op < 0 then value + op >= 0 else if op == 0 then value == 0 else true
  }

  /** What is assumed of the library: the victim is a living player other than the shooter. */
  predicate LivingVictim(s: State, p: nat, victim: nat)
    requires |s.status| == |s.procs|
  {
    victim < |s.procs| && victim != p && !s.status[victim].dead
  }

  predicate ChildReady(s: State, p: nat, victim: nat)
    requires |s.status| == |s.procs| && p < |s.procs|
  {
    match s.procs[p].pc
    case Unborn => false
    case Gone => false
    case Aborted => false
    case BootDec => SemOk(s.s2, -1)
    case BootZero => SemOk(s.s2, 0)
    case IncShot => SemOk(s.s1, s.procs[p].cached)
    case Choose => LivingVictim(s, p, victim)
    case DecShot => SemOk(s.s1, -1)
    case ZeroShot => SemOk(s.s1, 0)
    case IncReceived => SemOk(s.s2, s.procs[p].cached)
    case DecReceived => SemOk(s.s2, -1)
    case ZeroReceived => SemOk(s.s2, 0)
    case _ => true
  }

  predicate ParentReady(s: State) {
    match s.parent
    case PassReady => SemOk(s.s2, -1)
    case Reap => forall p :: 0 <= p < |s.procs| ==> s.procs[p].pc.Gone?
    case Over => false
    case _ => true
  }

  predicate Enabled(s: State, a: Actor) {
    && |s.status| == |s.procs|
    && match a
       case Parent => ParentReady(s)
       case Child(p, victim) => p < |s.procs| && ChildReady(s, p, victim)
  }

  function Go(s: State, p: nat, pc: Pc): State
    requires p < |s.procs|
  {
    s.(procs := s.procs[p := s.procs[p].(pc := pc)])
  }

  /** One turn of the loop of `is_current_proc_coordinator`: the last player not DEAD coordinates. */
  function DoScan(s: State, p: nat, i: nat): (s': State)
    requires p < |s.procs|
    ensures s'.s1 == s.s1 && s'.s2 == s.s2
  {
    if i == 0 || i > |s.status| then
      Go(s, p, Aborted)
    else if s.status[i - 1].dead then
      Go(s, p, Scan(i - 1))
    else
      s.(procs := s.procs[p := s.procs[p].(coordinator := i - 1 == p, pc := if i - 1 == p then AskLast else Choose)])
  }

  function DoReadTarget(s: State, p: nat): (s': State)
    requires p < |s.procs|
    ensures s'.s1 == s.s1 && s'.s2 == s.s2
  {
    var me := s.procs[p];
    if me.target < |s.status| then
      s.(procs := s.procs[p := me.(seen := s.status[me.target], pc := WriteTarget)])
    else
      Go(s, p, Aborted)
  }

  function DoWriteTarget(build: Build, s: State, p: nat): (s': State)
    requires p < |s.procs|
    ensures s'.s1 == s.s1 && s'.s2 == s.s2
  {
    var me := s.procs[p];
    if me.target < |s.status| then
      Go(s, p, if build.MessageQueue? then Send else DecShot)
      .(status := s.status[me.target := me.seen.(deadThisRound := true)])
    else
      Go(s, p, Aborted)
  }

  /** Was I shot?  The default build takes a message, the other looks at a bit. */
  function DoReceive(build: Build, s: State, p: nat): (s': State)
    requires p < |s.procs| && p < |s.status|
    ensures s'.s1 == s.s1 && s'.s2 == s.s2
  {
    if build.MessageQueue? then
      if s.queue[p] > 0 then Go(s, p, Drain).(queue := s.queue - multiset{p}) else Go(s, p, BeReady)
    else
      Go(s, p, if s.status[p].deadThisRound then ReadSelf else BeReady)
  }

  /** Throws away the remaining messages, then checks that the bit agrees. */
  function DoDrain(s: State, p: nat): (s': State)
    requires p < |s.procs| && p < |s.status|
    ensures s'.s1 == s.s1 && s'.s2 == s.s2
  {
    if s.queue[p] > 0 then
      s.(queue := s.queue - multiset{p})
    else
      Go(s, p, if s.status[p].deadThisRound then ReadSelf else Aborted)
  }

  /** The next operation of child `p`; it moves no other process. */
  function DoChild(build: Build, s: State, p: nat, victim: nat): (s': State)
    requires |s.status| == |s.procs| && p < |s.procs|
    ensures |s'.status| == |s'.procs| == |s.procs| && s'.parent == s.parent
    ensures forall q :: 0 <= q < |s.procs| && q != p ==> s'.procs[q] == s.procs[q]
  {
    var me := s.procs[p];
    match me.pc
    case BootReady => Go(s, p, BootDec).(status := s.status[p := READY])
    case BootDec => Go(s, p, BootZero).(s2 := s.s2 - 1)
    case BootZero => Go(s, p, Elect)
    case Elect => Go(s, p, Scan(s.processCount))
    case Scan(i) => DoScan(s, p, i)
    case AskLast => Go(s, p, if s.aliveCount == 1 then Gone else CountRound)
    case CountRound => Go(s, p, CacheAlive).(rounds := s.rounds + 1)
    case CacheAlive => s.(procs := s.procs[p := me.(cached := s.aliveCount, pc := IncShot)])
    case IncShot => Go(s, p, Choose).(s1 := s.s1 + me.cached)
    case Choose => s.(procs := s.procs[p := me.(target := victim, pc := ReadTarget)])
    case ReadTarget => DoReadTarget(s, p)
    case WriteTarget => DoWriteTarget(build, s, p)
    case Send => Go(s, p, DecShot).(queue := s.queue + multiset{me.target})
    case DecShot => Go(s, p, ZeroShot).(s1 := s.s1 - 1)
    case ZeroShot => Go(s, p, if me.coordinator then IncReceived else Receive)
    case IncReceived => Go(s, p, Receive).(s2 := s.s2 + me.cached)
    case Receive => DoReceive(build, s, p)
    case Drain => DoDrain(s, p)
    case ReadSelf => s.(procs := s.procs[p := me.(seen := s.status[p], pc := WriteSelf)])
    case WriteSelf => Go(s, p, DecAlive).(status := s.status[p := me.seen.(dead := true)])
    case DecAlive => Go(s, p, DecReceived).(aliveCount := s.aliveCount - 1)
    case BeReady => Go(s, p, DecReceived).(status := s.status[p := READY])
    case DecReceived => Go(s, p, ZeroReceived).(s2 := s.s2 - 1)
    case ZeroReceived => Go(s, p, AskDead)
    case AskDead => Go(s, p, if s.status[p].dead then Gone else Elect)
    case _ => s
  }

  function DoParent(s: State): State
    requires |s.status| == |s.procs|
  {
    match s.parent
    case MarkDead(k) =>
      if k < |s.procs| then s.(status := s.status[k := DEAD], parent := Fork(k)) else s.(parent := PassReady)
    case Fork(k) => if k < |s.procs| then Go(s, k, BootReady).(parent := Register(k)) else s
    case Register(k) => s.(processCount := s.processCount + 1, parent := CountAlive(k))
    case CountAlive(k) => s.(aliveCount := s.aliveCount + 1, parent := MarkDead(k + 1))
    case PassReady => s.(s2 := s.s2 - 1, parent := Reap)
    case Reap => s.(parent := Over)
    case Over => s
  }

  function Do(build: Build, s: State, a: Actor): State
    requires Enabled(s, a)
  {
    match a
    case Parent => DoParent(s)
    case Child(p, victim) => DoChild(build, s, p, victim)
  }

  ghost predicate Next(build: Build, s: State, s': State) {
    exists a :: Enabled(s, a) && s' == Do(build, s, a)
  }

  /** Memory is mapped zeroed, READY (which is S2) is set to n + 1, and nobody exists yet. */
  ghost predicate Init(n: nat, s: State) {
    && n > 0
    && s.parent == MarkDead(0)
    && |s.procs| == |s.status| == n
    && (forall p :: 0 <= p < n ==> s.procs[p].pc.Unborn?)
    && s.s1 == 0 && s.s2 == n + 1
    && s.processCount == 0 && s.aliveCount == 0 && s.rounds == 0 && s.queue == multiset{}
  }

  /** A run is a sequence of states, from an initial one, each obtained from the last by one step. */
  ghost predicate Run(build: Build, n: nat, run: seq<State>) {
    |run| > 0 && Init(n, run[0]) && forall i :: 0 < i < |run| ==> Next(build, run[i - 1], run[i])
  }

  /** No process can move. */
  ghost predicate Stuck(s: State) {
    forall a :: !Enabled(s, a)
  }
}
