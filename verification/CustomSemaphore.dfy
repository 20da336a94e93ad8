/** `ssooii/custom_semaphore/semaphore/semaphore.h`: a counting semaphore made of a spinlock, a counter
    that may go negative, a queue of waiting processes and a wake-up signal.

    `n` processes take and release the semaphore a given number of times, as `test.c` does.  Counter
    updates, pushes and pops are taken apart; a step touches one shared field for writing, and where it
    also reads `first` or `size` of the queue it holds the spinlock.  The spinlock's busy wait is a step
    that is not enabled until the lock is free.  The wake-up signal is blocked everywhere but in
    `sigsuspend`, so that it stays pending until the process gets there. */
module CustomSemaphore {
  import opened PidQueue

  datatype Pc =
    | Idle          // outside; to enter: compare-and-swap on the spinlock
    | DecRead       // first half of --count
    | DecWrite      // second half, and the test
    | PushCheck     // the assertion of queue_push
    | PushItem      // first half of queue_push
    | PushSize      // second half
    | ReleaseWait   // free the spinlock
    | Suspend       // sigsuspend
    | ReleaseGo     // free the spinlock
    | Critical      // in the critical section; to leave: compare-and-swap on the spinlock
    | IncRead       // first half of ++count
    | IncWrite      // second half, and the test
    | ReadFront     // queue_front
    | Kill          // the wake-up signal to the process read
    | PopFirst      // first half of queue_pop
    | PopSize       // second half
    | ReleaseDone   // free the spinlock
    | Aborted       // the assertion of queue_push failed; the spinlock stays taken

  /** `left`: how often the process has still to take the semaphore. */
  datatype Proc = Proc(pc: Pc, left: nat, seen: int)

  datatype State = State(lock: bool, count: int, ring: Ring, pending: seq<bool>, procs: seq<Proc>)

  predicate Enabled(s: State, p: nat) {
    && p < |s.procs| && p < |s.pending|
    && match s.procs[p].pc
       case Idle => s.procs[p].left > 0 && !s.lock
       case Critical => !s.lock
       case Suspend => s.pending[p]
       case Aborted => false
       case _ => true
  }

  function Go(s: State, p: nat, pc: Pc): State
    requires p < |s.procs|
  {
    s.(procs := s.procs[p := s.procs[p].(pc := pc)])
  }

  function DoKill(s: State, p: nat): State
    requires p < |s.procs|
  {
    var front := s.procs[p].seen;
    var s' := Go(s, p, PopFirst);
    if 0 <= front < |s.pending| then s'.(pending := s.pending[front := true]) else s'
  }

  function Do(s: State, p: nat): State
    requires Enabled(s, p) && Valid(s.ring)
  {
    var c := s.procs[p];
    match c.pc
    case Idle => Go(s, p, DecRead).(lock := true)
    case DecRead => s.(procs := s.procs[p := c.(pc := DecWrite, seen := s.count)])
    case DecWrite => Go(s, p, if c.seen - 1 < 0 then PushCheck else ReleaseGo).(count := c.seen - 1)
    case PushCheck => Go(s, p, if s.ring.size == |s.ring.items| then Aborted else PushItem)
    case PushItem => Go(s, p, PushSize).(ring := Store(s.ring, p))
    case PushSize => Go(s, p, ReleaseWait).(ring := Lengthen(s.ring))
    case ReleaseWait => Go(s, p, Suspend).(lock := false)
    case Suspend => Go(s, p, Critical).(pending := s.pending[p := false])
    case ReleaseGo => Go(s, p, Critical).(lock := false)
    case Critical => Go(s, p, IncRead).(lock := true)
    case IncRead => s.(procs := s.procs[p := c.(pc := IncWrite, seen := s.count)])
    case IncWrite => Go(s, p, if c.seen + 1 <= 0 then ReadFront else ReleaseDone).(count := c.seen + 1)
    case ReadFront => s.(procs := s.procs[p := c.(pc := Kill, seen := s.ring.items[s.ring.first])])
    case Kill => DoKill(s, p)
    case PopFirst => Go(s, p, PopSize).(ring := Advance(s.ring))
    case PopSize => Go(s, p, ReleaseDone).(ring := if s.ring.size > 0 then Shorten(s.ring) else s.ring)
    case ReleaseDone =>
      s.(lock := false, procs := s.procs[p := c.(pc := Idle, left := if c.left > 0 then c.left - 1 else 0)])
    case Aborted => s
  }

  /** The processes that want the semaphore at least once more, or have it. */
  ghost function Clients(procs: seq<Proc>): set<nat> {
    set p: nat | p < |procs| && procs[p].left > 0
  }

  ghost predicate Next(s: State, s': State) {
    exists p :: Enabled(s, p) && Valid(s.ring) && s' == Do(s, p)
  }

  /** After `semaphore_init(sem, num)`, with a queue of the given capacity. */
  ghost predicate Init(n: nat, num: nat, capacity: nat, s: State) {
    && |s.procs| == |s.pending| == n && |s.ring.items| == capacity > 0
    && !s.lock && s.count == num && s.ring.first == s.ring.size == 0
    && forall p {:trigger s.procs[p]} :: 0 <= p < n ==> s.procs[p].pc.Idle? && !s.pending[p]
  }

  ghost predicate Run(n: nat, num: nat, capacity: nat, run: seq<State>) {
    && |run| > 0 && Init(n, num, capacity, run[0])
    && forall i :: 0 < i < |run| ==> Next(run[i - 1], run[i])
  }
}
