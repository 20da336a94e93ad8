/** What holds of every run of `CustomSemaphore`. */
module SemaphoreRuns {
  import opened FiniteSets
  import opened Options
  import opened PidQueue
  import opened CustomSemaphore
  import opened FifoSemaphore
  import opened SemaphoreInvariant

  // ----- Runs -----

  /** The process whose step leads from `s` to `s'`. */
  ghost function Mover(s: State, s': State): (p: nat)
    requires Next(s, s')
    ensures Enabled(s, p) && Valid(s.ring) && s' == Do(s, p)
  {
    var p :| Enabled(s, p) && Valid(s.ring) && s' == Do(s, p);
    p
  }

  ghost function PhaseOf(num: nat, run: seq<State>): Phase
    requires |run| > 0 && forall i :: 0 < i < |run| ==> Next(run[i - 1], run[i])
  {
    if |run| == 1 then Start()
    else
      var s := run[|run| - 2];
      Follow(num, PhaseOf(num, run[..|run| - 1]), s, Mover(s, run[|run| - 1]))
  }

  lemma {:induction false} RunInv(n: nat, num: nat, capacity: nat, run: seq<State>)
    requires Run(n, num, capacity, run)
    ensures Inv(n, num, capacity, run[|run| - 1], PhaseOf(num, run))
  {
    hide Inv, Do, Enabled, Follow;
    if |run| == 1 {
      InitInv(n, num, capacity, run[0]);
    } else {
      var before := run[..|run| - 1];
      RunInv(n, num, capacity, before);
      var s := run[|run| - 2];
      StepInv(n, num, capacity, s, PhaseOf(num, before), Mover(s, run[|run| - 1]));
    }
  }

  /** Refinement: seen through its permits and its waiting line, a run is a history of the atomic
      first-in first-out semaphore. */
  lemma {:induction false} RunIsHistory(n: nat, num: nat, capacity: nat, run: seq<State>)
    requires Run(n, num, capacity, run)
    ensures History(num, seq(|run|, i requires 0 <= i < |run| => PhaseOf(num, run[..i + 1]).sem))
  {
    hide Event, Init, Next, PhaseOf;
    var ms := seq(|run|, i requires 0 <= i < |run| => PhaseOf(num, run[..i + 1]).sem);
    StartPhase(num, run[..1]);
    forall i | 0 < i < |ms|
      ensures ms[i] == ms[i - 1] || Event(num, ms[i - 1], ms[i])
    {
      StepHistory(n, num, capacity, run[..i + 1]);
      assert run[..i + 1][..i] == run[..i];
    }
  }

  lemma StartPhase(num: nat, run: seq<State>)
    requires |run| == 1
    ensures PhaseOf(num, run).sem == Sem({}, [])
  {
  }

  lemma StepHistory(n: nat, num: nat, capacity: nat, run: seq<State>)
    requires Run(n, num, capacity, run) && |run| > 1
    ensures var m, m' := PhaseOf(num, run[..|run| - 1]).sem, PhaseOf(num, run).sem;
            m' == m || Event(num, m, m')
  {
    hide Inv, Do, Enabled, Follow, Event, Init;
    var before, s := run[..|run| - 1], run[|run| - 2];
    RunInv(n, num, capacity, before);
    StepInv(n, num, capacity, s, PhaseOf(num, before), Mover(s, run[|run| - 1]));
  }

  lemma StepClients(s: State, p: nat)
    requires Enabled(s, p) && Valid(s.ring)
    ensures Clients(Do(s, p).procs) <= Clients(s.procs)
  {
    hide Enabled;
    StepLeft(s, p);
  }

  lemma StepLeft(s: State, p: nat)
    requires Enabled(s, p) && Valid(s.ring)
    ensures p < |s.procs| == |Do(s, p).procs| && Do(s, p).procs == s.procs[p := Do(s, p).procs[p]]
    ensures Do(s, p).procs[p].left ==
            s.procs[p].left - (if s.procs[p].pc.ReleaseDone? && s.procs[p].left > 0 then 1 else 0)
  {
    hide Store, Lengthen, Advance, Shorten, Valid;
  }

  /** Nobody comes to want the semaphore. */
  lemma {:induction false} ClientsShrink(n: nat, num: nat, capacity: nat, run: seq<State>)
    requires Run(n, num, capacity, run)
    ensures Clients(run[|run| - 1].procs) <= Clients(run[0].procs)
    ensures |Clients(run[|run| - 1].procs)| <= |Clients(run[0].procs)|
  {
    hide Do, Enabled, Init, Clients;
    if |run| > 1 {
      ClientsShrink(n, num, capacity, run[..|run| - 1]);
      var s := run[|run| - 2];
      StepClients(s, Mover(s, run[|run| - 1]));
    }
    SubsetSize(Clients(run[|run| - 1].procs), Clients(run[0].procs));
  }

  // ----- Safety -----

  ghost function InCritical(s: State): set<nat> {
    set p: nat | p in UpTo(|s.procs|) && p < |s.procs| && s.procs[p].pc.Critical?
  }

  /** Between its decrement of the counter and its increment. */
  predicate Between(pc: Pc) {
    !Outside(pc)
  }

  ghost function Inside(s: State): set<nat> {
    set p: nat | p in UpTo(|s.procs|) && p < |s.procs| && Between(s.procs[p].pc)
  }

  /** The queue holds just the processes that sleep without a wake-up signal. */
  ghost predicate HoldsSleepers(queue: seq<nat>, procs: seq<Proc>, pending: seq<bool>)
    requires |procs| == |pending|
  {
    forall p: nat {:trigger procs[p]} :: p < |procs| ==> (p in queue <==> procs[p].pc.Suspend? && !pending[p])
  }

  /** At most `num` processes are in the critical section; the counter is `num` less the processes
      between decrement and increment; while the spinlock is free, the length of the queue is what the
      counter is below zero, and the queue holds just the processes asleep without a signal; and no
      assertion fails unless more processes want the semaphore than there are permits and queue places
      together.  All but the last holds even then: whoever aborts keeps the spinlock. */
  lemma SemaphoreIsSafe(n: nat, num: nat, capacity: nat, run: seq<State>)
    requires Run(n, num, capacity, run)
    ensures var s := run[|run| - 1];
            && |s.procs| == |s.pending| == n && Valid(s.ring)
            && |InCritical(s)| <= num
            && s.count == num - |Inside(s)|
            && (!s.lock ==> |Contents(s.ring)| == (if s.count < 0 then -s.count else 0))
            && (!s.lock ==> HoldsSleepers(Contents(s.ring), s.procs, s.pending))
            && forall p {:trigger s.procs[p]} :: 0 <= p < n ==>
                 && (s.procs[p].pc.Aborted? ==> |Clients(run[0].procs)| > num + capacity && s.lock)
                 && (s.pending[p] ==> s.procs[p].pc.Suspend?)
  {
    hide Inv, Init, Next, HoldsSleepers, Clients;
    RunInv(n, num, capacity, run);
    ClientsShrink(n, num, capacity, run);
    var s, h := run[|run| - 1], PhaseOf(num, run);
    InvSafe(n, num, capacity, s, h);
    InvQueue(n, num, capacity, s, h);
    forall p: nat {:trigger s.procs[p]} | p < n && s.procs[p].pc.Aborted?
      ensures |Clients(run[0].procs)| > num + capacity
    {
      if |Clients(run[0].procs)| <= num + capacity {
        NobodyAborts(n, num, capacity, s, h, p);
      }
    }
  }

  lemma InvSafe(n: nat, num: nat, capacity: nat, s: State, h: Phase)
    requires Inv(n, num, capacity, s, h)
    ensures |s.procs| == |s.pending| == n
    ensures |InCritical(s)| <= num && s.count == num - |Inside(s)|
    ensures forall p {:trigger s.procs[p]} :: 0 <= p < n ==>
              (s.procs[p].pc.Aborted? ==> s.lock) && (s.pending[p] ==> s.procs[p].pc.Suspend?)
  {
    hide QueueInv, Place, Between, Everyone;
    AllPlaces(n, num, capacity, s, h);
    AtMostAll(n, num, h.sem);
    InsideSize(n, num, h.sem);
    assert Inside(s) == Everyone(h.sem);
    SubsetSize(InCritical(s), h.sem.inside);
  }

  lemma InsideSize(n: nat, num: nat, m: Sem)
    requires Sound(n, num, m)
    ensures |m.inside| <= num
  {
  }

  lemma AllPlaces(n: nat, num: nat, capacity: nat, s: State, h: Phase)
    requires Inv(n, num, capacity, s, h)
    ensures forall p: nat {:trigger s.procs[p]} :: p < n ==>
              && (s.procs[p].pc.Critical? ==> p in h.sem.inside)
              && (Between(s.procs[p].pc) <==> p in Everyone(h.sem))
              && (s.procs[p].pc.Aborted? ==> s.lock) && (s.pending[p] ==> s.procs[p].pc.Suspend?)
  {
    hide QueueInv, Sound;
    forall p: nat {:trigger s.procs[p]} | p < n
      ensures s.procs[p].pc.Critical? ==> p in h.sem.inside
      ensures Between(s.procs[p].pc) <==> p in Everyone(h.sem)
      ensures (s.procs[p].pc.Aborted? ==> s.lock) && (s.pending[p] ==> s.procs[p].pc.Suspend?)
    {
      PlaceBetween(h, p, s.procs[p], s.pending[p], s.count);
    }
  }

  lemma PlaceBetween(h: Phase, p: nat, c: Proc, pending: bool, count: int)
    requires Place(h, p, c, pending, count)
    ensures c.pc.Critical? ==> p in h.sem.inside
    ensures Between(c.pc) <==> p in Everyone(h.sem)
    ensures (c.pc.Aborted? ==> h.holder.Some?) && (pending ==> c.pc.Suspend?)
  {
  }

  lemma InvQueue(n: nat, num: nat, capacity: nat, s: State, h: Phase)
    requires Inv(n, num, capacity, s, h)
    ensures |s.procs| == |s.pending| == n && Valid(s.ring)
    ensures !s.lock ==> Contents(s.ring) == h.sem.waiting
    ensures !s.lock ==> |Contents(s.ring)| == (if s.count < 0 then -s.count else 0)
    ensures !s.lock ==> HoldsSleepers(Contents(s.ring), s.procs, s.pending)
  {
    hide Inv, HoldsSleepers;
    InvContents(n, num, capacity, s, h);
    if !s.lock {
      Sleepers(n, num, capacity, s, h);
    }
  }

  lemma InvContents(n: nat, num: nat, capacity: nat, s: State, h: Phase)
    requires Inv(n, num, capacity, s, h)
    ensures |s.procs| == |s.pending| == n && Valid(s.ring)
    ensures !s.lock ==> Contents(s.ring) == h.sem.waiting
    ensures !s.lock ==> |Contents(s.ring)| == (if s.count < 0 then -s.count else 0)
  {
    hide Place, Places;
  }

  lemma Sleepers(n: nat, num: nat, capacity: nat, s: State, h: Phase)
    requires Inv(n, num, capacity, s, h) && !s.lock && |s.procs| == |s.pending| == n && Valid(s.ring)
    requires Contents(s.ring) == h.sem.waiting
    ensures HoldsSleepers(Contents(s.ring), s.procs, s.pending)
  {
    forall p: nat {:trigger s.procs[p]} | p < n
      ensures p in Contents(s.ring) <==> s.procs[p].pc.Suspend? && !s.pending[p]
    {
      WaitsAsleep(n, num, capacity, s, h, p);
    }
  }

  lemma WaitsAsleep(n: nat, num: nat, capacity: nat, s: State, h: Phase, p: nat)
    requires Inv(n, num, capacity, s, h) && !s.lock && p < n
    ensures p in h.sem.waiting <==> s.procs[p].pc.Suspend? && !s.pending[p]
  {
    hide QueueInv;
    assert s.procs[p] == s.procs[p];
  }

  // ----- First come, first served -----

  /** The processes in the order in which they found the semaphore full. */
  ghost function Arrivals(run: seq<State>): seq<nat>
    requires |run| > 0 && forall i :: 0 < i < |run| ==> Next(run[i - 1], run[i])
  {
    if |run| == 1 then []
    else
      var s := run[|run| - 2];
      var p := Mover(s, run[|run| - 1]);
      Arrivals(run[..|run| - 1]) + (if s.procs[p].pc.DecWrite? && s.procs[p].seen - 1 < 0 then [p] else [])
  }

  /** The processes in the order in which they were sent the wake-up signal. */
  ghost function WakeUps(run: seq<State>): seq<nat>
    requires |run| > 0 && forall i :: 0 < i < |run| ==> Next(run[i - 1], run[i])
  {
    if |run| == 1 then []
    else
      var s := run[|run| - 2];
      var p := Mover(s, run[|run| - 1]);
      WakeUps(run[..|run| - 1]) + (if s.procs[p].pc.Kill? && s.procs[p].seen >= 0 then [s.procs[p].seen] else [])
  }

  ghost function Pledged(h: Phase): seq<nat> {
    (if h.granted.Some? then [h.granted.value] else []) + h.sem.waiting
  }

  lemma TakeLine(n: nat, num: nat, h: Phase, p: nat, woken: seq<nat>)
    requires Sound(n, num, h.sem) && Free(h.sem, p) && p < n
    ensures woken + Pledged(h.(sem := Take(num, h.sem, p))) ==
            woken + Pledged(h) + (if num - |h.sem.inside| - |h.sem.waiting| - 1 < 0 then [p] else [])
  {
    TakeSound(n, num, h.sem, p);
    hide Sound, Free;
  }

  lemma GiveLine(h: Phase, p: nat)
    requires h.granted.None?
    ensures var granted := if h.sem.waiting == [] then None else Some(h.sem.waiting[0]);
            Pledged(h.(sem := Give(h.sem, p), granted := granted)) == Pledged(h)
  {
    assert h.sem.waiting != [] ==> h.sem.waiting == [h.sem.waiting[0]] + h.sem.waiting[1..];
  }

  lemma KillLine(h: Phase, woken: seq<nat>)
    requires h.granted.Some?
    ensures woken + [h.granted.value] + Pledged(h.(granted := None)) == woken + Pledged(h)
  {
  }

  lemma StepLine(n: nat, num: nat, capacity: nat, s: State, h: Phase, p: nat, woken: seq<nat>)
    requires Inv(n, num, capacity, s, h) && Enabled(s, p)
    ensures Valid(s.ring)
    ensures var c := s.procs[p];
            var arrived := if c.pc.DecWrite? && c.seen - 1 < 0 then [p] else [];
            var signalled := if c.pc.Kill? && c.seen >= 0 then [c.seen] else [];
            woken + signalled + Pledged(Follow(num, h, s, p)) == woken + Pledged(h) + arrived
  {
    hide Inv, Place, Sound, Queued, Pledged, Take, Give;
    Known(n, num, capacity, s, h, p);
    PlaceSeen(h, p, s.procs[p], s.pending[p], s.count);
    if s.procs[p].pc.DecWrite? {
      TakeLine(n, num, h, p, woken);
    } else if s.procs[p].pc.IncWrite? {
      GiveLine(h, p);
    } else if s.procs[p].pc.Kill? {
      KillStep(n, num, capacity, s, h, p);
      KillLine(h, woken);
    } else {
      SamePledge(h, Follow(num, h, s, p));
    }
  }

  lemma SamePledge(h: Phase, h': Phase)
    requires h'.sem == h.sem && h'.granted == h.granted
    ensures Pledged(h') == Pledged(h)
  {
  }

  lemma PlaceSeen(h: Phase, p: nat, c: Proc, pending: bool, count: int)
    requires Place(h, p, c, pending, count)
    ensures c.pc.DecWrite? ==> c.seen == count && Free(h.sem, p)
    ensures c.pc.IncWrite? ==> p in h.sem.inside
    ensures c.pc.DecWrite? || c.pc.IncWrite? ==> h.granted.None? || h.holder == Some(p)
    ensures c.pc.Kill? ==> h.granted.Some?
  {
  }

  lemma {:induction false} RunLine(n: nat, num: nat, capacity: nat, run: seq<State>)
    requires Run(n, num, capacity, run)
    ensures Arrivals(run) == WakeUps(run) + Pledged(PhaseOf(num, run))
  {
    hide Inv, Do, Enabled, Follow, Pledged, Init, Next;
    if |run| == 1 {
      StartLine();
    } else {
      var before := run[..|run| - 1];
      RunBefore(n, num, capacity, run);
      RunInv(n, num, capacity, before);
      RunLine(n, num, capacity, before);
      var s := run[|run| - 2];
      StepLine(n, num, capacity, s, PhaseOf(num, before), Mover(s, run[|run| - 1]), WakeUps(before));
    }
  }

  lemma StartLine()
    ensures Pledged(Start()) == []
  {
  }

  lemma RunBefore(n: nat, num: nat, capacity: nat, run: seq<State>)
    requires Run(n, num, capacity, run) && |run| > 1
    ensures Run(n, num, capacity, run[..|run| - 1])
  {
  }

  /** Wake-up order is arrival order: while the spinlock is free, those who had to wait are, in this
      order, those already woken and those in the queue. */
  lemma FirstComeFirstServed(n: nat, num: nat, capacity: nat, run: seq<State>)
    requires Run(n, num, capacity, run) && !run[|run| - 1].lock
    ensures Valid(run[|run| - 1].ring) && Arrivals(run) == WakeUps(run) + Contents(run[|run| - 1].ring)
  {
    hide Inv, Do, Enabled, Follow, Init, Next;
    RunInv(n, num, capacity, run);
    RunLine(n, num, capacity, run);
    InvQueue(n, num, capacity, run[|run| - 1], PhaseOf(num, run));
    NobodyPledged(n, num, capacity, run[|run| - 1], PhaseOf(num, run));
  }

  lemma NobodyPledged(n: nat, num: nat, capacity: nat, s: State, h: Phase)
    requires Inv(n, num, capacity, s, h) && !s.lock
    ensures Pledged(h) == h.sem.waiting
  {
  }

  // ----- Everybody gets through -----

  lemma HolderCanMove(n: nat, num: nat, capacity: nat, s: State, h: Phase)
    requires Inv(n, num, capacity, s, h) && s.lock && |Clients(s.procs)| <= num + capacity
    ensures h.holder.Some? && Enabled(s, h.holder.value)
  {
    hide Sound, Queued;
    NobodyAborts(n, num, capacity, s, h, h.holder.value);
    assert s.procs[h.holder.value] == s.procs[h.holder.value];
  }

  /** Somebody can move until all are done, as long as there is a permit at all. */
  lemma CanMove(n: nat, num: nat, capacity: nat, s: State, h: Phase) returns (q: nat)
    requires Inv(n, num, capacity, s, h) && num > 0 && |Clients(s.procs)| <= num + capacity
    requires exists p {:trigger s.procs[p]} :: 0 <= p < n && !(s.procs[p].pc.Idle? && s.procs[p].left == 0)
    ensures Enabled(s, q)
  {
    hide QueueInv;
    if s.lock {
      HolderCanMove(n, num, capacity, s, h);
      q := h.holder.value;
    } else {
      var p: nat :| p < n && !(s.procs[p].pc.Idle? && s.procs[p].left == 0);
      q := p;
      if s.procs[p].pc.Suspend? && !s.pending[p] {
        q :| q in h.sem.inside;
        assert s.procs[q] == s.procs[q];
      }
    }
  }

  ghost predicate Stuck(s: State) {
    forall p :: !Enabled(s, p)
  }

  /** No deadlock: with room for all that can have to wait, a run that cannot go on has let every process
      through as often as it wanted. */
  lemma DeadlockFree(n: nat, num: nat, capacity: nat, run: seq<State>, p: nat)
    requires Run(n, num, capacity, run) && |Clients(run[0].procs)| <= num + capacity && num > 0
    requires Stuck(run[|run| - 1]) && p < n
    ensures |run[|run| - 1].procs| == n
    ensures run[|run| - 1].procs[p].pc.Idle? && run[|run| - 1].procs[p].left == 0
  {
    hide Inv, Init, Next, Enabled;
    RunInv(n, num, capacity, run);
    ClientsShrink(n, num, capacity, run);
    var s, h := run[|run| - 1], PhaseOf(num, run);
    InvSafe(n, num, capacity, s, h);
    if !(s.procs[p].pc.Idle? && s.procs[p].left == 0) {
      var q := CanMove(n, num, capacity, s, h);
    }
  }

  /** The steps from here to the end of one round through the semaphore. */
  function Steps(pc: Pc): nat {
    match pc
    case Idle => 18
    case DecRead => 17
    case DecWrite => 16
    case PushCheck => 15
    case PushItem => 14
    case PushSize => 13
    case ReleaseWait => 12
    case Suspend => 11
    case ReleaseGo => 10
    case Critical => 9
    case IncRead => 8
    case IncWrite => 7
    case ReadFront => 6
    case Kill => 5
    case PopFirst => 4
    case PopSize => 3
    case ReleaseDone => 2
    case Aborted => 1
  }

  ghost function Work(procs: seq<Proc>): nat {
    if procs == [] then 0
    else Work(procs[..|procs| - 1]) + 18 * procs[|procs| - 1].left + Steps(procs[|procs| - 1].pc)
  }

  lemma {:induction false} WorkChange(procs: seq<Proc>, p: nat, c: Proc)
    requires p < |procs|
    ensures Work(procs[p := c]) - Work(procs) ==
            18 * c.left + Steps(c.pc) - 18 * procs[p].left - Steps(procs[p].pc)
    decreases |procs|
  {
    hide Steps;
    var k := |procs| - 1;
    if p < k {
      WorkChange(procs[..k], p, c);
      assert procs[p := c][..k] == procs[..k][p := c];
    } else {
      assert procs[p := c][..k] == procs[..k];
    }
  }

  /** Every step leads to a program point with fewer steps before it, or ends a round. */
  lemma OwnWork(s: State, p: nat)
    requires Enabled(s, p) && Valid(s.ring) && (s.procs[p].pc.ReleaseDone? ==> s.procs[p].left > 0)
    ensures var c := Do(s, p).procs[p];
            && Do(s, p).procs == s.procs[p := c]
            && 18 * c.left + Steps(c.pc) < 18 * s.procs[p].left + Steps(s.procs[p].pc)
  {
    hide Store, Lengthen, Advance, Shorten, Valid, Enabled, Steps, Do;
    StepLeft(s, p);
    OwnNext(s, p);
    var c := Do(s, p).procs[p];
    StepsDown(s.procs[p].pc, c.pc);
  }

  /** Where a step can lead. */
  predicate Follows(pc: Pc, next: Pc) {
    match pc
    case Idle => next.DecRead?
    case DecRead => next.DecWrite?
    case DecWrite => next.PushCheck? || next.ReleaseGo?
    case PushCheck => next.PushItem? || next.Aborted?
    case PushItem => next.PushSize?
    case PushSize => next.ReleaseWait?
    case ReleaseWait => next.Suspend?
    case Suspend => next.Critical?
    case ReleaseGo => next.Critical?
    case Critical => next.IncRead?
    case IncRead => next.IncWrite?
    case IncWrite => next.ReadFront? || next.ReleaseDone?
    case ReadFront => next.Kill?
    case Kill => next.PopFirst?
    case PopFirst => next.PopSize?
    case PopSize => next.ReleaseDone?
    case ReleaseDone => next.Idle?
    case Aborted => false
  }

  lemma StepsDown(pc: Pc, next: Pc)
    requires Follows(pc, next)
    ensures Steps(next) < Steps(pc) + (if pc.ReleaseDone? then 18 else 0)
  {
  }

  lemma OwnNext(s: State, p: nat)
    requires Enabled(s, p) && Valid(s.ring)
    ensures p < |s.procs| == |Do(s, p).procs| && Follows(s.procs[p].pc, Do(s, p).procs[p].pc)
  {
    hide Store, Lengthen, Advance, Shorten, Valid;
  }

  lemma StepWorks(s: State, p: nat)
    requires Enabled(s, p) && Valid(s.ring) && (s.procs[p].pc.ReleaseDone? ==> s.procs[p].left > 0)
    ensures Work(Do(s, p).procs) < Work(s.procs)
  {
    hide Work, Do, Steps;
    OwnWork(s, p);
    WorkChange(s.procs, p, Do(s, p).procs[p]);
  }

  /** Every run ends.  Each process comes a given number of times, and a failed attempt at the spinlock
      counts as no step: this says nothing about how often a process can fail to get the spinlock while
      others get it, which a test-and-set lock does not bound. */
  lemma {:induction false} RunsAreBounded(n: nat, num: nat, capacity: nat, run: seq<State>)
    requires Run(n, num, capacity, run)
    ensures |run| - 1 + Work(run[|run| - 1].procs) <= Work(run[0].procs)
  {
    hide Inv, Do, Enabled, Follow, Work, Init;
    if |run| > 1 {
      var before := run[..|run| - 1];
      RunsAreBounded(n, num, capacity, before);
      RunInv(n, num, capacity, before);
      var s := run[|run| - 2];
      var p := Mover(s, run[|run| - 1]);
      LeftOver(n, num, capacity, s, PhaseOf(num, before), p);
      StepWorks(s, p);
    }
  }

  lemma LeftOver(n: nat, num: nat, capacity: nat, s: State, h: Phase, p: nat)
    requires Inv(n, num, capacity, s, h) && Enabled(s, p)
    ensures p < |s.procs| && (s.procs[p].pc.ReleaseDone? ==> s.procs[p].left > 0)
  {
    hide Sound, QueueInv;
    assert s.procs[p] == s.procs[p];
  }

  // ----- As often as it wanted -----

  predicate Enters(s: State, s': State, p: nat) {
    p < |s.procs| && p < |s'.procs| && !s.procs[p].pc.Critical? && s'.procs[p].pc.Critical?
  }

  /** The times that `p` has entered the critical section. */
  ghost function Visits(run: seq<State>, p: nat): nat
    requires |run| > 0
  {
    if |run| == 1 then 0
    else Visits(run[..|run| - 1], p) + Bit(Enters(run[|run| - 2], run[|run| - 1], p))
  }

  function Bit(b: bool): nat {
    if b then 1 else 0
  }

  /** Has been in the critical section in this round of its own. */
  predicate Been(pc: Pc) {
    || pc.Critical? || pc.IncRead? || pc.IncWrite? || pc.ReadFront? || pc.Kill? || pc.PopFirst? || pc.PopSize?
    || pc.ReleaseDone?
  }

  lemma BeenNext(pc: Pc, next: Pc)
    requires Follows(pc, next)
    ensures Bit(!pc.Critical? && next.Critical?) + Bit(Been(pc)) == Bit(Been(next)) + Bit(pc.ReleaseDone?)
  {
  }

  lemma StepVisits(s: State, q: nat, p: nat)
    requires Enabled(s, q) && Valid(s.ring) && p < |s.procs| && (s.procs[q].pc.ReleaseDone? ==> s.procs[q].left > 0)
    ensures var s' := Do(s, q);
            && p < |s'.procs|
            && Bit(Enters(s, s', p)) + s'.procs[p].left + Bit(Been(s.procs[p].pc)) ==
               s.procs[p].left + Bit(Been(s'.procs[p].pc))
  {
    hide Do, Been, Follows, Enabled;
    StepLeft(s, q);
    OwnNext(s, q);
    BeenNext(s.procs[q].pc, Do(s, q).procs[q].pc);
  }

  /** Every process has entered the critical section as often as it wanted to, less the times it has still
      to come. */
  lemma {:induction false} VisitsExact(n: nat, num: nat, capacity: nat, run: seq<State>, p: nat)
    requires Run(n, num, capacity, run) && p < n
    ensures p < |run[0].procs| && p < |run[|run| - 1].procs|
    ensures Visits(run, p) + run[|run| - 1].procs[p].left ==
            run[0].procs[p].left + Bit(Been(run[|run| - 1].procs[p].pc))
  {
    hide Inv, Do, Enabled, Follow, Been, Enters;
    if |run| == 1 {
      NotBeen(n, num, capacity, run[0], p);
    } else {
      var before, s := run[..|run| - 1], run[|run| - 2];
      VisitsExact(n, num, capacity, before, p);
      RunInv(n, num, capacity, before);
      var q := Mover(s, run[|run| - 1]);
      LeftOver(n, num, capacity, s, PhaseOf(num, before), q);
      StepVisits(s, q, p);
    }
  }

  /** A run that cannot go on has served every process as often as it wanted. */
  lemma StuckIsServed(n: nat, num: nat, capacity: nat, run: seq<State>, p: nat)
    requires Run(n, num, capacity, run) && |Clients(run[0].procs)| <= num + capacity && num > 0
    requires Stuck(run[|run| - 1]) && p < n
    ensures p < |run[0].procs| && Visits(run, p) == run[0].procs[p].left
  {
    hide Init, Next, Enabled;
    DeadlockFree(n, num, capacity, run, p);
    VisitsExact(n, num, capacity, run, p);
  }

  lemma NotBeen(n: nat, num: nat, capacity: nat, s: State, p: nat)
    requires Init(n, num, capacity, s) && p < n
    ensures p < |s.procs| && !Been(s.procs[p].pc)
  {
    assert s.procs[p] == s.procs[p];
  }

  /** Going on leads every run to where all have been through, by VisitsExact as often as they wanted. */
  lemma {:induction false} AllGetThrough(n: nat, num: nat, capacity: nat, run: seq<State>) returns (longer: seq<State>)
    requires Run(n, num, capacity, run) && |Clients(run[0].procs)| <= num + capacity && num > 0
    ensures Run(n, num, capacity, longer) && run <= longer && |longer[|longer| - 1].procs| == n
    ensures forall p {:trigger longer[|longer| - 1].procs[p]} :: 0 <= p < n ==>
              longer[|longer| - 1].procs[p].pc.Idle? && longer[|longer| - 1].procs[p].left == 0
    decreases Work(run[0].procs) + 1 - |run|
  {
    hide Run, Work, Clients, Served;
    RunSize(n, num, capacity, run);
    if !Served(run[|run| - 1].procs) {
      longer := GoOn(n, num, capacity, run);
      RunsAreBounded(n, num, capacity, longer);
      longer := AllGetThrough(n, num, capacity, longer);
    } else {
      ServedAll(run[|run| - 1].procs);
      longer := run;
    }
  }

  /** All have been through as often as they wanted. */
  ghost predicate Served(procs: seq<Proc>) {
    forall p {:trigger procs[p]} :: 0 <= p < |procs| ==> procs[p].pc.Idle? && procs[p].left == 0
  }

  lemma ServedAll(procs: seq<Proc>)
    requires Served(procs)
    ensures forall p {:trigger procs[p]} :: 0 <= p < |procs| ==> procs[p].pc.Idle? && procs[p].left == 0
  {
  }

  lemma RunSize(n: nat, num: nat, capacity: nat, run: seq<State>)
    requires Run(n, num, capacity, run)
    ensures |run| > 0 && |run[|run| - 1].procs| == n
    ensures |run| - 1 + Work(run[|run| - 1].procs) <= Work(run[0].procs)
  {
    hide Inv, Init, Next, Work;
    RunsAreBounded(n, num, capacity, run);
    RunInv(n, num, capacity, run);
    InvSafe(n, num, capacity, run[|run| - 1], PhaseOf(num, run));
  }

  lemma GoOn(n: nat, num: nat, capacity: nat, run: seq<State>) returns (longer: seq<State>)
    requires Run(n, num, capacity, run) && |Clients(run[0].procs)| <= num + capacity && num > 0
    requires !Served(run[|run| - 1].procs)
    ensures Run(n, num, capacity, longer) && run <= longer && |longer| == |run| + 1
  {
    hide Inv, Do, Enabled, Init, Next, Clients;
    RunInv(n, num, capacity, run);
    ClientsShrink(n, num, capacity, run);
    var s := run[|run| - 1];
    InvQueue(n, num, capacity, s, PhaseOf(num, run));
    var p := CanMove(n, num, capacity, s, PhaseOf(num, run));
    RunOn(n, num, capacity, run, p);
    longer := run + [Do(s, p)];
  }

  lemma RunOn(n: nat, num: nat, capacity: nat, run: seq<State>, p: nat)
    requires Run(n, num, capacity, run) && Enabled(run[|run| - 1], p) && Valid(run[|run| - 1].ring)
    ensures Run(n, num, capacity, run + [Do(run[|run| - 1], p)])
  {
    hide Init, Do, Enabled;
    var longer := run + [Do(run[|run| - 1], p)];
    forall i | 0 < i < |longer|
      ensures Next(longer[i - 1], longer[i])
    {
      assert longer[i - 1] == run[i - 1];
    }
  }

  // ----- How many processes the queue can hold -----

  /** Some run leads from `s0` to `s`. */
  ghost predicate Reached(n: nat, num: nat, capacity: nat, s0: State, s: State) {
    exists run :: Run(n, num, capacity, run) && run[0] == s0 && run[|run| - 1] == s
  }

  lemma ReachNext(n: nat, num: nat, capacity: nat, s0: State, s: State, p: nat)
    requires Reached(n, num, capacity, s0, s) && Enabled(s, p) && Valid(s.ring)
    ensures Reached(n, num, capacity, s0, Do(s, p))
  {
    hide Do, Enabled, Init, Next;
    var run :| Run(n, num, capacity, run) && run[0] == s0 && run[|run| - 1] == s;
    RunOn(n, num, capacity, run, p);
    var longer := run + [Do(s, p)];
    assert longer[|longer| - 1] == Do(s, p);
  }

  /** `k` processes have taken the semaphore or wait for it; `rest`, of those who want it, have not
      started. */
  ghost predicate Lined(n: nat, num: nat, capacity: nat, s: State, k: nat, rest: set<nat>) {
    && |s.procs| == |s.pending| == n && Valid(s.ring) && |s.ring.items| == capacity
    && !s.lock && s.count == num - k && s.ring.size == (if k <= num then 0 else k - num)
    && forall q {:trigger q in rest} :: q in rest ==> q < n && s.procs[q].pc.Idle? && s.procs[q].left > 0
  }

  /** One more, `p`, comes to the semaphore. */
  lemma Line(n: nat, num: nat, capacity: nat, s0: State, s: State, k: nat, rest: set<nat>, p: nat)
    returns (s': State)
    requires Lined(n, num, capacity, s, k, rest) && Reached(n, num, capacity, s0, s) && p in rest && k <= num + capacity
    ensures Reached(n, num, capacity, s0, s')
    ensures k < num + capacity ==> Lined(n, num, capacity, s', k + 1, rest - {p})
    ensures k == num + capacity ==> p < |s'.procs| && s'.procs[p].pc.Aborted?
  {
    hide Reached, Store;
    ReachNext(n, num, capacity, s0, s, p);
    var s1 := Do(s, p);
    ReachNext(n, num, capacity, s0, s1, p);
    var s2 := Do(s1, p);
    ReachNext(n, num, capacity, s0, s2, p);
    var s3 := Do(s2, p);
    ReachNext(n, num, capacity, s0, s3, p);
    s' := Do(s3, p);
    if num <= k < num + capacity {
      StoreKeeps(s.ring, p);
      ReachNext(n, num, capacity, s0, s', p);
      s' := Do(s', p);
      ReachNext(n, num, capacity, s0, s', p);
      s' := LineQueue(n, num, capacity, s0, s, s', k, rest, p);
    }
  }

  lemma LineQueue(n: nat, num: nat, capacity: nat, s0: State, s: State, s4: State, k: nat, rest: set<nat>, p: nat)
    returns (s': State)
    requires Lined(n, num, capacity, s, k, rest) && num <= k < num + capacity && p in rest
    requires Valid(Store(s.ring, p)) && Reached(n, num, capacity, s0, s4)
    requires s4 == s.(lock := true, count := num - k - 1, ring := Store(s.ring, p), procs := s4.procs)
    requires |s4.procs| == n && s4.procs == s.procs[p := s4.procs[p]] && s4.procs[p].pc.PushSize?
    ensures Reached(n, num, capacity, s0, s') && Lined(n, num, capacity, s', k + 1, rest - {p})
  {
    hide Reached;
    ReachNext(n, num, capacity, s0, s4, p);
    var s5 := Do(s4, p);
    ReachNext(n, num, capacity, s0, s5, p);
    s' := Do(s5, p);
  }

  lemma {:induction false} LineUp(n: nat, num: nat, capacity: nat, s: State, k: nat)
    returns (s': State, rest: set<nat>)
    requires Init(n, num, capacity, s) && k <= |Clients(s.procs)| && k <= num + capacity
    ensures Lined(n, num, capacity, s', k, rest) && Reached(n, num, capacity, s, s')
    ensures |rest| + k == |Clients(s.procs)|
  {
    hide Lined, Reached, Init, Clients;
    if k == 0 {
      StartLined(n, num, capacity, s);
      s', rest := s, Clients(s.procs);
    } else {
      s', rest := LineUp(n, num, capacity, s, k - 1);
      var p :| p in rest;
      s' := Line(n, num, capacity, s, s', k - 1, rest, p);
      rest := rest - {p};
    }
  }

  lemma StartLined(n: nat, num: nat, capacity: nat, s: State)
    requires Init(n, num, capacity, s)
    ensures Lined(n, num, capacity, s, 0, Clients(s.procs)) && Reached(n, num, capacity, s, s)
  {
    assert Run(n, num, capacity, [s]);
  }

  /** The bound is exact: the assertion of `queue_push` can fail if and only if more processes want the
      semaphore than there are permits and places in the queue together. */
  lemma AssertionBound(n: nat, num: nat, capacity: nat, s: State)
    requires Init(n, num, capacity, s)
    ensures |Clients(s.procs)| > num + capacity <==>
            exists s': State :: Reached(n, num, capacity, s, s') && SomeAborted(s')
  {
    hide Init, Lined, Reached, Clients;
    if |Clients(s.procs)| > num + capacity {
      var s', rest := LineUp(n, num, capacity, s, num + capacity);
      var p :| p in rest;
      s' := Line(n, num, capacity, s, s', num + capacity, rest, p);
      assert SomeAborted(s');
    } else {
      forall s': State | Reached(n, num, capacity, s, s')
        ensures !SomeAborted(s')
      {
        NoneAborted(n, num, capacity, s, s');
      }
    }
  }

  lemma NoneAborted(n: nat, num: nat, capacity: nat, s: State, s': State)
    requires |Clients(s.procs)| <= num + capacity && Reached(n, num, capacity, s, s')
    ensures !SomeAborted(s')
  {
    hide Init, Next, Clients;
    var run: seq<State> :| Run(n, num, capacity, run) && run[0] == s && run[|run| - 1] == s';
    SemaphoreIsSafe(n, num, capacity, run);
  }

  ghost predicate SomeAborted(s: State) {
    exists p {:trigger s.procs[p]} :: 0 <= p < |s.procs| && s.procs[p].pc.Aborted?
  }
}
