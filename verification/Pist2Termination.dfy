/** Every run of `Pist2` is finite, without any fairness assumption: no process ever spins, so each
    step uses up some of a bounded amount of work. */
module Pist2Termination {
  import opened FiniteSets
  import opened AtomicRound
  import opened Pist2
  import opened Pist2Invariant
  import opened Pist2Steps
  import opened Pist2Game
  import opened Pist2Runs

  /** The steps a process has before it, at most, until the end of the round it is in or enters;
      `entering` tells a process that is about to enter a round from one that has ended one. */
  ghost function Weight(n: nat, pc: Pc, entering: bool): nat {
    match pc
    case Unborn => n + 32
    case BootReady => n + 31
    case BootDec => n + 30
    case BootZero => n + 29
    case ZeroReceived => if entering then n + 28 else 6
    case AskDead => if entering then n + 27 else 5
    case Elect => n + 26
    case Scan(i) => if i <= n then i + 25 else n + 25
    case AskLast => 24
    case CountRound => 23
    case CacheAlive => 22
    case IncShot => 21
    case Choose => 20
    case ReadTarget => 19
    case WriteTarget => 18
    case Send => 17
    case DecShot => 16
    case ZeroShot => 15
    case IncReceived => 14
    case Receive => 13
    case Drain => 12
    case ReadSelf => 11
    case WriteSelf => 10
    case DecAlive => 9
    case BeReady => 8
    case DecReceived => 7
    case Gone => 0
    case Aborted => 0
  }

  ghost predicate Entering(h: Phase, p: nat) {
    p in h.game.alive && (h.stage.Gathering? || h.stage.Shooting?)
  }

  ghost function Work(n: nat, procs: seq<Proc>, h: Phase, k: nat): nat
    requires k <= |procs|
  {
    if k == 0 then 0 else Work(n, procs, h, k - 1) + Weight(n, procs[k - 1].pc, Entering(h, k - 1))
  }

  ghost function ParentWork(n: nat, parent: ParentPc): nat {
    match parent
    case MarkDead(k) => if k <= n then 4 * (n - k) + 3 else 3
    case Fork(k) => if k <= n then 4 * (n - k) + 2 else 2
    case Register(k) => if k <= n then 4 * (n - k) + 1 else 1
    case CountAlive(k) => if k <= n then 4 * (n - k) else 0
    case PassReady => 2
    case Reap => 1
    case Over => 0
  }

  /** The work of one round exceeds what all processes can regain when a round ends. */
  ghost function RoundWork(n: nat): nat {
    2 * (n * (n + 32)) + 1
  }

  ghost function Measure(n: nat, s: State, h: Phase): nat {
    |h.game.alive| * RoundWork(n) + 2 * Work(n, s.procs, h, |s.procs|) + |s.queue| + ParentWork(n, s.parent)
  }

  lemma {:induction false} WorkBound(n: nat, procs: seq<Proc>, h: Phase, k: nat)
    requires k <= |procs|
    ensures Work(n, procs, h, k) <= k * (n + 32)
  {
    if k > 0 {
      WorkBound(n, procs, h, k - 1);
      calc {
        Work(n, procs, h, k);
      <=
        (k - 1) * (n + 32) + (n + 32);
      ==
        k * (n + 32);
      }
    }
  }

  /** When one process moves, the total changes by what its own weight changes. */
  lemma {:induction false} WorkChange(n: nat, procs: seq<Proc>, procs': seq<Proc>, h: Phase, h': Phase, p: nat, k: nat)
    requires |procs| == |procs'| && k <= |procs| && p < |procs|
    requires forall q {:trigger procs'[q]} :: 0 <= q < |procs| && q != p ==>
               Weight(n, procs'[q].pc, Entering(h', q)) == Weight(n, procs[q].pc, Entering(h, q))
    ensures Work(n, procs', h', k) - Work(n, procs, h, k) ==
            if p < k then Weight(n, procs'[p].pc, Entering(h', p)) - Weight(n, procs[p].pc, Entering(h, p)) else 0
  {
    hide Weight, Entering;
    if k > 0 {
      WorkChange(n, procs, procs', h, h', p, k - 1);
      assert procs'[k - 1] == procs'[k - 1];
    }
  }

  /** `s'` leaves less for `p` to do than `s`, messages included. */
  ghost predicate Progress(n: nat, s: State, s': State, p: nat, entering: bool)
    requires p < |s.procs| == |s'.procs|
  {
    2 * Weight(n, s'.procs[p].pc, entering) + |s'.queue| < 2 * Weight(n, s.procs[p].pc, entering) + |s.queue|
  }

  lemma ScanProgress(n: nat, s: State, p: nat, entering: bool)
    requires p < |s.procs| == |s.status| == n && s.procs[p].pc.Scan?
    ensures |DoScan(s, p, s.procs[p].pc.i).procs| == n && Progress(n, s, DoScan(s, p, s.procs[p].pc.i), p, entering)
  {
  }

  lemma ReadTargetProgress(n: nat, s: State, p: nat, entering: bool)
    requires p < |s.procs| == n && s.procs[p].pc.ReadTarget?
    ensures |DoReadTarget(s, p).procs| == n && Progress(n, s, DoReadTarget(s, p), p, entering)
  {
    hide Progress, Weight;
    AimWeights(n, s.procs[p].pc, DoReadTarget(s, p).procs[p].pc, entering);
    WeightPays(n, s, DoReadTarget(s, p), p, entering);
  }

  lemma WriteTargetProgress(build: Build, n: nat, s: State, p: nat, entering: bool)
    requires p < |s.procs| == n && s.procs[p].pc.WriteTarget?
    ensures |DoWriteTarget(build, s, p).procs| == n && Progress(n, s, DoWriteTarget(build, s, p), p, entering)
  {
    hide Progress, Weight;
    AimWeights(n, s.procs[p].pc, DoWriteTarget(build, s, p).procs[p].pc, entering);
    WeightPays(n, s, DoWriteTarget(build, s, p), p, entering);
  }

  lemma SendProgress(n: nat, s: State, p: nat, entering: bool)
    requires p < |s.procs| == n && s.procs[p].pc.Send?
    ensures Progress(n, s, Go(s, p, DecShot).(queue := s.queue + multiset{s.procs[p].target}), p, entering)
  {
    hide Weight;
    AimWeights(n, Send, DecShot, entering);
  }

  lemma ReceiveProgress(build: Build, n: nat, s: State, p: nat, entering: bool)
    requires p < |s.procs| == |s.status| == n && s.procs[p].pc.Receive?
    ensures |DoReceive(build, s, p).procs| == n && Progress(n, s, DoReceive(build, s, p), p, entering)
  {
    hide Progress, Weight;
    CloseWeights(n, s.procs[p].pc, DoReceive(build, s, p).procs[p].pc, entering);
    MessagePays(n, s, DoReceive(build, s, p), p, entering);
  }

  lemma DrainProgress(n: nat, s: State, p: nat, entering: bool)
    requires p < |s.procs| == |s.status| == n && s.procs[p].pc.Drain?
    ensures |DoDrain(s, p).procs| == n && Progress(n, s, DoDrain(s, p), p, entering)
  {
    hide Progress, Weight;
    CloseWeights(n, s.procs[p].pc, DoDrain(s, p).procs[p].pc, entering);
    MessagePays(n, s, DoDrain(s, p), p, entering);
  }

  /** A message less pays for itself. */
  lemma MessagePays(n: nat, s: State, s': State, p: nat, entering: bool)
    requires p < |s.procs| == |s'.procs|
    requires s'.queue == s.queue || (s.queue[p] > 0 && s'.queue == s.queue - multiset{p})
    requires Weight(n, s'.procs[p].pc, entering) <= Weight(n, s.procs[p].pc, entering)
    requires s'.queue == s.queue ==> Weight(n, s'.procs[p].pc, entering) < Weight(n, s.procs[p].pc, entering)
    ensures Progress(n, s, s', p, entering)
  {
    hide Weight;
    if s'.queue != s.queue {
      assert s.queue == s'.queue + multiset{p};
    }
  }

  lemma AimWeights(n: nat, pc: Pc, next: Pc, entering: bool)
    ensures pc.Choose? && next.ReadTarget? ==> Weight(n, next, entering) < Weight(n, pc, entering)
    ensures pc.ReadTarget? && (next.WriteTarget? || next.Aborted?) ==> Weight(n, next, entering) < Weight(n, pc, entering)
    ensures pc.WriteTarget? && (next.Send? || next.DecShot? || next.Aborted?) ==>
              Weight(n, next, entering) < Weight(n, pc, entering)
    ensures pc.Send? && next.DecShot? ==> Weight(n, next, entering) < Weight(n, pc, entering)
    ensures pc.DecShot? && next.ZeroShot? ==> Weight(n, next, entering) < Weight(n, pc, entering)
  {
  }

  lemma CloseWeights(n: nat, pc: Pc, next: Pc, entering: bool)
    ensures pc.ZeroShot? && (next.IncReceived? || next.Receive?) ==> Weight(n, next, entering) < Weight(n, pc, entering)
    ensures pc.IncReceived? && next.Receive? ==> Weight(n, next, entering) < Weight(n, pc, entering)
    ensures pc.Receive? && (next.Drain? || next.ReadSelf? || next.BeReady?) ==>
              Weight(n, next, entering) < Weight(n, pc, entering)
    ensures pc.Drain? && (next.ReadSelf? || next.Aborted?) ==> Weight(n, next, entering) < Weight(n, pc, entering)
    ensures pc.ReadSelf? && next.WriteSelf? ==> Weight(n, next, entering) < Weight(n, pc, entering)
    ensures pc.WriteSelf? && next.DecAlive? ==> Weight(n, next, entering) < Weight(n, pc, entering)
    ensures (pc.DecAlive? || pc.BeReady?) && next.DecReceived? ==> Weight(n, next, entering) < Weight(n, pc, entering)
    ensures pc.DecReceived? && next.ZeroReceived? && !entering ==> Weight(n, next, entering) < Weight(n, pc, entering)
  {
  }

  lemma BootProgress(build: Build, n: nat, s: State, p: nat, victim: nat, entering: bool)
    requires Enabled(s, Child(p, victim)) && |s.procs| == n
    requires Unready(s.procs[p].pc)
    ensures |DoChild(build, s, p, victim).procs| == n && Progress(n, s, DoChild(build, s, p, victim), p, entering)
  {
    hide DoScan, DoReadTarget, DoWriteTarget, DoReceive, DoDrain;
  }

  lemma EarlyProgress(build: Build, n: nat, s: State, p: nat, victim: nat, entering: bool)
    requires Enabled(s, Child(p, victim)) && |s.procs| == n && (s.procs[p].pc.Elect? ==> s.processCount == n)
    requires Early(s.procs[p].pc)
    requires s.procs[p].pc.AskDead? ==> (entering <==> !s.status[p].dead)
    ensures |DoChild(build, s, p, victim).procs| == n && Progress(n, s, DoChild(build, s, p, victim), p, entering)
  {
    hide DoScan, DoReadTarget, DoWriteTarget, DoReceive, DoDrain, Progress, Weight;
    if s.procs[p].pc.Scan? {
      ScanProgress(n, s, p, entering);
    } else {
      EarlyWeights(n, s.procs[p].pc, DoChild(build, s, p, victim).procs[p].pc, entering);
      WeightPays(n, s, DoChild(build, s, p, victim), p, entering);
    }
  }

  lemma EarlyWeights(n: nat, pc: Pc, next: Pc, entering: bool)
    ensures pc.BootZero? && next.Elect? ==> Weight(n, next, entering) < Weight(n, pc, entering)
    ensures pc.ZeroReceived? && next.AskDead? ==> Weight(n, next, entering) < Weight(n, pc, entering)
    ensures pc.AskDead? && (next.Gone? || (next.Elect? && entering)) ==> Weight(n, next, entering) < Weight(n, pc, entering)
    ensures pc.Elect? && next == Scan(n) ==> Weight(n, next, entering) < Weight(n, pc, entering)
    ensures pc.AskLast? && (next.Gone? || next.CountRound?) ==> Weight(n, next, entering) < Weight(n, pc, entering)
    ensures pc.CountRound? && next.CacheAlive? ==> Weight(n, next, entering) < Weight(n, pc, entering)
    ensures pc.CacheAlive? && next.IncShot? ==> Weight(n, next, entering) < Weight(n, pc, entering)
    ensures pc.IncShot? && next.Choose? ==> Weight(n, next, entering) < Weight(n, pc, entering)
  {
  }

  lemma WeightPays(n: nat, s: State, s': State, p: nat, entering: bool)
    requires p < |s.procs| == |s'.procs| && s'.queue == s.queue
    requires Weight(n, s'.procs[p].pc, entering) < Weight(n, s.procs[p].pc, entering)
    ensures Progress(n, s, s', p, entering)
  {
  }

  lemma AimProgress(build: Build, n: nat, s: State, p: nat, victim: nat, entering: bool)
    requires Enabled(s, Child(p, victim)) && |s.procs| == n
    requires Opening(s.procs[p].pc) && !Early(s.procs[p].pc)
    ensures |DoChild(build, s, p, victim).procs| == n && Progress(n, s, DoChild(build, s, p, victim), p, entering)
  {
    hide DoScan, DoReadTarget, DoWriteTarget, DoReceive, DoDrain, Progress, Weight;
    if s.procs[p].pc.ReadTarget? {
      ReadTargetProgress(n, s, p, entering);
    } else if s.procs[p].pc.WriteTarget? {
      WriteTargetProgress(build, n, s, p, entering);
    } else if s.procs[p].pc.Send? {
      SendProgress(n, s, p, entering);
    } else {
      AimWeights(n, s.procs[p].pc, DoChild(build, s, p, victim).procs[p].pc, entering);
      WeightPays(n, s, DoChild(build, s, p, victim), p, entering);
    }
  }

  lemma CloseProgress(build: Build, n: nat, s: State, p: nat, victim: nat, entering: bool)
    requires Enabled(s, Child(p, victim)) && |s.procs| == n
    requires !Opening(s.procs[p].pc) && !Unready(s.procs[p].pc)
    requires s.procs[p].pc.DecReceived? ==> !entering
    ensures |DoChild(build, s, p, victim).procs| == n && Progress(n, s, DoChild(build, s, p, victim), p, entering)
  {
    hide DoScan, DoReadTarget, DoWriteTarget, DoReceive, DoDrain, Progress, Weight;
    if s.procs[p].pc.Receive? {
      ReceiveProgress(build, n, s, p, entering);
    } else if s.procs[p].pc.Drain? {
      DrainProgress(n, s, p, entering);
    } else {
      CloseWeights(n, s.procs[p].pc, DoChild(build, s, p, victim).procs[p].pc, entering);
      WeightPays(n, s, DoChild(build, s, p, victim), p, entering);
    }
  }

  /** A child's step lowers its own weight, or takes a message away. */
  lemma ChildProgress(build: Build, n: nat, s: State, p: nat, victim: nat, entering: bool)
    requires Enabled(s, Child(p, victim)) && |s.procs| == n && (s.procs[p].pc.Elect? ==> s.processCount == n)
    requires s.procs[p].pc.AskDead? ==> (entering <==> !s.status[p].dead)
    requires s.procs[p].pc.DecReceived? ==> !entering
    ensures |DoChild(build, s, p, victim).procs| == n && Progress(n, s, DoChild(build, s, p, victim), p, entering)
  {
    hide DoChild, Progress;
    if Unready(s.procs[p].pc) {
      BootProgress(build, n, s, p, victim, entering);
    } else if Early(s.procs[p].pc) {
      EarlyProgress(build, n, s, p, victim, entering);
    } else if Opening(s.procs[p].pc) {
      AimProgress(build, n, s, p, victim, entering);
    } else {
      CloseProgress(build, n, s, p, victim, entering);
    }
  }

  /** Only the end of a round gives work back. */
  lemma OthersSame(build: Build, n: nat, s: State, s': State, h: Phase, h': Phase, q: nat)
    requires Inv(build, n, s, h) && Inv(build, n, s', h') && h' == Advance(h, s') && h'.game == h.game
    requires q < n && (s'.procs[q].pc == s.procs[q].pc || s'.procs[q].pc.BootReady?)
    ensures Weight(n, s'.procs[q].pc, Entering(h', q)) == Weight(n, s'.procs[q].pc, Entering(h, q))
  {
    hide Inv;
    InvStands(build, n, s, h, q);
    InvStands(build, n, s', h', q);
  }

  lemma EnteringSelf(build: Build, n: nat, s: State, s': State, h: Phase, h': Phase, p: nat)
    requires Inv(build, n, s, h) && Inv(build, n, s', h') && h' == Advance(h, s') && h'.game == h.game
    requires p < n && (h.stage.Booting? ==> !s'.procs[p].pc.ZeroReceived? && !s'.procs[p].pc.AskDead?)
    ensures s.procs[p].pc.AskDead? ==> (Entering(h, p) <==> !s.status[p].dead)
    ensures s.procs[p].pc.DecReceived? ==> !Entering(h, p)
    ensures Weight(n, s'.procs[p].pc, Entering(h', p)) <= Weight(n, s'.procs[p].pc, Entering(h, p))
    ensures s.procs[p].pc.Elect? ==> s.processCount == n
  {
    hide Inv, Weight, Entering, Advance;
    EnteringNow(build, n, s, h, p);
    EnteringNext(build, n, s', h, h', p);
  }

  lemma EnteringNow(build: Build, n: nat, s: State, h: Phase, p: nat)
    requires Inv(build, n, s, h) && p < n
    ensures s.procs[p].pc.AskDead? ==> (Entering(h, p) <==> !s.status[p].dead)
    ensures s.procs[p].pc.DecReceived? ==> !Entering(h, p)
    ensures s.procs[p].pc.Elect? ==> s.processCount == n
  {
    hide OpenQueue, OpenCounts, CloseStatus, CloseQueue, CloseCounts, IsHit, IsMarked, ToBoot;
  }

  lemma EnteringNext(build: Build, n: nat, s': State, h: Phase, h': Phase, p: nat)
    requires Inv(build, n, s', h') && h' == Advance(h, s') && h'.game == h.game
    requires p < n && (h.stage.Booting? ==> !s'.procs[p].pc.ZeroReceived? && !s'.procs[p].pc.AskDead?)
    ensures Weight(n, s'.procs[p].pc, Entering(h', p)) <= Weight(n, s'.procs[p].pc, Entering(h, p))
  {
    hide Inv;
    InvStands(build, n, s', h', p);
  }

  /** The bound on what a round's end can give back, against the player it costs. */
  lemma RoundPays(n: nat, a: nat, a': nat, work': nat)
    requires a' < a && work' <= n * (n + 32)
    ensures a' * RoundWork(n) + 2 * work' < a * RoundWork(n)
  {
    calc {
      a' * RoundWork(n) + 2 * work';
    <
      a' * RoundWork(n) + RoundWork(n);
    ==
      (a' + 1) * RoundWork(n);
    <=  { MulGrows(a' + 1, a, RoundWork(n)); }
      a * RoundWork(n);
    }
  }

  lemma MulGrows(a: nat, b: nat, c: nat)
    requires a <= b
    ensures a * c <= b * c
  {
  }

  lemma RoundMeasure(build: Build, n: nat, s: State, s': State, h: Phase, h': Phase)
    requires Inv(build, n, s', h') && Round(h.game, h'.game) && s'.queue == multiset{} && s'.parent == s.parent
    ensures Measure(n, s', h') < Measure(n, s, h)
  {
    hide Inv, RoundWork, ParentWork;
    InvLengths(build, n, s', h');
    RoundKills(h.game, h'.game);
    WorkBound(n, s'.procs, h', n);
    RoundPays(n, |h.game.alive|, |h'.game.alive|, Work(n, s'.procs, h', n));
  }

  lemma ChildMeasure(build: Build, n: nat, s: State, h: Phase, p: nat, victim: nat)
    requires Inv(build, n, s, h) && Enabled(s, Child(p, victim))
    ensures var s' := DoChild(build, s, p, victim);
            Measure(n, s', Advance(h, s')) < Measure(n, s, h)
  {
    hide Inv, RoundWork, ParentWork, Advance, Entering, Weight, DoChild, Round;
    var s' := DoChild(build, s, p, victim);
    var h' := Advance(h, s');
    InvLengths(build, n, s, h);
    StepInv(build, n, s, h, Child(p, victim));
    if h'.game == h.game {
      Whereabouts(build, n, s, h, p, victim);
      BootStays(build, n, s, p, victim);
      EnteringSelf(build, n, s, s', h, h', p);
      ChildProgress(build, n, s, p, victim, Entering(h, p));
      forall q {:trigger s'.procs[q]} | 0 <= q < n && q != p
        ensures Weight(n, s'.procs[q].pc, Entering(h', q)) == Weight(n, s.procs[q].pc, Entering(h, q))
      {
        OthersSame(build, n, s, s', h, h', q);
      }
      WorkChange(n, s.procs, s'.procs, h, h', p, n);
    } else {
      RoundMeasure(build, n, s, s', h, h');
    }
  }

  lemma BootStays(build: Build, n: nat, s: State, p: nat, victim: nat)
    requires Enabled(s, Child(p, victim))
    ensures s.procs[p].pc.BootReady? || s.procs[p].pc.BootDec? ==>
              var pc := DoChild(build, s, p, victim).procs[p].pc;
              !pc.ZeroReceived? && !pc.AskDead?
  {
    hide DoScan, DoReadTarget, DoWriteTarget, DoReceive, DoDrain;
  }

  lemma ParentMeasure(build: Build, n: nat, s: State, h: Phase)
    requires Inv(build, n, s, h) && Enabled(s, Parent)
    ensures var s' := DoParent(s);
            Measure(n, s', Advance(h, s')) < Measure(n, s, h)
  {
    hide Inv, RoundWork, Advance, Entering, Weight, Round;
    var s' := DoParent(s);
    var h' := Advance(h, s');
    InvLengths(build, n, s, h);
    StepInv(build, n, s, h, Parent);
    ParentSame(build, n, s, h);
    var p := if s.parent.Fork? then s.parent.k else 0;
    forall q {:trigger s'.procs[q]} | 0 <= q < n
      ensures q != p ==> Weight(n, s'.procs[q].pc, Entering(h', q)) == Weight(n, s.procs[q].pc, Entering(h, q))
      ensures Weight(n, s'.procs[q].pc, Entering(h', q)) <= Weight(n, s.procs[q].pc, Entering(h, q))
    {
      OthersSame(build, n, s, s', h, h', q);
      if s.parent.Fork? && q == p {
        ForkWeight(n, Entering(h, p));
      }
    }
    WorkChange(n, s.procs, s'.procs, h, h', p, n);
  }

  lemma ForkWeight(n: nat, entering: bool)
    ensures Weight(n, BootReady, entering) < Weight(n, Unborn, entering)
  {
  }

  lemma ParentSame(build: Build, n: nat, s: State, h: Phase)
    requires Inv(build, n, s, h) && Enabled(s, Parent)
    ensures Advance(h, DoParent(s)).game == h.game
    ensures ParentWork(n, DoParent(s).parent) < ParentWork(n, s.parent) && n > 0
    ensures s.parent.Fork? ==> s.parent.k < n && s.procs[s.parent.k].pc.Unborn?
  {
    hide OpenInv, CloseInv, ToBoot;
    if !h.stage.Booting? {
      ReapMove(build, n, s, h);
    }
  }

  /** The number of steps the game takes at most. */
  ghost function StepBound(n: nat): nat {
    n * RoundWork(n) + 2 * (n * (n + 32)) + 4 * n + 3
  }

  /** Every run ends: none is longer than a bound that depends on the number of players alone. */
  lemma {:induction false} RunsAreBounded(build: Build, n: nat, run: seq<State>)
    requires Run(build, n, run)
    ensures |run| - 1 + Measure(n, run[|run| - 1], PhaseOf(n, run)) <= StepBound(n)
    ensures |run| <= StepBound(n) + 1
  {
    hide Measure, StepBound, Inv, Do, Enabled, Advance;
    if |run| == 1 {
      InitMeasure(n, run[0]);
    } else {
      var before := run[..|run| - 1];
      RunPrefix(build, n, run, |run| - 1);
      RunsAreBounded(build, n, before);
      RunInv(build, n, before);
      var s := run[|run| - 2];
      assert Next(build, s, run[|run| - 1]);
      var a :| Enabled(s, a) && run[|run| - 1] == Do(build, s, a);
      StepMeasure(build, n, s, PhaseOf(n, before), a);
    }
  }

  lemma StepMeasure(build: Build, n: nat, s: State, h: Phase, a: Actor)
    requires Inv(build, n, s, h) && Enabled(s, a)
    ensures Measure(n, Do(build, s, a), Advance(h, Do(build, s, a))) < Measure(n, s, h)
  {
    hide Inv, Measure, Advance, DoChild, DoParent;
    match a
    case Parent => ParentMeasure(build, n, s, h);
    case Child(p, victim) => ChildMeasure(build, n, s, h, p, victim);
  }

  lemma InitMeasure(n: nat, s: State)
    requires Init(n, s)
    ensures Measure(n, s, Start(n)) <= StepBound(n)
  {
    hide RoundWork;
    WorkBound(n, s.procs, Start(n), n);
  }

  /** The game always ends: whatever has happened so far, going on leads to a finished game, and it
      cannot fail to by any choice of who moves. */
  lemma {:induction false} GameEnds(build: Build, n: nat, run: seq<State>) returns (longer: seq<State>)
    requires Run(build, n, run)
    ensures Run(build, n, longer) && run <= longer && Stuck(longer[|longer| - 1])
    decreases StepBound(n) + 1 - |run|
  {
    hide Inv, Do, Enabled, Advance, Init, StepBound, Stuck;
    RunsAreBounded(build, n, run);
    var s := run[|run| - 1];
    if Stuck(s) {
      longer := run;
    } else {
      var a := SomeMove(s);
      var next := run + [Do(build, s, a)];
      RunOn(build, n, run, a);
      RunsAreBounded(build, n, next);
      longer := GameEnds(build, n, next);
    }
  }

  lemma SomeMove(s: State) returns (a: Actor)
    requires !Stuck(s)
    ensures Enabled(s, a)
  {
    a :| Enabled(s, a);
  }

  lemma RunOn(build: Build, n: nat, run: seq<State>, a: Actor)
    requires Run(build, n, run) && Enabled(run[|run| - 1], a)
    ensures Run(build, n, run + [Do(build, run[|run| - 1], a)])
  {
    hide Init, Do, Enabled;
    var next := run + [Do(build, run[|run| - 1], a)];
    forall i | 0 < i < |next|
      ensures Next(build, next[i - 1], next[i])
    {
      assert next[i - 1] == run[i - 1];
    }
  }
}
