/** Every step of `Pist2`, of whatever process, keeps the invariant and is a step of the atomic game or
    invisible to it. */
module Pist2Game {
  import opened FiniteSets
  import opened AtomicRound
  import opened Pist2
  import opened Pist2Invariant
  import opened Pist2Steps

  // ----- Every step keeps the invariant and refines the atomic game -----

  /** Nothing, or one round in which the players shot whom their `target` says. */
  ghost predicate Simulates(h: Phase, h': Phase, s': State) {
    || h'.game == h.game
    || (Round(h.game, h'.game) && Fires(h.game, AimOf(s'.procs), h'.game) && s'.queue == multiset{})
  }

  lemma OpenedInv(build: Build, n: nat, s: State, h: Phase)
    ensures Opened(build, n, s, h) <==> (h.stage.Gathering? || h.stage.Shooting?) && Inv(build, n, s, h)
    ensures Closed(build, n, s, h) <==> (h.stage.Shot? || h.stage.Receiving?) && Inv(build, n, s, h)
  {
    hide PlayInv, OpenInv, CloseInv, BootInv;
  }

  /** Where a living player that can move stands, by stage. */
  lemma Whereabouts(build: Build, n: nat, s: State, h: Phase, p: nat, victim: nat)
    requires Inv(build, n, s, h) && Enabled(s, Child(p, victim))
    ensures var pc := s.procs[p].pc;
            match h.stage
            case Booting => pc.BootReady? || pc.BootDec?
            case Gathering => if p in h.game.alive then Opening(pc) else pc.ZeroReceived? || pc.AskDead?
            case Shooting => if p in h.game.alive then Opening(pc) else pc.ZeroReceived? || pc.AskDead?
            case Shot => if p in h.game.alive then Closing(pc) else pc.ZeroReceived? || pc.AskDead?
            case Receiving => if p in h.game.alive then Closing(pc) else pc.AskDead?
  {
    hide OpenStatus, OpenQueue, CloseStatus, CloseQueue, ToShoot, ToReceive, Counted, IsHit, ToBoot;
    assert s.procs[p] == s.procs[p];
  }

  /** The semaphores tell the stage. */
  lemma OpenedCounts(build: Build, n: nat, s: State, h: Phase)
    requires Opened(build, n, s, h)
    ensures |s.status| == |s.procs| == n && s.processCount == n && s.s2 == 0
    ensures (h.stage.Gathering? && s.s1 == 0) || (h.stage.Shooting? && s.s1 > 0)
  {
    hide OpenProcs, OpenStatus, OpenQueue, ToShoot;
  }

  lemma ClosedCounts(build: Build, n: nat, s: State, h: Phase)
    requires Closed(build, n, s, h)
    ensures |s.status| == |s.procs| == n && s.s1 == 0
    ensures (h.stage.Shot? && s.s2 == 0) || (h.stage.Receiving? && s.s2 > 0)
  {
    hide CloseProcs, CloseStatus, CloseQueue, ToReceive, Counted;
  }

  lemma OpenMove(build: Build, n: nat, s: State, h: Phase, p: nat, victim: nat)
    requires Opened(build, n, s, h) && Enabled(s, Child(p, victim)) && p in h.game.alive && Opening(s.procs[p].pc)
    ensures var s' := DoChild(build, s, p, victim);
            var h' := Advance(h, s');
            (Opened(build, n, s', h') || Closed(build, n, s', h')) && h'.game == h.game
  {
    hide Opened, Closed, DoScan, DoReadTarget, DoWriteTarget, DoReceive, DoDrain;
    var s' := DoChild(build, s, p, victim);
    OpenedCounts(build, n, s, h);
    match s.procs[p].pc
    case BootZero => IdleStep(build, n, s, h, p, Elect);
    case ZeroReceived => IdleStep(build, n, s, h, p, AskDead);
    case AskDead =>
      OpenBits(build, n, s, h);
      IdleStep(build, n, s, h, p, Elect);
    case Elect => IdleStep(build, n, s, h, p, Scan(n));
    case Scan(i) => ScanStep(build, n, s, h, p, i);
    case AskLast => AskLastStep(build, n, s, h, p);
    case CountRound => CountRoundStep(build, n, s, h, p);
    case CacheAlive => CacheAliveStep(build, n, s, h, p);
    case IncShot => IncShotStep(build, n, s, h, p);
    case Choose => ChooseStep(build, n, s, h, p, victim);
    case ReadTarget => ReadTargetStep(build, n, s, h, p);
    case WriteTarget => WriteTargetStep(build, n, s, h, p);
    case Send => SendStep(build, n, s, h, p);
    case DecShot => DecShotStep(build, n, s, h, p);
  }

  lemma CloseMove(build: Build, n: nat, s: State, h: Phase, p: nat, victim: nat)
    requires Closed(build, n, s, h) && Enabled(s, Child(p, victim)) && p in h.game.alive && Closing(s.procs[p].pc)
    ensures var s' := DoChild(build, s, p, victim);
            var h' := Advance(h, s');
            (Opened(build, n, s', h') || Closed(build, n, s', h')) && Simulates(h, h', s')
  {
    hide Opened, Closed, Round, Fires, AimOf, DoScan, DoReadTarget, DoWriteTarget, DoReceive, DoDrain;
    ClosedCounts(build, n, s, h);
    match s.procs[p].pc
    case ZeroShot => ZeroShotStep(build, n, s, h, p);
    case IncReceived => IncReceivedStep(build, n, s, h, p);
    case Receive => ReceiveStep(build, n, s, h, p);
    case Drain => DrainStep(build, n, s, h, p);
    case ReadSelf => ReadSelfStep(build, n, s, h, p);
    case WriteSelf => WriteSelfStep(build, n, s, h, p);
    case _ => SettleMove(build, n, s, h, p, victim);
  }

  /** The end of a player's round, when its fate is known. */
  lemma SettleMove(build: Build, n: nat, s: State, h: Phase, p: nat, victim: nat)
    requires Closed(build, n, s, h) && Enabled(s, Child(p, victim)) && p in h.game.alive
    requires s.procs[p].pc.DecAlive? || s.procs[p].pc.BeReady? || s.procs[p].pc.DecReceived?
    ensures var s' := DoChild(build, s, p, victim);
            var h' := Advance(h, s');
            (Opened(build, n, s', h') || Closed(build, n, s', h')) && Simulates(h, h', s')
  {
    hide Opened, Closed, Round, Fires, AimOf, DoScan, DoReadTarget, DoWriteTarget, DoReceive, DoDrain;
    ClosedCounts(build, n, s, h);
    match s.procs[p].pc
    case DecAlive => DecAliveStep(build, n, s, h, p);
    case BeReady => BeReadyStep(build, n, s, h, p);
    case DecReceived => DecReceivedStep(build, n, s, h, p);
  }

  lemma LeaveMove(build: Build, n: nat, s: State, h: Phase, p: nat, victim: nat)
    requires Opened(build, n, s, h) || Closed(build, n, s, h)
    requires Enabled(s, Child(p, victim)) && p !in h.game.alive && (s.procs[p].pc.ZeroReceived? || s.procs[p].pc.AskDead?)
    ensures var s' := DoChild(build, s, p, victim);
            Advance(h, s') == h && (Opened(build, n, s', h) || Closed(build, n, s', h))
  {
    hide Opened, Closed, DoScan, DoReadTarget, DoWriteTarget, DoReceive, DoDrain, ChildReady;
    LeaverDead(build, n, s, h, p);
    if Opened(build, n, s, h) {
      OpenedCounts(build, n, s, h);
      LeaveOpen(build, n, s, h, p, if s.procs[p].pc.ZeroReceived? then AskDead else Gone);
    } else {
      ClosedCounts(build, n, s, h);
      LeaveClosed(build, n, s, h, p, if s.procs[p].pc.ZeroReceived? then AskDead else Gone);
    }
  }

  lemma LeaverDead(build: Build, n: nat, s: State, h: Phase, p: nat)
    requires Opened(build, n, s, h) || Closed(build, n, s, h)
    requires p < |s.procs| && p !in h.game.alive
    ensures |s.procs| == |s.status| == n && s.status[p].dead
    ensures Opened(build, n, s, h) ==> !h.stage.Booting?
  {
    hide OpenInv, CloseInv;
  }

  /** The invariant is kept, and what happens is nothing or one round of the atomic game; when it is
      a round, the message queue is empty. */
  lemma StepInv(build: Build, n: nat, s: State, h: Phase, a: Actor)
    requires Inv(build, n, s, h) && Enabled(s, a)
    ensures var s' := Do(build, s, a);
            var h' := Advance(h, s');
            Inv(build, n, s', h') && Simulates(h, h', s')
  {
    hide Opened, Closed, Inv, Simulates, DoChild, DoParent;
    var s' := Do(build, s, a);
    var h' := Advance(h, s');
    OpenedInv(build, n, s, h);
    OpenedInv(build, n, s', h');
    match a
    case Parent => ParentMove(build, n, s, h);
    case Child(p, victim) => ChildMove(build, n, s, h, p, victim);
  }

  lemma ChildMove(build: Build, n: nat, s: State, h: Phase, p: nat, victim: nat)
    requires Inv(build, n, s, h) && Enabled(s, Child(p, victim))
    ensures var s' := DoChild(build, s, p, victim);
            var h' := Advance(h, s');
            Inv(build, n, s', h') && Simulates(h, h', s')
  {
    hide Opened, Closed, Inv, DoChild, BootInv, Round, Fires, AimOf;
    var s' := DoChild(build, s, p, victim);
    OpenedInv(build, n, s, h);
    OpenedInv(build, n, s', Advance(h, s'));
    Whereabouts(build, n, s, h, p, victim);
    if h.stage.Booting? {
      BootMove(build, n, s, h, p, victim);
    } else if p !in h.game.alive {
      LeaveMove(build, n, s, h, p, victim);
    } else if h.stage.Gathering? || h.stage.Shooting? {
      OpenMove(build, n, s, h, p, victim);
    } else {
      CloseMove(build, n, s, h, p, victim);
    }
  }

  lemma BootMove(build: Build, n: nat, s: State, h: Phase, p: nat, victim: nat)
    requires Inv(build, n, s, h) && h.stage.Booting? && Enabled(s, Child(p, victim))
    requires s.procs[p].pc.BootReady? || s.procs[p].pc.BootDec?
    ensures var s' := DoChild(build, s, p, victim);
            var h' := Advance(h, s');
            Inv(build, n, s', h') && h'.game == h.game
  {
    hide Opened, ToBoot, DoScan, DoReadTarget, DoWriteTarget, DoReceive, DoDrain, OpenInv, CloseInv;
    BootChildStep(build, n, s, h, p);
    OpenedInv(build, n, DoChild(build, s, p, victim), h.(stage := Gathering));
  }

  lemma ParentMove(build: Build, n: nat, s: State, h: Phase)
    requires Inv(build, n, s, h) && Enabled(s, Parent)
    ensures var s' := DoParent(s);
            var h' := Advance(h, s');
            Inv(build, n, s', h') && Simulates(h, h', s')
  {
    hide Opened, OpenInv, CloseInv, ToBoot, Round, Fires, AimOf;
    if h.stage.Booting? {
      BootParentStep(build, n, s, h);
      OpenedInv(build, n, DoParent(s), h.(stage := Gathering));
    } else {
      ReapMove(build, n, s, h);
    }
  }

  lemma ReapMove(build: Build, n: nat, s: State, h: Phase)
    requires Inv(build, n, s, h) && !h.stage.Booting? && Enabled(s, Parent)
    ensures s.parent.Reap? && Inv(build, n, s.(parent := Over), h) && Advance(h, s.(parent := Over)) == h
  {
    hide PlayInv, OpenProcs, OpenStatus, OpenQueue, ToShoot, CloseProcs, CloseStatus, CloseQueue, ToReceive, Counted;
    ReapPlay(n, s, h);
    ReapWords(build, n, s, h);
  }

  lemma ReapPlay(n: nat, s: State, h: Phase)
    requires Shape(n, s, h) && PlayInv(n, s, h) && ParentReady(s)
    ensures s.parent.Reap? && PlayInv(n, s.(parent := Over), h)
  {
  }

  lemma ReapWords(build: Build, n: nat, s: State, h: Phase)
    requires Shape(n, s, h)
    ensures var s' := s.(parent := Over);
            && (OpenStatus(n, s, h.game.alive) ==> OpenStatus(n, s', h.game.alive))
            && (OpenQueue(build, s, h.game.alive) ==> OpenQueue(build, s', h.game.alive))
            && (OpenCounts(n, s, h) ==> OpenCounts(n, s', h))
            && (CloseStatus(n, s, h.game.alive) ==> CloseStatus(n, s', h.game.alive))
            && (CloseQueue(build, n, s, h.game.alive) ==> CloseQueue(build, n, s', h.game.alive))
  {
    hide IsHit, IsMarked, IsSent, ToShoot, Boss;
  }
}
