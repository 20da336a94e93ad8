/** What holds of every run of `Pist2`: refinement of the atomic game, the barriers, one coordinator,
    the verdict on each player, and no deadlock. */
module Pist2Runs {
  import opened FiniteSets
  import opened AtomicRound
  import opened Pist2
  import opened Pist2Invariant
  import opened Pist2Steps
  import opened Pist2Game

  // ----- Runs -----

  /** The phase a run has come to. */
  ghost function PhaseOf(n: nat, run: seq<State>): Phase
    requires |run| > 0
  {
    if |run| == 1 then Start(n) else Advance(PhaseOf(n, run[..|run| - 1]), run[|run| - 1])
  }

  ghost function GameAt(n: nat, run: seq<State>, i: nat): Game
    requires i < |run|
  {
    PhaseOf(n, run[..i + 1]).game
  }

  lemma RunPrefix(build: Build, n: nat, run: seq<State>, k: nat)
    requires Run(build, n, run) && 0 < k <= |run|
    ensures Run(build, n, run[..k])
  {
  }

  lemma {:induction false} RunInv(build: Build, n: nat, run: seq<State>)
    requires Run(build, n, run)
    ensures Inv(build, n, run[|run| - 1], PhaseOf(n, run))
    ensures |run| > 1 ==> Simulates(PhaseOf(n, run[..|run| - 1]), PhaseOf(n, run), run[|run| - 1])
  {
    hide Inv, Simulates, Do, Enabled;
    if |run| == 1 {
      InitInv(build, n, run[0]);
    } else {
      var before := run[..|run| - 1];
      RunPrefix(build, n, run, |run| - 1);
      RunInv(build, n, before);
      var s := run[|run| - 2];
      assert Next(build, s, run[|run| - 1]);
      var a :| Enabled(s, a) && run[|run| - 1] == Do(build, s, a);
      StepInv(build, n, s, PhaseOf(n, before), a);
    }
  }

  /** Every interleaving plays the atomic game: seen through its rounds, a run is a play. */
  lemma {:induction false} RunIsPlay(build: Build, n: nat, run: seq<State>)
    requires Run(build, n, run)
    ensures Play(seq(|run|, i requires 0 <= i < |run| => GameAt(n, run, i)))
    ensures GameAt(n, run, 0) == Game(UpTo(n), 0)
  {
    hide Round, Inv, Init, Next, Simulates;
    var gs := seq(|run|, i requires 0 <= i < |run| => GameAt(n, run, i));
    PlayStart(n, run);
    forall i | 0 < i < |gs|
      ensures gs[i] == gs[i - 1] || Round(gs[i - 1], gs[i])
    {
      RunPrefix(build, n, run, i + 1);
      RunInv(build, n, run[..i + 1]);
      assert run[..i + 1][..i] == run[..i];
      Simulated(PhaseOf(n, run[..i]), PhaseOf(n, run[..i + 1]), run[i]);
    }
  }

  lemma PlayStart(n: nat, run: seq<State>)
    requires |run| > 0
    ensures GameAt(n, run, 0) == Game(UpTo(n), 0)
  {
  }

  lemma Simulated(h: Phase, h': Phase, s': State)
    requires Simulates(h, h', s')
    ensures h'.game == h.game || Round(h.game, h'.game)
  {
  }

  // ----- Safety -----

  /** In a round and not yet past the decrement of S1. */
  predicate Shooting(pc: Pc) {
    || pc.Elect? || pc.Scan? || CoordinatorOnly(pc) || pc.Choose?
    || pc.ReadTarget? || pc.WriteTarget? || pc.Send? || pc.DecShot?
  }

  /** Past the wait for S1 to be zero and not yet past the decrement of S2. */
  predicate Examining(pc: Pc) {
    pc.IncReceived? || pc.Receive? || Dying(pc) || pc.DecAlive? || pc.BeReady? || pc.DecReceived?
  }

  /** The two barriers: nobody looks whether it was hit while somebody still may shoot, and nobody
      starts a round while somebody has not recorded its fate in the last one.  No assertion of the
      program fails. */
  lemma BarriersHold(build: Build, n: nat, run: seq<State>, p: nat, q: nat)
    requires Run(build, n, run) && p < n && q < n
    ensures var s := run[|run| - 1];
            |s.procs| == n && !(Shooting(s.procs[p].pc) && Examining(s.procs[q].pc)) && !s.procs[p].pc.Aborted?
  {
    hide Inv, Init, Next;
    RunInv(build, n, run);
    InvPlace(build, n, run[|run| - 1], PhaseOf(n, run), p);
    InvPlace(build, n, run[|run| - 1], PhaseOf(n, run), q);
  }

  lemma InvPlace(build: Build, n: nat, s: State, h: Phase, p: nat)
    requires Inv(build, n, s, h) && p < n
    ensures |s.procs| == n && !s.procs[p].pc.Aborted?
    ensures Shooting(s.procs[p].pc) ==> h.stage.Gathering? || h.stage.Shooting?
    ensures Examining(s.procs[p].pc) ==> h.stage.Shot? || h.stage.Receiving?
  {
    hide Inv;
    InvStands(build, n, s, h, p);
  }

  /** Whoever looks whether it was hit finds the answer complete: every player of the round has
      chosen a living player other than itself and that player's word has DEAD_THIS_ROUND set; and
      whether through its messages or through the bit, the verdict is that somebody aimed at it. */
  lemma VerdictsAgree(build: Build, n: nat, run: seq<State>, p: nat)
    requires Run(build, n, run) && p < |run[|run| - 1].procs| && run[|run| - 1].procs[p].pc.Receive?
    ensures var s := run[|run| - 1];
            var alive := PhaseOf(n, run).game.alive;
            && |s.procs| == |s.status| == n && p in alive && alive <= UpTo(n)
            && (forall q {:trigger s.procs[q]} :: 0 <= q < n && q in alive ==>
                  Victim(alive, q, s.procs[q].target) && s.status[s.procs[q].target].deadThisRound)
            && (s.status[p].deadThisRound <==> IsHit(s.procs, alive, p))
            && (build.MessageQueue? ==> (s.queue[p] > 0 <==> IsHit(s.procs, alive, p)))
  {
    hide Inv, Init, Next, IsHit;
    RunInv(build, n, run);
    InvLengths(build, n, run[|run| - 1], PhaseOf(n, run));
    InvVerdicts(build, n, run[|run| - 1], PhaseOf(n, run), p);
  }

  lemma InvVerdicts(build: Build, n: nat, s: State, h: Phase, p: nat)
    requires Inv(build, n, s, h) && p < n && s.procs[p].pc.Receive?
    ensures var alive := h.game.alive;
            && |s.procs| == |s.status| == n && p in alive && alive <= UpTo(n)
            && (forall q {:trigger s.procs[q]} :: 0 <= q < n && q in alive ==>
                  Victim(alive, q, s.procs[q].target) && s.status[s.procs[q].target].deadThisRound)
            && (s.status[p].deadThisRound <==> IsHit(s.procs, alive, p))
            && (build.MessageQueue? ==> (s.queue[p] > 0 <==> IsHit(s.procs, alive, p)))
  {
    hide Inv, IsHit;
    var alive := h.game.alive;
    InvProc(build, n, s, h, p);
    HitBits(build, n, s, h);
    HitMessages(build, n, s, h, p);
    forall q {:trigger s.procs[q]} | 0 <= q < n && q in alive
      ensures Victim(alive, q, s.procs[q].target) && s.status[s.procs[q].target].deadThisRound
    {
      InvProc(build, n, s, h, q);
      TargetIsHit(s.procs, alive, q);
    }
  }

  lemma TargetIsHit(procs: seq<Proc>, alive: set<nat>, q: nat)
    requires q < |procs| && q in alive
    ensures IsHit(procs, alive, procs[q].target)
  {
  }

  lemma HitBits(build: Build, n: nat, s: State, h: Phase)
    requires Inv(build, n, s, h) && (h.stage.Shot? || h.stage.Receiving?)
    ensures |s.procs| == |s.status| == n
    ensures forall p {:trigger s.status[p]} :: 0 <= p < n && p in h.game.alive ==>
        (s.status[p].deadThisRound <==> IsHit(s.procs, h.game.alive, p))
  {
    hide CloseProcs, CloseQueue, CloseCounts, IsHit;
  }

  lemma HitMessages(build: Build, n: nat, s: State, h: Phase, p: nat)
    requires Inv(build, n, s, h) && (h.stage.Shot? || h.stage.Receiving?) && p < n && p in h.game.alive
    ensures |s.procs| == n
    ensures build.MessageQueue? && s.procs[p].pc.Receive? ==> (s.queue[p] > 0 <==> IsHit(s.procs, h.game.alive, p))
  {
    hide CloseProcs, CloseStatus, CloseCounts, IsHit;
    assert s.procs[p] == s.procs[p];
    assert p in s.queue <==> s.queue[p] > 0;
  }

  /** Has been through the scan in this round and not yet through the barrier of S1. */
  predicate Elected(pc: Pc) {
    CoordinatorOnly(pc) || pc.Choose? || Aiming(pc) || pc.IncReceived?
  }

  /** All agree on one coordinator: a process that has been through the scan holds the coordinator's
      role exactly when it is the last player that is not DEAD. */
  lemma OneCoordinator(build: Build, n: nat, run: seq<State>, p: nat)
    requires Run(build, n, run) && p < |run[|run| - 1].procs| && Elected(run[|run| - 1].procs[p].pc)
    ensures var s := run[|run| - 1];
            && |s.procs| == |s.status| == n
            && (Shooting(s.procs[p].pc) ==>
                  (s.procs[p].coordinator <==> forall q :: p < q < n ==> s.status[q].dead))
            && (s.procs[p].coordinator <==> Boss(PhaseOf(n, run).game.alive, p))
  {
    hide Inv, Init, Next;
    RunInv(build, n, run);
    InvLengths(build, n, run[|run| - 1], PhaseOf(n, run));
    InvCoordinator(build, n, run[|run| - 1], PhaseOf(n, run), p);
  }

  lemma InvLengths(build: Build, n: nat, s: State, h: Phase)
    requires Inv(build, n, s, h)
    ensures |s.procs| == |s.status| == n
  {
  }

  lemma InvCoordinator(build: Build, n: nat, s: State, h: Phase, p: nat)
    requires Inv(build, n, s, h) && p < n && Elected(s.procs[p].pc)
    ensures |s.procs| == |s.status| == n && p in h.game.alive
    ensures s.procs[p].coordinator <==> Boss(h.game.alive, p)
    ensures Shooting(s.procs[p].pc) ==>
              (Boss(h.game.alive, p) <==> forall q :: p < q < n ==> s.status[q].dead)
  {
    hide OpenQueue, OpenCounts, CloseStatus, CloseQueue, CloseCounts, IsHit, IsMarked, ToBoot;
    var alive := h.game.alive;
    if Shooting(s.procs[p].pc) {
      InvPlace(build, n, s, h, p);
      OpenedInv(build, n, s, h);
      OpenBits(build, n, s, h);
      if forall q :: p < q < n ==> s.status[q].dead {
        forall q | q in alive
          ensures q <= p
        {
          assert !s.status[q].dead;
        }
      }
    }
  }

  ghost function NotDead(s: State): set<nat> {
    set p: nat | p in UpTo(|s.status|) && p < |s.status| && !s.status[p].dead
  }

  /** While anybody is shooting, `alive_count` is the number of players not marked DEAD, and `rounds`
      counts the completed rounds and at most the one under way. */
  lemma AliveCountRight(build: Build, n: nat, run: seq<State>, p: nat)
    requires Run(build, n, run) && p < |run[|run| - 1].procs| && Shooting(run[|run| - 1].procs[p].pc)
    ensures var s := run[|run| - 1];
            var g := PhaseOf(n, run).game;
            && NotDead(s) == g.alive && s.aliveCount == |g.alive|
            && g.rounds <= s.rounds <= g.rounds + 1
            && g.rounds + |g.alive| <= n
  {
    hide Init, Next, Inv;
    var s := run[|run| - 1];
    var h := PhaseOf(n, run);
    RunInv(build, n, run);
    InvLengths(build, n, s, h);
    InvPlace(build, n, s, h, p);
    OpenCounted(build, n, s, h);
  }

  lemma OpenCounted(build: Build, n: nat, s: State, h: Phase)
    requires Inv(build, n, s, h) && (h.stage.Gathering? || h.stage.Shooting?)
    ensures NotDead(s) == h.game.alive && s.aliveCount == |h.game.alive| && h.game.rounds + |h.game.alive| <= n
    ensures h.game.rounds <= s.rounds <= h.game.rounds + 1
  {
    OpenedInv(build, n, s, h);
    OpenBits(build, n, s, h);
    RoundsInStep(build, n, s, h);
    hide PlayInv, OpenInv;
  }

  lemma RoundsInStep(build: Build, n: nat, s: State, h: Phase)
    requires Opened(build, n, s, h)
    ensures h.game.rounds <= s.rounds <= h.game.rounds + 1
  {
    hide OpenProcs, OpenStatus, OpenQueue, PlayInv, ToShoot;
    if h.game.alive != {} {
      var boss := BossExists(h.game.alive);
      assert s.procs[boss] == s.procs[boss];
    }
  }

  // ----- Liveness: no deadlock -----

  lemma GatheringCanMove(build: Build, n: nat, s: State, h: Phase) returns (a: Actor)
    requires Opened(build, n, s, h) && h.stage.Gathering? && !s.parent.Over?
    ensures Enabled(s, a)
    ensures a.Parent? ==> |h.game.alive| <= 1 && forall q {:trigger s.procs[q]} :: 0 <= q < n ==> s.procs[q].pc.Gone?
  {
    var alive := h.game.alive;
    hide OpenStatus, OpenQueue, IsMarked;
    if q: nat :| q < n && q !in alive && !s.procs[q].pc.Gone? {
      a := Child(q, 0);
    } else if alive == {} {
      a := Parent;
    } else {
      var boss := BossExists(alive);
      BossCanMove(n, s, h, boss);
      if s.procs[boss].pc.Gone? {
        a := Parent;
      } else {
        a := Child(boss, 0);
      }
    }
  }

  lemma BossCanMove(n: nat, s: State, h: Phase, boss: nat)
    requires h.stage.Gathering? && |s.procs| == |s.status| == n && boss < n && Boss(h.game.alive, boss)
    requires OpenProc(n, h, boss, s.procs[boss]) && s.s1 == 0 && s.s2 == 0
    ensures if s.procs[boss].pc.Gone? then |h.game.alive| == 1 else Enabled(s, Child(boss, 0))
  {
  }

  /** S1 is not zero, so that somebody has still to lower it. */
  lemma SomeoneToShoot(build: Build, n: nat, s: State, h: Phase) returns (p: nat)
    requires Opened(build, n, s, h) && h.stage.Shooting?
    ensures |s.procs| == |s.status| == n && s.s1 > 0 && p < n && p in h.game.alive && Opening(s.procs[p].pc)
  {
    hide OpenProcs, OpenStatus, OpenQueue, PlayInv, Opening;
    assert ToShoot(s.procs, h.game.alive) != {};
    p :| p in ToShoot(s.procs, h.game.alive);
  }

  lemma ShooterCanMove(n: nat, s: State, h: Phase, p: nat, victim: nat)
    requires h.stage.Shooting? && |s.procs| == |s.status| == n && p < n && p in h.game.alive
    requires OpenProc(n, h, p, s.procs[p]) && Opening(s.procs[p].pc) && Bits(n, s, h.game.alive)
    requires s.s1 > 0 && s.s2 == 0 && (s.procs[p].pc.Choose? ==> victim < n && victim in h.game.alive && victim != p)
    ensures Enabled(s, Child(p, victim))
  {
  }

  lemma ShootingCanMove(build: Build, n: nat, s: State, h: Phase) returns (a: Actor)
    requires Opened(build, n, s, h) && h.stage.Shooting?
    ensures Enabled(s, a)
  {
    hide Opened, OpenProc, Bits, Enabled, Opening;
    var p := SomeoneToShoot(build, n, s, h);
    OpenSelf(build, n, s, h, p);
    OpenBits(build, n, s, h);
    OpenedPlay(build, n, s, h);
    var victim := 0;
    if s.procs[p].pc.Choose? {
      ChooserOfTwo(n, h, p, s.procs[p]);
      victim := AnyOther(h.game.alive, p);
    }
    ShooterCanMove(n, s, h, p, victim);
    a := Child(p, victim);
  }

  lemma ChooserOfTwo(n: nat, h: Phase, p: nat, me: Proc)
    requires OpenProc(n, h, p, me) && me.pc.Choose?
    ensures |h.game.alive| >= 2
  {
  }

  lemma AnyOther(alive: set<nat>, p: nat) returns (q: nat)
    requires |alive| >= 2
    ensures q in alive && q != p
  {
    if alive - {p} == {} {
      SubsetSize(alive, {p});
    }
    q :| q in alive - {p};
  }

  /** Between the barriers the coordinator moves first; once S2 is raised, anyone not yet at it can. */
  lemma ClosedMover(n: nat, s: State, h: Phase) returns (p: nat)
    requires |s.procs| == |s.status| == n && CloseProcs(n, s.procs, h) && CloseCounts(s, h) && h.game.alive <= UpTo(n)
    requires h.stage.Shot? || h.stage.Receiving?
    ensures p in h.game.alive && Closing(s.procs[p].pc)
    ensures s.procs[p].pc.DecReceived? ==> s.s2 > 0
    ensures s.procs[p].pc.IncReceived? ==> s.procs[p].cached > 0
  {
    hide Counted, IsHit;
    if h.stage.Shot? {
      p := BossExists(h.game.alive);
    } else {
      assert ToReceive(s.procs, h.game.alive) != {};
      p :| p in ToReceive(s.procs, h.game.alive);
    }
    assert CloseProc(h, p, s.procs[p], IsHit(s.procs, h.game.alive, p));
  }

  lemma ClosedCanMove(build: Build, n: nat, s: State, h: Phase) returns (a: Actor)
    requires Closed(build, n, s, h)
    ensures Enabled(s, a)
  {
    hide CloseProcs, CloseCounts, CloseStatus, CloseQueue, PlayInv;
    var p := ClosedMover(n, s, h);
    ClosedCounts(build, n, s, h);
    a := Child(p, 0);
  }

  lemma BootCanMove(n: nat, s: State, h: Phase) returns (a: Actor)
    requires Shape(n, s, h) && BootInv(n, s, h)
    ensures Enabled(s, a)
  {
    if s.parent.Reap? {
      assert ToBoot(s.procs, h.game.alive) != {};
      var p: nat :| p in ToBoot(s.procs, h.game.alive);
      a := Child(p, 0);
    } else {
      a := Parent;
    }
  }

  /** While the parent has not finished, some process can move. */
  lemma CanMove(build: Build, n: nat, s: State, h: Phase) returns (a: Actor)
    requires Inv(build, n, s, h) && !s.parent.Over?
    ensures Enabled(s, a)
  {
    hide Opened, Closed, BootInv, PlayInv, OpenInv, CloseInv, Enabled;
    OpenedInv(build, n, s, h);
    match h.stage
    case Booting => a := BootCanMove(n, s, h);
    case Gathering => a := GatheringCanMove(build, n, s, h);
    case Shooting => a := ShootingCanMove(build, n, s, h);
    case Shot => a := ClosedCanMove(build, n, s, h);
    case Receiving => a := ClosedCanMove(build, n, s, h);
  }

  lemma StuckIsOver(build: Build, n: nat, s: State, h: Phase)
    requires Inv(build, n, s, h) && Stuck(s)
    ensures s.parent.Over? && h.stage.Gathering? && |h.game.alive| <= 1
    ensures forall p {:trigger s.procs[p]} :: 0 <= p < |s.procs| ==> s.procs[p].pc.Gone?
  {
    hide Enabled, Inv;
    if !s.parent.Over? {
      var a := CanMove(build, n, s, h);
    } else {
      OverIsFinal(build, n, s, h);
    }
  }

  lemma OverIsFinal(build: Build, n: nat, s: State, h: Phase)
    requires Inv(build, n, s, h) && s.parent.Over?
    ensures h.stage.Gathering? && |h.game.alive| <= 1
    ensures forall p {:trigger s.procs[p]} :: 0 <= p < |s.procs| ==> s.procs[p].pc.Gone?
  {
    hide OpenStatus, OpenQueue, CloseStatus, CloseQueue, IsHit, ToShoot, ToReceive, Counted;
    if h.game.alive != {} {
      var boss := BossExists(h.game.alive);
      assert s.procs[boss].pc.Gone?;
      assert |{boss}| == 1;
    }
  }

  /** No deadlock: a run that cannot go on has ended the game.  Every process has exited, at most one
      player survives, `alive_count` says how many, and both semaphores and the message queue are
      back to empty. */
  lemma DeadlockFree(build: Build, n: nat, run: seq<State>)
    requires Run(build, n, run) && Stuck(run[|run| - 1])
    ensures var s := run[|run| - 1];
            && s.parent.Over?
            && (forall p {:trigger s.procs[p]} :: 0 <= p < |s.procs| ==> s.procs[p].pc.Gone?)
            && |NotDead(s)| <= 1 && s.aliveCount == |NotDead(s)|
            && s.s1 == 0 && s.s2 == 0 && s.queue == multiset{}
            && s.rounds + |NotDead(s)| <= n
  {
    hide Init, Next, Inv, NotDead, Opened, Stuck;
    var s := run[|run| - 1];
    var h := PhaseOf(n, run);
    RunInv(build, n, run);
    StuckIsOver(build, n, s, h);
    OpenedInv(build, n, s, h);
    OpenCounted(build, n, s, h);
    FinalState(build, n, s, h);
  }

  lemma FinalState(build: Build, n: nat, s: State, h: Phase)
    requires Opened(build, n, s, h) && h.stage.Gathering?
    requires forall p {:trigger s.procs[p]} :: 0 <= p < |s.procs| ==> s.procs[p].pc.Gone?
    ensures s.s1 == 0 && s.s2 == 0 && s.queue == multiset{} && s.rounds == h.game.rounds
  {
    if h.game.alive != {} {
      var boss := BossExists(h.game.alive);
      assert s.procs[boss].pc.Gone?;
    }
    assert forall q {:trigger s.queue[q]} :: s.queue[q] == 0;
  }
}
