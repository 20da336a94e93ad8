/** What holds of every run of `Pistolos`: refinement of the atomic game, `round_over` is right, one shot
    a round, no wake-up is lost, and no deadlock. */
module PistolosRuns {
  import opened FiniteSets
  import opened AtomicRound
  import opened Pistolos
  import opened PistolosInvariant
  import opened PistolosSteps

  // ----- Every step keeps the invariant and refines the atomic game -----

  lemma Stages(n: nat, s: State, g: Game)
    ensures InRound(n, s, g) <==> Firing(s.parent) && Inv(n, s, g)
    ensures Marks(n, s, g) <==> Marking(s.parent) && Inv(n, s, g)
    ensures Boots(n, s, g) <==> Booting(s.parent) && Inv(n, s, g)
  {
    hide FireInv, MarkInv, BootInv;
  }

  lemma FiresDead(n: nat, s: State, g: Game)
    requires InRound(n, s, g)
    ensures g.alive <= UpTo(n)
    ensures forall q {:trigger s.status[q]} :: 0 <= q < n ==> (s.status[q].dead <==> q !in g.alive)
  {
    hide FireHits, ScanInv, Finished, Candidates;
    forall q {:trigger s.status[q]} | 0 <= q < n
      ensures s.status[q].dead <==> q !in g.alive
    {
      assert s.children[q] == s.children[q];
    }
  }

  lemma FireMove(n: nat, s: State, g: Game, p: nat, takeTerm: bool, random: nat)
    requires InRound(n, s, g) && p < n && p in g.alive && ChildReady(s.children[p], takeTerm)
    ensures InRound(n, DoChild(n, s, p, takeTerm, random), g)
  {
    hide FireSelf, FireChild, InRound, OwnStep, DoPickAt, DoShoot, DoWait, UpTo;
    FiresSelf(n, s, g, p);
    FiresDead(n, s, g);
    FirePc(n, s, g, p);
    var s' := DoChild(n, s, p, takeTerm, random);
    match s.children[p].pc
    case Waiting => WaitStep(n, s, g, p, takeTerm); FireStep(n, s, s', g, p);
    case Pick(_) => PickStep(n, s, g, p, random); FireStep(n, s, s', g, p);
    case PickAt(_, _, _) => PickAtStep(n, s, g, p); FireStep(n, s, s', g, p);
    case Shoot(_) => ShootStep(n, s, g, p);
    case BootNotify => BootNotifyOwn(n, s, g, p, takeTerm, random); FireStep(n, s, s', g, p);
    case SetTarget(_) => SetTargetOwn(n, s, g, p, takeTerm, random); FireStep(n, s, s', g, p);
    case ReadShot(_) => ReadShotOwn(n, s, g, p, takeTerm, random); FireStep(n, s, s', g, p);
    case WriteShot(_) => WriteShotOwn(n, s, g, p, takeTerm, random); FireStep(n, s, s', g, p);
    case NotifyShot(_) => NotifyShotOwn(n, s, g, p, takeTerm, random); FireStep(n, s, s', g, p);
    case AskShot => AskShotOwn(n, s, g, p, takeTerm, random); FireStep(n, s, s', g, p);
    case ReadDead => ReadDeadOwn(n, s, g, p, takeTerm, random); FireStep(n, s, s', g, p);
    case WriteDead => WriteDeadOwn(n, s, g, p, takeTerm, random); FireStep(n, s, s', g, p);
    case NotifyDead => NotifyDeadOwn(n, s, g, p, takeTerm, random); FireStep(n, s, s', g, p);
    case Exiting => ExitingOwn(n, s, g, p, takeTerm, random); FireStep(n, s, s', g, p);
  }

  lemma FirePc(n: nat, s: State, g: Game, p: nat)
    requires Shaped(n, s) && p < n && FireSelf(n, s, g, p)
    ensures !s.children[p].pc.Unborn? && !s.children[p].pc.BootReady? && !s.children[p].pc.Crashed?
  {
    hide Targeted, Candidates;
  }

  lemma OutPc(n: nat, s: State, g: Game, p: nat)
    requires InRound(n, s, g) && p < n && p !in g.alive
    ensures Shaped(n, s) && Leaving(s.children[p].pc)
  {
    hide FireChildren, FireHits, ScanInv, Finished;
  }

  lemma FireLeaveMove(n: nat, s: State, g: Game, p: nat, takeTerm: bool, random: nat)
    requires InRound(n, s, g) && p < n && p !in g.alive && ChildReady(s.children[p], takeTerm)
    ensures InRound(n, DoChild(n, s, p, takeTerm, random), g)
  {
    hide InRound, DoChild;
    OutPc(n, s, g, p);
    if s.children[p].pc.NotifyDead? {
      NotifyDeadIs(n, s, p, takeTerm, random);
      LeaveFire(n, s, g, p, Exiting, true);
    } else {
      ExitingIs(n, s, p, takeTerm, random);
      LeaveFire(n, s, g, p, Gone, s.usr2);
    }
  }

  lemma MarkMove(n: nat, s: State, g: Game, p: nat, takeTerm: bool, random: nat)
    requires Marks(n, s, g) && p < n && ChildReady(s.children[p], takeTerm)
    ensures Marks(n, DoChild(n, s, p, takeTerm, random), g)
  {
    hide Marks, DoChild, Leaving, Idle;
    MarkShaped(n, s, g);
    MarkChildStep(n, s, g, p, takeTerm, random);
    MarkOut(n, s, g, p);
    MarkNexts(p in g.alive, s.children[p].pc);
    match s.children[p].pc
    case BootNotify => BootNotifyIs(n, s, p, takeTerm, random); MarkQuiet(n, s, g, p, Waiting, true);
    case NotifyShot(_) => NotifyShotIs(n, s, p, takeTerm, random); MarkQuiet(n, s, g, p, Waiting, true);
    case NotifyDead => NotifyDeadIs(n, s, p, takeTerm, random); MarkQuiet(n, s, g, p, Exiting, true);
    case Exiting => ExitingIs(n, s, p, takeTerm, random); MarkQuiet(n, s, g, p, Gone, s.usr2);
  }

  lemma MarkShaped(n: nat, s: State, g: Game)
    requires Marks(n, s, g)
    ensures Shaped(n, s)
  {
  }

  lemma MarkNexts(alive: bool, pc: Pc)
    requires if alive then Idle(pc) else Leaving(pc)
    ensures pc.BootNotify? || pc.NotifyShot? ==> alive && Idle(Waiting)
    ensures pc.NotifyDead? || pc.Exiting? ==> !alive && Leaving(Exiting) && Leaving(Gone)
  {
  }

  lemma BootNotifyIs(n: nat, s: State, p: nat, takeTerm: bool, random: nat)
    requires Shaped(n, s) && p < n && s.children[p].pc.BootNotify?
    ensures DoChild(n, s, p, takeTerm, random) == Go(s, p, Waiting).(usr2 := true)
  {
  }

  lemma NotifyShotIs(n: nat, s: State, p: nat, takeTerm: bool, random: nat)
    requires Shaped(n, s) && p < n && s.children[p].pc == NotifyShot(false)
    ensures DoChild(n, s, p, takeTerm, random) == Go(s, p, Waiting).(usr2 := true)
  {
  }

  lemma NotifyDeadIs(n: nat, s: State, p: nat, takeTerm: bool, random: nat)
    requires Shaped(n, s) && p < n && s.children[p].pc.NotifyDead?
    ensures DoChild(n, s, p, takeTerm, random) == Go(s, p, Exiting).(usr2 := true)
  {
  }

  lemma ExitingIs(n: nat, s: State, p: nat, takeTerm: bool, random: nat)
    requires Shaped(n, s) && p < n && s.children[p].pc.Exiting?
    ensures DoChild(n, s, p, takeTerm, random) == Go(s, p, Gone).(usr2 := s.usr2)
  {
  }

  lemma MarkOut(n: nat, s: State, g: Game, p: nat)
    requires Marks(n, s, g) && p < n
    ensures Shaped(n, s) && if p in g.alive then Idle(s.children[p].pc) else Leaving(s.children[p].pc)
  {
    hide MarkDead, Finished, MarkAt;
  }

  lemma ChildMove(n: nat, s: State, g: Game, a: Actor)
    requires Inv(n, s, g) && Enabled(n, s, a) && a.Player?
    ensures Inv(n, Do(n, s, a), g)
  {
    hide Inv, InRound, Marks, Boots, DoChild;
    Stages(n, s, g);
    Stages(n, Do(n, s, a), g);
    var Player(p, takeTerm, random) := a;
    ChildKeeps(n, s, p, takeTerm, random);
    if Booting(s.parent) {
      BootChildStep(n, s, g, p, takeTerm, random);
    } else if Marking(s.parent) {
      MarkMove(n, s, g, p, takeTerm, random);
    } else if p in g.alive {
      FireMove(n, s, g, p, takeTerm, random);
    } else {
      FireLeaveMove(n, s, g, p, takeTerm, random);
    }
  }

  lemma ChildKeeps(n: nat, s: State, p: nat, takeTerm: bool, random: nat)
    requires Shaped(n, s) && p < n
    ensures DoChild(n, s, p, takeTerm, random).parent == s.parent
  {
  }

  lemma ParentMove(n: nat, s: State, g: Game)
    requires Inv(n, s, g) && Enabled(n, s, Parent)
    ensures var g' := Advance(g, s, DoParent(n, s));
            Inv(n, DoParent(n, s), g') && (g' == g || Round(g, g'))
  {
    hide Inv, InRound, Marks, Boots, Round, Living, DoMark, DoFire, DoBoot;
    var s' := DoParent(n, s);
    var g' := Advance(g, s, s');
    ParentKeeps(n, s);
    Stages(n, s, g);
    Stages(n, s', g');
    match s.parent
    case ForkMark(_) => BootParentStep(n, s, g);
    case Fork(_) => BootParentStep(n, s, g);
    case BootSleep => BootParentStep(n, s, g);
    case BootScan(k) =>
      if k >= n {
        BootEnd(n, s, g);
      } else {
        BootParentStep(n, s, g);
      }
    case MarkAsk(_) => MarkLookStep(n, s, g);
    case MarkRead(_) => MarkLookStep(n, s, g);
    case MarkCount(_) => MarkLookStep(n, s, g);
    case MarkWrite(_, _) => MarkWordStep(n, s, g);
    case MarkReady(_) => MarkWordStep(n, s, g);
    case Tally => TallyStep(n, s, g);
    case CountRound => CountRoundStep(n, s, g);
    case SetAlive => FireStarts(n, s, g);
    case KillAll => GameOver(n, s, g);
    case Kick(_) => KickStep(n, s, g);
    case KickSend(_) => KickStep(n, s, g);
    case ScanReady(k) =>
      if k >= n {
        ScanEnd(n, s);
        RoundEnd(n, s, g);
      } else {
        ScanStep(n, s, g);
      }
    case ScanShot(_) => ScanStep(n, s, g);
    case ScanTarget(_) => ScanStep(n, s, g);
    case ScanLook(_) => ScanStep(n, s, g);
    case ScanHit(_, _) => ScanStep(n, s, g);
    case Sleep => ScanStep(n, s, g);
  }

  /** Only the parent's successful scan ends a round. */
  lemma ParentKeeps(n: nat, s: State)
    requires Shaped(n, s)
    ensures s.parent.ScanReady? && DoParent(n, s).parent.MarkAsk? <==> s.parent.ScanReady? && s.parent.k >= n
  {
  }

  lemma ScanEnd(n: nat, s: State)
    requires Shaped(n, s) && s.parent.ScanReady? && s.parent.k >= n
    ensures DoFire(n, s) == s.(parent := MarkAsk(0), totalDead := 0)
  {
  }

  lemma StepInv(n: nat, s: State, g: Game, a: Actor)
    requires Inv(n, s, g) && Enabled(n, s, a)
    ensures var g' := Advance(g, s, Do(n, s, a));
            Inv(n, Do(n, s, a), g') && (g' == g || Round(g, g'))
  {
    hide Inv, DoParent, DoChild, Round, Living;
    match a
    case Parent => ParentMove(n, s, g);
    case Player(p, takeTerm, random) =>
      ChildKeeps(n, s, p, takeTerm, random);
      ChildMove(n, s, g, a);
  }

  // ----- Runs -----

  /** The game a run has come to. */
  ghost function GameOf(n: nat, run: seq<State>): Game
    requires |run| > 0
  {
    if |run| == 1 then Start(n)
    else Advance(GameOf(n, run[..|run| - 1]), run[|run| - 2], run[|run| - 1])
  }

  lemma RunPrefix(n: nat, run: seq<State>, k: nat)
    requires Run(n, run) && 0 < k <= |run|
    ensures Run(n, run[..k])
  {
  }

  lemma {:induction false} RunInv(n: nat, run: seq<State>)
    requires Run(n, run)
    ensures Inv(n, run[|run| - 1], GameOf(n, run))
    ensures |run| > 1 ==> var g := GameOf(n, run[..|run| - 1]);
                          GameOf(n, run) == g || Round(g, GameOf(n, run))
  {
    hide Inv, Do, Enabled, Advance, Round;
    if |run| == 1 {
      InitInv(n, run[0]);
    } else {
      var before := run[..|run| - 1];
      RunPrefix(n, run, |run| - 1);
      RunInv(n, before);
      var s := run[|run| - 2];
      assert Next(n, s, run[|run| - 1]);
      var a :| Enabled(n, s, a) && run[|run| - 1] == Do(n, s, a);
      StepInv(n, s, GameOf(n, before), a);
    }
  }

  /** Every interleaving plays the atomic game. */
  lemma {:induction false} RunIsPlay(n: nat, run: seq<State>)
    requires Run(n, run)
    ensures Play(seq(|run|, i requires 0 <= i < |run| => GameOf(n, run[..i + 1])))
    ensures GameOf(n, run[..1]) == Game(UpTo(n), 0)
  {
    hide Round, Inv, Init, Next, Advance;
    var gs := seq(|run|, i requires 0 <= i < |run| => GameOf(n, run[..i + 1]));
    forall i | 0 < i < |gs|
      ensures gs[i] == gs[i - 1] || Round(gs[i - 1], gs[i])
    {
      RunPrefix(n, run, i + 1);
      RunInv(n, run[..i + 1]);
      assert run[..i + 1][..i] == run[..i];
    }
  }

  // ----- Safety -----

  /** When `round_over` has passed the last child, the round is over for everybody: every living player
      has fired at another living player and has its bit SHOT and its target recorded; exactly the
      targets have DEAD_THIS_ROUND, and only they have had a SIGTERM; a survivor is back from its
      handlers with no signal pending; and the dead of earlier rounds still pass the scan. */
  ghost predicate RoundIsOver(n: nat, s: State, alive: set<nat>) {
    && Shaped(n, s) && alive <= UpTo(n)
    && (forall q: nat {:trigger s.target[q]} :: q in alive ==>
          s.status[q].shot && s.target[q] in alive && s.target[q] != q)
    && (forall t: nat {:trigger s.status[t]} :: t in alive ==>
          (s.status[t].deadThisRound <==> Hit(alive, AimOf(s.target), t)))
    && (forall t: nat {:trigger s.children[t]} :: t in alive && !s.status[t].deadThisRound ==>
          Idle(s.children[t].pc) && !s.children[t].term && !s.children[t].usr1)
    && (forall q: nat {:trigger Finished(n, s, q)} :: q < n && q !in alive ==> Finished(n, s, q))
  }

  lemma RoundOverIsRight(n: nat, run: seq<State>)
    requires Run(n, run) && run[|run| - 1].parent.ScanReady? && run[|run| - 1].parent.k >= n
    ensures RoundIsOver(n, run[|run| - 1], GameOf(n, run).alive)
  {
    hide Inv, InRound, Init, Next, RoundIsOver;
    RunInv(n, run);
    var s := run[|run| - 1];
    var g := GameOf(n, run);
    Stages(n, s, g);
    OverAll(n, s, g);
  }

  lemma OverAll(n: nat, s: State, g: Game)
    requires InRound(n, s, g) && s.parent.ScanReady? && s.parent.k >= n
    ensures RoundIsOver(n, s, g.alive)
  {
    hide InRound, Hit, Aimed, Finished, Idle, HasTerm;
    OverFacts(n, s, g);
    FiresDead(n, s, g);
    OverHits(n, s, g);
    OutPass(n, s, g);
    forall q: nat {:trigger s.status[q]} {:trigger s.target[q]} {:trigger s.children[q]} | q in g.alive
      ensures s.status[q].shot && s.target[q] in g.alive && s.target[q] != q
      ensures !s.status[q].deadThisRound ==> Idle(s.children[q].pc) && !s.children[q].term && !s.children[q].usr1
    {
      OverChild(n, s, g, q);
      OverShot(n, s, q);
    }
  }

  lemma OverShot(n: nat, s: State, q: nat)
    requires Shaped(n, s) && q < n && Finished(n, s, q)
    ensures s.status[q].shot
  {
  }

  lemma OutPass(n: nat, s: State, g: Game)
    requires InRound(n, s, g)
    ensures forall q: nat {:trigger Finished(n, s, q)} :: q < n && q !in g.alive ==> Finished(n, s, q)
  {
    hide Finished, FireChildren, FireHits, ScanInv;
  }

  /** `child_rand_proc` never divides by zero and never returns a null brother. */
  lemma NobodyCrashes(n: nat, run: seq<State>, p: nat)
    requires Run(n, run) && p < n
    ensures |run[|run| - 1].children| == n && !run[|run| - 1].children[p].pc.Crashed?
  {
    hide Inv, InRound, Marks, Boots, Init, Next;
    RunInv(n, run);
    var s := run[|run| - 1];
    var g := GameOf(n, run);
    Stages(n, s, g);
    if Firing(s.parent) {
      if p in g.alive {
        FiresSelf(n, s, g, p);
        FirePc(n, s, g, p);
      } else {
        OutPc(n, s, g, p);
      }
    } else if Marking(s.parent) {
      MarkOut(n, s, g, p);
    } else {
      StillCrash(n, s, g, p);
    }
  }

  lemma StillCrash(n: nat, s: State, g: Game, p: nat)
    requires Inv(n, s, g) && p < n && !Firing(s.parent) && !Marking(s.parent)
    ensures Shaped(n, s) && !s.children[p].pc.Crashed?
  {
    hide FireInv, MarkInv;
    assert s.children[p] == s.children[p];
  }

  // ----- Everybody shoots once a round -----

  /** How often child `p` has sent its SIGTERM. */
  ghost function Shots(run: seq<State>, p: nat): nat {
    if |run| <= 1 then 0
    else Shots(run[..|run| - 1], p) + (if Sends(run[|run| - 2], run[|run| - 1], p) then 1 else 0)
  }

  predicate Sends(s: State, s': State, p: nat) {
    p < |s.children| && p < |s'.children| && s.children[p].pc.Shoot? && s'.children[p].pc.SetTarget?
  }

  /** The shot of the round under way, if `p` has fired it. */
  ghost predicate ShotNow(s: State, p: nat) {
    p < |s.children| && p < |s.status| && Firing(s.parent) && Fired(s.children[p], s.status[p])
  }

  ghost function Bit(b: bool): nat {
    if b then 1 else 0
  }

  lemma ChildSends(n: nat, s: State, p: nat, takeTerm: bool, random: nat, q: nat)
    requires Shaped(n, s) && p < n && q < n && ChildReady(s.children[p], takeTerm)
    ensures var s' := DoChild(n, s, p, takeTerm, random);
            && Shaped(n, s') && (Sends(s, s', q) ==> q == p)
            && (q != p ==> s'.children[q].pc == s.children[q].pc && s'.status[q] == s.status[q])
  {
  }

  lemma PickShot(n: nat, s: State, p: nat, takeTerm: bool)
    requires Shaped(n, s) && p < n
    ensures s.children[p].pc.PickAt? ==> var s' := DoPickAt(s, p);
              ShotNow(s', p) == ShotNow(s, p) && !Sends(s, s', p)
    ensures s.children[p].pc.Waiting? ==> var s' := DoWait(s, p, takeTerm);
              ShotNow(s', p) == ShotNow(s, p) && !Sends(s, s', p)
  {
  }

  lemma ShootShot(n: nat, s: State, p: nat)
    requires Shaped(n, s) && p < n && s.children[p].pc.Shoot? && Firing(s.parent) && !s.status[p].shot
    requires !DoShoot(s, p).children[p].pc.Crashed?
    ensures !ShotNow(s, p) && ShotNow(DoShoot(s, p), p) && Sends(s, DoShoot(s, p), p)
  {
  }

  lemma SelfShot(n: nat, s: State, g: Game, p: nat)
    requires Shaped(n, s) && p < n && FireSelf(n, s, g, p)
    ensures s.children[p].pc.Shoot? ==> !s.status[p].shot
    ensures s.children[p].pc.WriteDead? ==> s.children[p].seen == s.status[p]
  {
    hide Targeted, Candidates;
  }

  lemma OwnShot(n: nat, s: State, g: Game, p: nat, takeTerm: bool, random: nat)
    requires Shaped(n, s) && p < n && FireSelf(n, s, g, p) && Firing(s.parent) && ChildReady(s.children[p], takeTerm)
    requires !DoChild(n, s, p, takeTerm, random).children[p].pc.Crashed?
    ensures var s' := DoChild(n, s, p, takeTerm, random);
            Bit(ShotNow(s', p)) == Bit(ShotNow(s, p)) + Bit(Sends(s, s', p))
  {
    hide FireSelf, DoPickAt, DoWait, DoShoot, DoChild, ShotNow, Sends;
    FirePc(n, s, g, p);
    SelfShot(n, s, g, p);
    DoPicks(n, s, p, takeTerm, random);
    var pc := s.children[p].pc;
    if pc.PickAt? || pc.Waiting? {
      PickShot(n, s, p, takeTerm);
    } else if pc.Shoot? {
      ShootShot(n, s, p);
    } else if pc.ReadDead? || pc.WriteDead? || pc.NotifyDead? || pc.Exiting? {
      DeathShot(n, s, p, takeTerm, random);
    } else {
      OtherShot(n, s, p, takeTerm, random);
    }
  }

  lemma DoPicks(n: nat, s: State, p: nat, takeTerm: bool, random: nat)
    requires Shaped(n, s) && p < n
    ensures var s' := DoChild(n, s, p, takeTerm, random);
            && (s.children[p].pc.PickAt? ==> s' == DoPickAt(s, p))
            && (s.children[p].pc.Waiting? ==> s' == DoWait(s, p, takeTerm))
            && (s.children[p].pc.Shoot? ==> s' == DoShoot(s, p))
  {
    hide DoPickAt, DoWait, DoShoot;
  }

  lemma DeathShot(n: nat, s: State, p: nat, takeTerm: bool, random: nat)
    requires Shaped(n, s) && p < n && (s.children[p].pc.WriteDead? ==> s.children[p].seen == s.status[p])
    requires var pc := s.children[p].pc; pc.ReadDead? || pc.WriteDead? || pc.NotifyDead? || pc.Exiting?
    ensures var s' := DoChild(n, s, p, takeTerm, random); ShotNow(s', p) == ShotNow(s, p) && !Sends(s, s', p)
  {
    hide DoPickAt, DoWait, DoShoot;
  }

  lemma OtherShot(n: nat, s: State, p: nat, takeTerm: bool, random: nat)
    requires Shaped(n, s) && p < n && ChildReady(s.children[p], takeTerm)
    requires var pc := s.children[p].pc; Killed(pc) || pc.BootNotify? || pc.Pick? || pc.NotifyShot? || pc.AskShot?
    ensures var s' := DoChild(n, s, p, takeTerm, random); ShotNow(s', p) == ShotNow(s, p) && !Sends(s, s', p)
  {
    hide DoPickAt, DoWait, DoShoot;
  }

  lemma FireShots(n: nat, s: State, g: Game, p: nat, takeTerm: bool, random: nat, q: nat)
    requires InRound(n, s, g) && Enabled(n, s, Player(p, takeTerm, random)) && q in g.alive
    ensures var s' := DoChild(n, s, p, takeTerm, random);
            Bit(ShotNow(s', q)) == Bit(ShotNow(s, q)) + Bit(Sends(s, s', q))
  {
    hide InRound, DoChild, Sends, FireSelf;
    FiresDead(n, s, g);
    Stages(n, s, g);
    var s' := DoChild(n, s, p, takeTerm, random);
    ChildSends(n, s, p, takeTerm, random, q);
    ChildKeeps(n, s, p, takeTerm, random);
    if q == p {
      FiresSelf(n, s, g, p);
      FireMove(n, s, g, p, takeTerm, random);
      FiresSelf(n, s', g, p);
      FirePc(n, s', g, p);
      OwnShot(n, s, g, p, takeTerm, random);
    }
  }

  /** A child's step outside a round is no shot. */
  lemma QuietShots(n: nat, s: State, g: Game, p: nat, takeTerm: bool, random: nat, q: nat)
    requires Inv(n, s, g) && Enabled(n, s, Player(p, takeTerm, random)) && !Firing(s.parent) && q < n
    ensures var s' := DoChild(n, s, p, takeTerm, random);
            !ShotNow(s, q) && !ShotNow(s', q) && !Sends(s, s', q)
  {
    hide Inv, DoChild, Marks;
    Stages(n, s, g);
    ChildKeeps(n, s, p, takeTerm, random);
    ChildSends(n, s, p, takeTerm, random, q);
    if Marking(s.parent) {
      MarkOut(n, s, g, p);
    } else {
      StillShoot(n, s, g, p);
    }
  }

  lemma StillShoot(n: nat, s: State, g: Game, p: nat)
    requires Inv(n, s, g) && p < n && !Firing(s.parent) && !Marking(s.parent)
    ensures Shaped(n, s) && !s.children[p].pc.Shoot?
  {
    hide FireInv, MarkInv;
    assert s.children[p] == s.children[p];
  }

  lemma FireSends(n: nat, s: State, q: nat)
    requires Shaped(n, s) && q < n && Firing(s.parent)
    ensures var s' := DoFire(n, s);
            && s'.status == s.status && Shaped(n, s') && s'.children[q].pc == s.children[q].pc
            && (!Firing(s'.parent) ==> s.parent.ScanReady? && s.parent.k >= n && s'.parent.MarkAsk?)
  {
  }

  lemma MarkSends(n: nat, s: State, q: nat)
    requires Shaped(n, s) && q < n && !Firing(s.parent) && !Booting(s.parent)
    ensures var s' := DoMark(n, s);
            && s'.children == s.children
            && (Firing(s'.parent) ==> s.parent.SetAlive?)
            && (s.parent.SetAlive? ==> s'.status == s.status)
  {
  }

  lemma ParentSends(n: nat, s: State, q: nat)
    requires Shaped(n, s) && q < n
    ensures var s' := DoParent(n, s);
            && !Sends(s, s', q)
            && (Firing(s.parent) ==> s'.status == s.status && Shaped(n, s') && s'.children[q].pc == s.children[q].pc)
            && (Firing(s'.parent) ==> Firing(s.parent) || s.parent.SetAlive?)
            && (s.parent.SetAlive? ==> s'.children == s.children && s'.status == s.status)
            && (Firing(s.parent) && !Firing(s'.parent) ==> s.parent.ScanReady? && s.parent.k >= n && s'.parent.MarkAsk?)
  {
    hide DoFire, DoMark;
    if Firing(s.parent) {
      FireSends(n, s, q);
    } else if !Booting(s.parent) {
      MarkSends(n, s, q);
    }
  }

  lemma ReadyShots(n: nat, s: State, g: Game, q: nat)
    requires Marks(n, s, g) && s.parent.SetAlive? && q in g.alive && q < n
    ensures Shaped(n, s) && !Fired(s.children[q], s.status[q])
  {
    hide OutChildren, MarkDead, MarkAt;
    assert s.children[q] == s.children[q];
  }

  lemma ParentShots(n: nat, s: State, g: Game, q: nat)
    requires Inv(n, s, g) && Enabled(n, s, Parent) && q < n && q in g.alive
    ensures var s' := DoParent(n, s);
            && !Sends(s, s', q)
            && Advance(g, s, s').rounds + Bit(ShotNow(s', q)) == g.rounds + Bit(ShotNow(s, q))
  {
    hide Inv, InRound, Marks, Boots, DoParent, Sends, Fired, Living;
    Stages(n, s, g);
    ParentKeeps(n, s);
    ParentSends(n, s, q);
    if s.parent.SetAlive? {
      ReadyShots(n, s, g, q);
    } else if Firing(s.parent) {
      FiredPc(s.children[q], DoParent(n, s).children[q], s.status[q]);
      if s.parent.ScanReady? && s.parent.k >= n {
        OverFacts(n, s, g);
        OverChild(n, s, g, q);
      }
    }
  }

  lemma FiredPc(c: Child, c': Child, w: Status)
    requires c.pc == c'.pc
    ensures Fired(c, w) <==> Fired(c', w)
  {
  }

  /** The rounds completed in which player `p` was alive. */
  ghost function RoundsPlayed(n: nat, run: seq<State>, p: nat): nat
    requires |run| > 0
  {
    if |run| == 1 then 0
    else
      var before := run[..|run| - 1];
      RoundsPlayed(n, before, p) + Bit(p in GameOf(n, before).alive && RoundEnds(run[|run| - 2], run[|run| - 1]))
  }

  predicate RoundEnds(s: State, s': State) {
    s.parent.ScanReady? && s'.parent.MarkAsk?
  }

  /** Every player, dead or alive, has sent exactly one SIGTERM in each round it has played, the one it
      died in included, and at most one, namely the one its bit SHOT or its program counter tells of, in
      the round under way; shots "faked" by the SIGTERM handler count like the others. */
  lemma {:induction false} OneShotARound(n: nat, run: seq<State>, p: nat)
    requires Run(n, run) && p < n
    ensures Shots(run, p) ==
            RoundsPlayed(n, run, p) + Bit(p in GameOf(n, run).alive && ShotNow(run[|run| - 1], p))
    ensures p in GameOf(n, run).alive ==> RoundsPlayed(n, run, p) == GameOf(n, run).rounds
  {
    hide Inv, Do, Enabled, ShotNow, Sends, Living, Init;
    if |run| == 1 {
      InitShots(n, run[0], p);
    } else {
      var before := run[..|run| - 1];
      var s, s' := run[|run| - 2], run[|run| - 1];
      RunPrefix(n, run, |run| - 1);
      RunInv(n, before);
      var g := GameOf(n, before);
      assert Next(n, s, s');
      var a :| Enabled(n, s, a) && s' == Do(n, s, a);
      OneShotARound(n, before, p);
      AdvanceShrinks(g, s, s');
      if p in g.alive {
        StepShots(n, s, g, a, p);
        if RoundEnds(s, s') {
          MarkIsNoShot(s', p);
        }
      } else {
        DeadShots(n, s, g, a, p);
      }
    }
  }

  lemma AdvanceShrinks(g: Game, s: State, s': State)
    ensures Advance(g, s, s').alive <= g.alive
    ensures Advance(g, s, s').rounds == g.rounds + Bit(RoundEnds(s, s'))
    ensures !RoundEnds(s, s') ==> Advance(g, s, s') == g
  {
  }

  lemma MarkIsNoShot(s: State, p: nat)
    requires s.parent.MarkAsk?
    ensures !ShotNow(s, p)
  {
  }

  /** The dead do not shoot. */
  lemma DeadShots(n: nat, s: State, g: Game, a: Actor, p: nat)
    requires Inv(n, s, g) && Enabled(n, s, a) && p < n && p !in g.alive
    ensures !Sends(s, Do(n, s, a), p)
  {
    hide Inv, Do, Enabled, InRound, Marks, Boots;
    InvPlayers(n, s, g);
    Stages(n, s, g);
    if Firing(s.parent) {
      OutPc(n, s, g, p);
    } else if Marking(s.parent) {
      MarkOut(n, s, g, p);
    } else {
      StillShoot(n, s, g, p);
    }
  }

  lemma InitShots(n: nat, s: State, p: nat)
    requires Init(n, s)
    ensures !ShotNow(s, p)
  {
  }

  lemma StepShots(n: nat, s: State, g: Game, a: Actor, p: nat)
    requires Inv(n, s, g) && Enabled(n, s, a) && p in g.alive
    ensures var s' := Do(n, s, a);
            Advance(g, s, s').rounds + Bit(ShotNow(s', p)) == g.rounds + Bit(ShotNow(s, p)) + Bit(Sends(s, s', p))
  {
    hide Inv, DoParent, DoChild, ShotNow, Sends, InRound, Marks, Boots;
    InvPlayers(n, s, g);
    match a
    case Parent =>
      ParentShots(n, s, g, p);
    case Player(q, takeTerm, random) =>
      ChildKeeps(n, s, q, takeTerm, random);
      if Firing(s.parent) {
        Stages(n, s, g);
        FireShots(n, s, g, q, takeTerm, random, p);
      } else {
        QuietShots(n, s, g, q, takeTerm, random, p);
      }
  }

  lemma InvPlayers(n: nat, s: State, g: Game)
    requires Inv(n, s, g)
    ensures Shaped(n, s) && g.alive <= UpTo(n) && g.rounds + |g.alive| <= n
  {
    hide BootInv, MarkInv, FireInv;
  }

  // ----- Liveness: no wake-up is lost, no deadlock -----

  /** A child that has still to notify the parent can take a step: if it sleeps, a signal is pending. */
  lemma NotifierCanMove(n: nat, s: State, g: Game, q: nat) returns (a: Actor)
    requires InRound(n, s, g) && s.parent.Sleep? && q < n && q in g.alive && WillNotify(s.children[q], s.status[q])
    ensures a.Player? && Enabled(n, s, a)
  {
    hide InRound, Targeted, Candidates;
    FiresSelf(n, s, g, q);
    a := Player(q, s.children[q].term, 0);
  }

  lemma BootCanMove(n: nat, s: State, g: Game) returns (a: Actor)
    requires Boots(n, s, g) && s.parent.BootSleep? && !s.usr2
    ensures a.Player? && Enabled(n, s, a)
  {
    var q: nat :| q < n && (s.children[q].pc.BootReady? || s.children[q].pc.BootNotify?);
    a := Player(q, false, 0);
  }

  /** No wake-up is lost: while the parent sleeps with no SIGUSR2 pending, some child has a step to take. */
  lemma SleeperIsWoken(n: nat, s: State, g: Game) returns (a: Actor)
    requires Inv(n, s, g) && (s.parent.Sleep? || s.parent.BootSleep?) && !s.usr2
    ensures a.Player? && Enabled(n, s, a)
  {
    hide Inv, Boots, FireChildren, FireHits, OutChildren, Enabled;
    Stages(n, s, g);
    if s.parent.BootSleep? {
      a := BootCanMove(n, s, g);
    } else {
      var q: nat :| q in g.alive && q < |s.children| && q < |s.status| && WillNotify(s.children[q], s.status[q]);
      a := NotifierCanMove(n, s, g, q);
    }
  }

  lemma CanMove(n: nat, s: State, g: Game) returns (a: Actor)
    requires Inv(n, s, g) && !s.parent.Over?
    ensures Enabled(n, s, a)
  {
    hide Inv;
    InvPlayers(n, s, g);
    if (s.parent.Sleep? || s.parent.BootSleep?) && !s.usr2 {
      a := SleeperIsWoken(n, s, g);
    } else {
      a := Parent;
    }
  }

  /** The players never found dead. */
  ghost function Survivors(s: State): set<nat> {
    set p: nat | p in UpTo(|s.status|) && p < |s.status| && !s.status[p].deadThisRound
  }

  /** No deadlock: a run that cannot go on has ended the game, with at most one survivor. */
  lemma DeadlockFree(n: nat, run: seq<State>)
    requires Run(n, run) && Stuck(n, run[|run| - 1])
    ensures var s := run[|run| - 1];
            && s.parent.Over? && |Survivors(s)| <= 1 && s.rounds + |Survivors(s)| <= n
            && forall p {:trigger s.children[p]} :: 0 <= p < |s.children| ==> s.children[p].pc.Gone?
  {
    hide Init, Next, Inv, Enabled;
    var s := run[|run| - 1];
    var g := GameOf(n, run);
    RunInv(n, run);
    if !s.parent.Over? {
      var a := CanMove(n, s, g);
    } else {
      InvPlayers(n, s, g);
      OverInv(n, s, g);
    }
  }

  lemma OverInv(n: nat, s: State, g: Game)
    requires Inv(n, s, g) && s.parent.Over?
    ensures |g.alive| <= 1 && s.rounds == g.rounds
    ensures Survivors(s) == g.alive
    ensures forall p {:trigger s.children[p]} :: 0 <= p < |s.children| ==> s.children[p].pc.Gone?
  {
    hide BootInv, MarkInv, FireInv;
  }
}
