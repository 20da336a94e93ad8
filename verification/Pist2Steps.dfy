/** Every step of `Pist2` keeps the invariant. */
module Pist2Steps {
  import opened FiniteSets
  import opened AtomicRound
  import opened Pist2
  import opened Pist2Invariant

  // ----- What a change to one process leaves alone -----

  lemma VictimsKept(deed: Deed, procs: seq<Proc>, p: nat, me: Proc, alive: set<nat>)
    requires p < |procs|
    requires p in alive ==> (HasDone(deed, me.pc) <==> HasDone(deed, procs[p].pc))
    requires p in alive && HasDone(deed, me.pc) ==> me.target == procs[p].target
    ensures forall t :: IsVictim(deed, procs[p := me], alive, t) <==> IsVictim(deed, procs, alive, t)
  {
    hide HasDone;
    var procs' := procs[p := me];
    forall t
      ensures IsVictim(deed, procs', alive, t) <==> IsVictim(deed, procs, alive, t)
    {
      if q :| q in alive && q < |procs| && HasDone(deed, procs[q].pc) && procs[q].target == t {
        assert HasDone(deed, procs'[q].pc) && procs'[q].target == t;
      }
      if q :| q in alive && q < |procs'| && HasDone(deed, procs'[q].pc) && procs'[q].target == t {
        assert HasDone(deed, procs[q].pc) && procs[q].target == t;
      }
    }
  }

  lemma VictimAdded(deed: Deed, procs: seq<Proc>, p: nat, me: Proc, alive: set<nat>)
    requires p < |procs| && p in alive
    requires !HasDone(deed, procs[p].pc) && HasDone(deed, me.pc)
    ensures forall t: nat :: IsVictim(deed, procs[p := me], alive, t) <==> IsVictim(deed, procs, alive, t) || t == me.target
  {
    hide HasDone;
    var procs' := procs[p := me];
    forall t: nat
      ensures IsVictim(deed, procs', alive, t) <==> IsVictim(deed, procs, alive, t) || t == me.target
    {
      if q :| q in alive && q < |procs| && HasDone(deed, procs[q].pc) && procs[q].target == t {
        assert procs'[q] == procs[q];
      }
      if q :| q in alive && q < |procs'| && HasDone(deed, procs'[q].pc) && procs'[q].target == t {
        assert q == p || procs[q] == procs'[q];
      }
      assert procs'[p] == me;
    }
  }

  lemma MarksKept(procs: seq<Proc>, p: nat, me: Proc, alive: set<nat>)
    requires p < |procs|
    requires p in alive ==>
               (Marked(me.pc) <==> Marked(procs[p].pc)) && (Marked(me.pc) ==> me.target == procs[p].target)
    ensures forall t :: IsMarked(procs[p := me], alive, t) <==> IsMarked(procs, alive, t)
  {
    hide IsVictim;
    VictimsKept(Mark, procs, p, me, alive);
  }

  lemma SentKept(procs: seq<Proc>, p: nat, me: Proc, alive: set<nat>)
    requires p < |procs|
    requires p in alive ==>
               (Sent(me.pc) <==> Sent(procs[p].pc)) && (Sent(me.pc) ==> me.target == procs[p].target)
    ensures forall t :: IsSent(procs[p := me], alive, t) <==> IsSent(procs, alive, t)
  {
    hide IsVictim;
    VictimsKept(Message, procs, p, me, alive);
  }

  lemma HitsKept(procs: seq<Proc>, p: nat, me: Proc, alive: set<nat>)
    requires p < |procs|
    requires p in alive ==> me.target == procs[p].target
    ensures forall t :: IsHit(procs[p := me], alive, t) <==> IsHit(procs, alive, t)
  {
    hide IsVictim;
    VictimsKept(Aim, procs, p, me, alive);
  }

  lemma WriteMarks(procs: seq<Proc>, p: nat, me: Proc, alive: set<nat>)
    requires p < |procs| && p in alive
    requires !Marked(procs[p].pc) && Marked(me.pc)
    ensures forall t: nat :: IsMarked(procs[p := me], alive, t) <==> IsMarked(procs, alive, t) || t == me.target
  {
    VictimAdded(Mark, procs, p, me, alive);
    forall t: nat
      ensures IsMarked(procs[p := me], alive, t) <==> IsMarked(procs, alive, t) || t == me.target
    {
      assert IsVictim(Mark, procs[p := me], alive, t) <==> IsVictim(Mark, procs, alive, t) || t == me.target;
    }
  }

  lemma SendMarks(procs: seq<Proc>, p: nat, me: Proc, alive: set<nat>)
    requires p < |procs| && p in alive
    requires !Sent(procs[p].pc) && Sent(me.pc)
    ensures forall t: nat :: IsSent(procs[p := me], alive, t) <==> IsSent(procs, alive, t) || t == me.target
  {
    VictimAdded(Message, procs, p, me, alive);
    forall t: nat
      ensures IsSent(procs[p := me], alive, t) <==> IsSent(procs, alive, t) || t == me.target
    {
      assert IsVictim(Message, procs[p := me], alive, t) <==> IsVictim(Message, procs, alive, t) || t == me.target;
    }
  }

  lemma ToShootAfter(procs: seq<Proc>, p: nat, me: Proc, alive: set<nat>)
    requires p < |procs|
    ensures p !in alive || (Opening(me.pc) <==> Opening(procs[p].pc)) ==>
              ToShoot(procs[p := me], alive) == ToShoot(procs, alive)
    ensures p in alive && Opening(procs[p].pc) && !Opening(me.pc) ==>
              |ToShoot(procs[p := me], alive)| == |ToShoot(procs, alive)| - 1
  {
    if p in alive && Opening(procs[p].pc) && !Opening(me.pc) {
      assert ToShoot(procs[p := me], alive) == ToShoot(procs, alive) - {p};
    }
  }

  // ----- Opening: before S1 is zero -----

  ghost predicate Opened(build: Build, n: nat, s: State, h: Phase) {
    && (h.stage.Gathering? || h.stage.Shooting?)
    && Shape(n, s, h) && PlayInv(n, s, h) && OpenInv(build, n, s, h)
  }

  lemma OpenProcsKept(build: Build, n: nat, procs: seq<Proc>, h: Phase, p: nat, me: Proc)
    requires |procs| == n && OpenProcs(build, n, procs, h)
    requires p < n && (p in h.game.alive ==> OpenProc(n, h, p, me)) && !me.pc.Send?
    ensures OpenProcs(build, n, procs[p := me], h)
  {
    hide OpenProc;
  }

  lemma OpenCountsKept(n: nat, s: State, h: Phase, p: nat, me: Proc)
    requires |s.procs| == n && OpenCounts(n, s, h)
    requires p < n && (p in h.game.alive && h.stage.Shooting? ==> (Opening(me.pc) <==> Opening(s.procs[p].pc)))
    requires Boss(h.game.alive, p) ==>
               (Counting(me.pc) <==> Counting(s.procs[p].pc))
    ensures OpenCounts(n, s.(procs := s.procs[p := me]), h)
  {
    hide ToShoot, RoundCounted;
    RoundCountedKept(n, s.procs, s.rounds, h, p, me);
    ToShootAfter(s.procs, p, me, h.game.alive);
  }

  lemma RoundCountedKept(n: nat, procs: seq<Proc>, rounds: nat, h: Phase, p: nat, me: Proc)
    requires |procs| == n && RoundCounted(n, procs, rounds, h) && p < n
    requires Boss(h.game.alive, p) ==>
               (Counting(me.pc) <==> Counting(procs[p].pc))
    ensures RoundCounted(n, procs[p := me], rounds, h)
  {
    var procs' := procs[p := me];
    forall q: nat {:trigger procs'[q]} | q < n && Boss(h.game.alive, q)
      ensures rounds == h.game.rounds + (if h.stage.Shooting? || Counting(procs'[q].pc) then 1 else 0)
    {
      assert Counting(procs'[q].pc) <==> Counting(procs[q].pc);
    }
    assert RoundCounted(n, procs', rounds, h);
  }

  lemma PlayKept(n: nat, s: State, h: Phase, p: nat, me: Proc)
    requires Shape(n, s, h) && PlayInv(n, s, h)
    requires p < n && !s.procs[p].pc.Gone? && (p !in h.game.alive ==> Leaving(me.pc))
    ensures PlayInv(n, s.(procs := s.procs[p := me]), h)
  {
  }

  /** A step of `p` that touches only its own local variables. */
  lemma OpenQuiet(build: Build, n: nat, s: State, h: Phase, p: nat, me: Proc)
    requires Opened(build, n, s, h)
    requires p < n && p in h.game.alive && !s.procs[p].pc.Gone?
    requires OpenProc(n, h, p, me)
    requires h.stage.Shooting? ==> (Opening(me.pc) <==> Opening(s.procs[p].pc))
    requires !Marked(me.pc) && !Marked(s.procs[p].pc)
    requires Boss(h.game.alive, p) ==>
               (Counting(me.pc) <==> Counting(s.procs[p].pc))
    ensures Opened(build, n, s.(procs := s.procs[p := me]), h)
  {
    hide OpenProc, OpenProcs, OpenCounts, PlayInv, IsMarked, IsSent, Boss, Opening;
    MarksKept(s.procs, p, me, h.game.alive);
    SentKept(s.procs, p, me, h.game.alive);
    PlayKept(n, s, h, p, me);
    OpenProcsKept(build, n, s.procs, h, p, me);
    OpenCountsKept(n, s, h, p, me);
  }

  /** Before S1 is zero, DEAD means dead before this round, and a living player's word is READY. */
  ghost predicate Bits(n: nat, s: State, alive: set<nat>)
    requires |s.status| == n
  {
    && (forall q {:trigger s.status[q]} :: 0 <= q < n ==> (s.status[q].dead <==> q !in alive))
    && (forall q {:trigger s.status[q]} :: 0 <= q < n && q in alive ==> s.status[q].ready)
  }

  lemma OpenBits(build: Build, n: nat, s: State, h: Phase)
    requires Opened(build, n, s, h)
    ensures Bits(n, s, h.game.alive)
    ensures s.processCount == n && s.aliveCount == |h.game.alive| && s.s2 == 0
  {
    hide OpenProcs, OpenQueue, IsMarked;
  }

  lemma OpenSelf(build: Build, n: nat, s: State, h: Phase, p: nat)
    requires Opened(build, n, s, h) && p < n && p in h.game.alive
    ensures OpenProc(n, h, p, s.procs[p])
    ensures build.StatusBits? ==> !s.procs[p].pc.Send?
  {
    hide OpenProc, OpenCounts, OpenStatus, OpenQueue;
  }

  predicate Idle(pc: Pc) {
    pc.BootZero? || pc.Elect? || pc.ZeroReceived? || pc.AskDead?
  }

  lemma IdleStep(build: Build, n: nat, s: State, h: Phase, p: nat, pc: Pc)
    requires Opened(build, n, s, h) && p < n && p in h.game.alive
    requires Idle(s.procs[p].pc) && (Idle(pc) || pc == Scan(n))
    ensures Opened(build, n, Go(s, p, pc), h)
  {
    OpenSelf(build, n, s, h, p);
    hide Opened;
    OpenQuiet(build, n, s, h, p, s.procs[p].(pc := pc));
  }

  /** Who the scan elects: the player at hand, when it is alive and those above are not. */
  lemma ScanBound(n: nat, h: Phase, p: nat, me: Proc)
    requires p in h.game.alive && h.game.alive <= UpTo(n) && OpenProc(n, h, p, me) && me.pc.Scan?
    ensures p < me.pc.i <= n
  {
    hide Boss;
  }

  lemma ScanDown(n: nat, h: Phase, p: nat, me: Proc)
    requires p in h.game.alive && OpenProc(n, h, p, me) && me.pc.Scan? && me.pc.i > 0 && me.pc.i - 1 !in h.game.alive
    ensures OpenProc(n, h, p, me.(pc := Scan(me.pc.i - 1)))
  {
    hide Boss;
  }

  lemma ScanBoss(n: nat, h: Phase, p: nat, me: Proc)
    requires p in h.game.alive && h.game.alive <= UpTo(n) && OpenProc(n, h, p, me) && me.pc.Scan?
    requires me.pc.i > 0 && me.pc.i - 1 in h.game.alive
    ensures Boss(h.game.alive, me.pc.i - 1) && (Boss(h.game.alive, p) <==> p == me.pc.i - 1)
    ensures p != me.pc.i - 1 ==> |h.game.alive| >= 2
  {
    SubsetSize({p, me.pc.i - 1}, h.game.alive);
  }

  lemma ScanFound(n: nat, h: Phase, p: nat, me: Proc)
    requires p in h.game.alive && h.game.alive <= UpTo(n) && OpenProc(n, h, p, me) && me.pc.Scan?
    requires me.pc.i > 0 && me.pc.i - 1 in h.game.alive
    ensures var mine := me.pc.i - 1 == p;
            OpenProc(n, h, p, me.(coordinator := mine, pc := if mine then AskLast else Choose))
  {
    hide Boss;
    ScanBoss(n, h, p, me);
  }

  /** Before S1 is zero the bit tells the living from the dead. */
  lemma DeadBit(n: nat, s: State, alive: set<nat>, q: nat)
    requires |s.status| == n && Bits(n, s, alive) && q < n
    ensures s.status[q].dead <==> q !in alive
  {
  }

  lemma ScanStep(build: Build, n: nat, s: State, h: Phase, p: nat, i: nat)
    requires Opened(build, n, s, h) && p < n && p in h.game.alive
    requires s.procs[p].pc == Scan(i)
    ensures Opened(build, n, DoScan(s, p, i), h)
  {
    hide Opened, OpenProc, Bits, Boss, DoScan;
    OpenBits(build, n, s, h);
    OpenSelf(build, n, s, h, p);
    OpenedPlay(build, n, s, h);
    var me := s.procs[p];
    ScanBound(n, h, p, me);
    DeadBit(n, s, h.game.alive, i - 1);
    ScanIs(s, p, i);
    if i - 1 !in h.game.alive {
      ScanDown(n, h, p, me);
    } else {
      ScanFound(n, h, p, me);
    }
    OpenQuiet(build, n, s, h, p, DoScan(s, p, i).procs[p]);
  }

  lemma ScanIs(s: State, p: nat, i: nat)
    requires p < |s.procs| == |s.status| && 0 < i <= |s.status|
    ensures var me, mine := s.procs[p], i - 1 == p;
            var me' := if s.status[i - 1].dead then me.(pc := Scan(i - 1))
                       else me.(coordinator := mine, pc := if mine then AskLast else Choose);
            DoScan(s, p, i) == s.(procs := s.procs[p := me'])
  {
  }

  lemma CacheAliveStep(build: Build, n: nat, s: State, h: Phase, p: nat)
    requires Opened(build, n, s, h) && p < n && p in h.game.alive
    requires s.procs[p].pc.CacheAlive?
    ensures Opened(build, n, s.(procs := s.procs[p := s.procs[p].(cached := s.aliveCount, pc := IncShot)]), h)
  {
    OpenBits(build, n, s, h);
    OpenSelf(build, n, s, h, p);
    hide Opened, Bits;
    OpenQuiet(build, n, s, h, p, s.procs[p].(cached := s.aliveCount, pc := IncShot));
  }

  lemma ChooseStep(build: Build, n: nat, s: State, h: Phase, p: nat, victim: nat)
    requires Opened(build, n, s, h) && p < n && p in h.game.alive
    requires s.procs[p].pc.Choose? && LivingVictim(s, p, victim)
    ensures Opened(build, n, s.(procs := s.procs[p := s.procs[p].(target := victim, pc := ReadTarget)]), h)
  {
    hide Opened, OpenProc, Bits, Boss;
    OpenBits(build, n, s, h);
    OpenSelf(build, n, s, h, p);
    OpenedPlay(build, n, s, h);
    DeadBit(n, s, h.game.alive, victim);
    ChooseProc(n, h, p, s.procs[p], victim);
    OpenQuiet(build, n, s, h, p, s.procs[p].(target := victim, pc := ReadTarget));
  }

  lemma ChooseProc(n: nat, h: Phase, p: nat, me: Proc, victim: nat)
    requires OpenProc(n, h, p, me) && me.pc.Choose? && Victim(h.game.alive, p, victim)
    ensures OpenProc(n, h, p, me.(target := victim, pc := ReadTarget))
  {
    hide Boss;
  }

  lemma ReadTargetStep(build: Build, n: nat, s: State, h: Phase, p: nat)
    requires Opened(build, n, s, h) && p < n && p in h.game.alive
    requires s.procs[p].pc.ReadTarget?
    ensures Opened(build, n, DoReadTarget(s, p), h)
  {
    hide Opened, OpenProc, Bits, Boss;
    OpenBits(build, n, s, h);
    OpenSelf(build, n, s, h, p);
    OpenedPlay(build, n, s, h);
    ReadTargetProc(n, s, h, p);
    OpenQuiet(build, n, s, h, p, s.procs[p].(seen := s.status[s.procs[p].target], pc := WriteTarget));
  }

  lemma ReadTargetProc(n: nat, s: State, h: Phase, p: nat)
    requires |s.procs| == |s.status| == n && p < n && OpenProc(n, h, p, s.procs[p]) && s.procs[p].pc.ReadTarget?
    requires Bits(n, s, h.game.alive) && h.game.alive <= UpTo(n)
    ensures var me := s.procs[p];
            me.target < n && OpenProc(n, h, p, me.(seen := s.status[me.target], pc := WriteTarget))
  {
    hide Boss;
  }

  lemma AskLastStep(build: Build, n: nat, s: State, h: Phase, p: nat)
    requires Opened(build, n, s, h) && p < n && p in h.game.alive
    requires s.procs[p].pc.AskLast?
    ensures Opened(build, n, Go(s, p, if s.aliveCount == 1 then Gone else CountRound), h)
  {
    OpenBits(build, n, s, h);
    OpenSelf(build, n, s, h, p);
    var alive := h.game.alive;
    var pc := if s.aliveCount == 1 then Gone else CountRound;
    hide Opened, Bits;
    SubsetSize({p}, alive);
    OpenQuiet(build, n, s, h, p, s.procs[p].(pc := pc));
  }

  lemma CountRoundStep(build: Build, n: nat, s: State, h: Phase, p: nat)
    requires Opened(build, n, s, h) && p < n && p in h.game.alive
    requires s.procs[p].pc.CountRound?
    ensures Opened(build, n, Go(s, p, CacheAlive).(rounds := s.rounds + 1), h)
  {
    hide OpenProc, OpenProcs, OpenCounts, PlayInv, IsMarked, IsSent;
    OpenSelf(build, n, s, h, p);
    var me := s.procs[p].(pc := CacheAlive);
    PlayKept(n, s, h, p, me);
    PlayRounds(n, s.(procs := s.procs[p := me]), h, s.rounds + 1);
    MarksKept(s.procs, p, me, h.game.alive);
    SentKept(s.procs, p, me, h.game.alive);
    CountRoundProc(n, h, p, s.procs[p]);
    OpenProcsKept(build, n, s.procs, h, p, me);
    CountRoundCounts(n, s, h, p);
  }

  lemma PlayRounds(n: nat, s: State, h: Phase, rounds: nat)
    requires Shape(n, s, h) && PlayInv(n, s, h)
    ensures PlayInv(n, s.(rounds := rounds), h)
  {
  }

  lemma CountRoundProc(n: nat, h: Phase, p: nat, me: Proc)
    requires OpenProc(n, h, p, me) && me.pc.CountRound? && p in h.game.alive
    ensures OpenProc(n, h, p, me.(pc := CacheAlive)) && h.stage.Gathering? && Boss(h.game.alive, p)
  {
  }

  lemma CountRoundCounts(n: nat, s: State, h: Phase, p: nat)
    requires |s.procs| == n && OpenCounts(n, s, h) && p < n && p in h.game.alive
    requires h.stage.Gathering? && Boss(h.game.alive, p) && s.procs[p].pc.CountRound?
    ensures OpenCounts(n, Go(s, p, CacheAlive).(rounds := s.rounds + 1), h)
  {
    hide ToShoot;
    assert s.procs[p] == s.procs[p];
  }

  lemma IncShotProc(n: nat, h: Phase, p: nat, boss: Proc, q: nat, me: Proc)
    requires h.stage.Gathering? && OpenProc(n, h, p, boss) && boss.pc.IncShot? && OpenProc(n, h, q, me)
    requires p in h.game.alive && q in h.game.alive
    ensures Boss(h.game.alive, p) && boss.cached == |h.game.alive| >= 2
    ensures q != p ==> OpenProc(n, h.(stage := Shooting), q, me) && Opening(me.pc)
    ensures OpenProc(n, h.(stage := Shooting), p, boss.(pc := Choose)) && Opening(Choose)
  {
    SubsetSize({p, q}, h.game.alive);
  }

  lemma IncShotProcs(build: Build, n: nat, s: State, h: Phase, p: nat)
    requires Opened(build, n, s, h) && h.stage.Gathering? && p < n && p in h.game.alive && s.procs[p].pc.IncShot?
    ensures var procs' := s.procs[p := s.procs[p].(pc := Choose)];
            && OpenProcs(build, n, procs', h.(stage := Shooting))
            && ToShoot(procs', h.game.alive) == h.game.alive
    ensures s.procs[p].cached == |h.game.alive| >= 2 && Boss(h.game.alive, p)
  {
    hide OpenProc, Opening, Opened, Boss;
    OpenedPlay(build, n, s, h);
    OpenedProcs(build, n, s, h);
    OpenSelf(build, n, s, h, p);
    var procs' := s.procs[p := s.procs[p].(pc := Choose)];
    IncShotProc(n, h, p, s.procs[p], p, s.procs[p]);
    forall q {:trigger procs'[q]} | 0 <= q < n && q in h.game.alive
      ensures OpenProc(n, h.(stage := Shooting), q, procs'[q]) && Opening(procs'[q].pc)
      ensures build.StatusBits? ==> !procs'[q].pc.Send?
    {
      OpenSelf(build, n, s, h, q);
      IncShotProc(n, h, p, s.procs[p], q, s.procs[q]);
    }
    assert forall q :: q in h.game.alive ==> procs'[q] == procs'[q];
    assert ToShoot(procs', h.game.alive) == h.game.alive;
  }

  lemma OpenedPlay(build: Build, n: nat, s: State, h: Phase)
    requires Opened(build, n, s, h)
    ensures |s.procs| == |s.status| == n && h.game.alive <= UpTo(n)
  {
    hide OpenInv;
  }

  lemma OpenedProcs(build: Build, n: nat, s: State, h: Phase)
    requires Opened(build, n, s, h)
    ensures |s.procs| == n && OpenProcs(build, n, s.procs, h)
  {
    hide OpenProcs, OpenCounts, OpenStatus, OpenQueue;
  }

  lemma OpenGathering(build: Build, n: nat, s: State, h: Phase, p: nat)
    requires Opened(build, n, s, h) && p < n && p in h.game.alive && s.procs[p].pc.IncShot?
    ensures h.stage.Gathering?
  {
    hide OpenCounts, OpenStatus, OpenQueue;
    OpenSelf(build, n, s, h, p);
  }

  /** The coordinator raises S1 to the number of living players, none of whom has lowered it yet. */
  lemma IncShotStep(build: Build, n: nat, s: State, h: Phase, p: nat)
    requires Opened(build, n, s, h) && p < n && p in h.game.alive
    requires s.procs[p].pc.IncShot?
    ensures h.stage.Gathering?
    ensures Opened(build, n, Go(s, p, Choose).(s1 := s.s1 + s.procs[p].cached), h.(stage := Shooting))
    ensures s.s1 + s.procs[p].cached > 0
  {
    hide OpenProc, OpenProcs, IsMarked, IsSent, ToShoot, Opening;
    var me := s.procs[p].(pc := Choose);
    OpenGathering(build, n, s, h, p);
    IncShotProcs(build, n, s, h, p);
    MarksKept(s.procs, p, me, h.game.alive);
    SentKept(s.procs, p, me, h.game.alive);
    PlayKept(n, s, h, p, me);
  }

  /** Marking and sending change nothing else that matters to the shooter. */
  lemma AimMoves(n: nat, h: Phase, p: nat, me: Proc, pc: Pc)
    requires OpenProc(n, h, p, me) && (me.pc.WriteTarget? || me.pc.Send?) && (pc.Send? || pc.DecShot?)
    ensures OpenProc(n, h, p, me.(pc := pc)) && me.target in h.game.alive
  {
  }

  lemma OpenCountsAim(n: nat, s: State, s': State, h: Phase, p: nat)
    requires |s.procs| == n && OpenCounts(n, s, h) && p < n
    requires |s'.procs| == n && s' == s.(procs := s.procs[p := s'.procs[p]], status := s'.status, queue := s'.queue)
    requires Aiming(s.procs[p].pc) && Opening(s.procs[p].pc) && Aiming(s'.procs[p].pc) && Opening(s'.procs[p].pc)
    ensures OpenCounts(n, s', h)
  {
    OpenCountsKept(n, s, h, p, s'.procs[p]);
  }

  lemma WriteTargetIs(build: Build, n: nat, s: State, h: Phase, p: nat)
    requires Shape(n, s, h) && p < n && OpenProc(n, h, p, s.procs[p]) && s.procs[p].pc.WriteTarget?
    ensures var me := s.procs[p];
            && Victim(h.game.alive, p, me.target) && me.target < n
            && DoWriteTarget(build, s, p) ==
               Go(s, p, if build.MessageQueue? then Send else DecShot)
               .(status := s.status[me.target := Status(true, true, false)])
  {
  }

  lemma WriteTargetStatus(n: nat, s: State, s': State, alive: set<nat>, p: nat, me: Proc)
    requires |s.status| == |s.procs| == n && OpenStatus(n, s, alive) && p < n && p in alive && me.target < n
    requires !Marked(s.procs[p].pc) && Marked(me.pc) && s'.procs == s.procs[p := me]
    requires s'.status == s.status[me.target := Status(true, true, false)]
    ensures OpenStatus(n, s', alive)
  {
    hide IsMarked;
    WriteMarks(s.procs, p, me, alive);
    forall q: nat {:trigger s'.status[q]} | q < n && q in alive
      ensures s'.status[q] == Status(true, IsMarked(s'.procs, alive, q), false)
    {
      assert IsMarked(s'.procs, alive, q) <==> IsMarked(s.procs, alive, q) || q == me.target;
    }
  }

  lemma PlayStatus(n: nat, s: State, h: Phase, t: nat, word: Status)
    requires Shape(n, s, h) && PlayInv(n, s, h) && t < n && t in h.game.alive
    ensures PlayInv(n, s.(status := s.status[t := word]), h)
  {
  }

  lemma OpenProcsAim(build: Build, n: nat, procs: seq<Proc>, h: Phase, p: nat, me: Proc)
    requires |procs| == n && OpenProcs(build, n, procs, h)
    requires p < n && p in h.game.alive && OpenProc(n, h, p, me) && (me.pc.Send? ==> build.MessageQueue?)
    ensures OpenProcs(build, n, procs[p := me], h)
  {
    hide OpenProc;
  }

  /** Two shooters may read the victim's word before either writes it; both write the same bits. */
  lemma WriteTargetStep(build: Build, n: nat, s: State, h: Phase, p: nat)
    requires Opened(build, n, s, h) && p < n && p in h.game.alive
    requires s.procs[p].pc.WriteTarget?
    ensures Opened(build, n, DoWriteTarget(build, s, p), h)
  {
    hide OpenProc, OpenProcs, OpenCounts, OpenStatus, PlayInv, IsMarked, IsSent, DoWriteTarget;
    var alive, me, s' := h.game.alive, s.procs[p], DoWriteTarget(build, s, p);
    OpenSelf(build, n, s, h, p);
    WriteTargetIs(build, n, s, h, p);
    var next := me.(pc := if build.MessageQueue? then Send else DecShot);
    assert s'.procs == s.procs[p := next];
    AimMoves(n, h, p, me, next.pc);
    PlayStatus(n, s, h, me.target, Status(true, true, false));
    PlayKept(n, s.(status := s'.status), h, p, next);
    OpenCountsAim(n, s, s', h, p);
    OpenProcsAim(build, n, s.procs, h, p, next);
    WriteTargetStatus(n, s, s', alive, p, next);
    if build.MessageQueue? {
      SentKept(s.procs, p, next, alive);
    }
  }

  lemma SendStep(build: Build, n: nat, s: State, h: Phase, p: nat)
    requires Opened(build, n, s, h) && p < n && p in h.game.alive
    requires s.procs[p].pc.Send?
    ensures Opened(build, n, Go(s, p, DecShot).(queue := s.queue + multiset{s.procs[p].target}), h)
  {
    var alive := h.game.alive;
    var me := s.procs[p].(pc := DecShot);
    var s' := Go(s, p, DecShot).(queue := s.queue + multiset{s.procs[p].target});
    OpenSelf(build, n, s, h, p);
    AimMoves(n, h, p, s.procs[p], me.pc);
    hide OpenProc;
    PlayKept(n, s, h, p, me);
    assert PlayInv(n, s', h);
    hide PlayInv;
    OpenCountsAim(n, s, s', h, p);
    hide OpenCounts;
    OpenProcsAim(build, n, s.procs, h, p, me);
    hide OpenProcs;
    MarksKept(s.procs, p, me, alive);
    hide IsMarked;
    assert OpenStatus(n, s', alive);
    hide OpenStatus;
    SendMarks(s.procs, p, me, alive);
    hide IsSent;
    assert OpenQueue(build, s', alive);
  }

  lemma {:induction false} BossExists(alive: set<nat>) returns (p: nat)
    requires alive != {}
    ensures Boss(alive, p)
    decreases |alive|
  {
    var any: nat :| any in alive;
    var rest := alive - {any};
    p := any;
    if rest != {} {
      var q := BossExists(rest);
      p := if q > any then q else any;
      forall x | x in alive
        ensures x <= p
      {
        assert x == any || x in rest;
      }
    }
  }

  lemma AllZeroShot(build: Build, n: nat, procs: seq<Proc>, h: Phase, q: nat)
    requires |procs| == n && OpenProcs(build, n, procs, h) && h.stage.Shooting?
    requires ToShoot(procs, h.game.alive) == {}
    requires q < n && q in h.game.alive
    ensures procs[q].pc.ZeroShot? && |h.game.alive| >= 2
    ensures forall hit :: CloseProc(h.(stage := Shot), q, procs[q], hit)
  {
    assert OpenProc(n, h, q, procs[q]);
    assert q !in ToShoot(procs, h.game.alive);
  }

  lemma AllShotProcs(build: Build, n: nat, procs: seq<Proc>, h: Phase)
    requires |procs| == n && OpenProcs(build, n, procs, h) && h.stage.Shooting?
    requires h.game.alive != {} && h.game.alive <= UpTo(n)
    requires ToShoot(procs, h.game.alive) == {}
    ensures |h.game.alive| >= 2
    ensures forall q {:trigger procs[q]} :: 0 <= q < n && q in h.game.alive ==> procs[q].pc.ZeroShot?
    ensures CloseProcs(n, procs, h.(stage := Shot))
  {
    hide OpenProcs, ToShoot, CloseProc, IsHit;
    var any: nat :| any in h.game.alive;
    AllZeroShot(build, n, procs, h, any);
    forall q {:trigger procs[q]} | 0 <= q < n && q in h.game.alive
      ensures procs[q].pc.ZeroShot? && CloseProc(h.(stage := Shot), q, procs[q], IsHit(procs, h.game.alive, q))
    {
      AllZeroShot(build, n, procs, h, q);
    }
  }

  lemma AllShotWords(build: Build, n: nat, s: State, alive: set<nat>)
    requires |s.procs| == |s.status| == n && alive <= UpTo(n)
    requires forall q {:trigger s.procs[q]} :: 0 <= q < n && q in alive ==> s.procs[q].pc.ZeroShot?
    requires OpenStatus(n, s, alive) && OpenQueue(build, s, alive)
    ensures CloseStatus(n, s, alive) && CloseQueue(build, n, s, alive)
    ensures Counted(s.procs, alive) == alive
  {
    hide CloseStatus, CloseQueue, OpenStatus, OpenQueue;
    AllShotStatus(n, s, alive);
    AllShotQueue(build, n, s, alive);
  }

  lemma AllShotStatus(n: nat, s: State, alive: set<nat>)
    requires |s.procs| == |s.status| == n
    requires forall q {:trigger s.procs[q]} :: 0 <= q < n && q in alive ==> s.procs[q].pc.ZeroShot?
    requires OpenStatus(n, s, alive)
    ensures CloseStatus(n, s, alive)
  {
    hide IsHit, IsMarked;
    AllMarked(s.procs, alive);
  }

  lemma AllShotQueue(build: Build, n: nat, s: State, alive: set<nat>)
    requires |s.procs| == n && alive <= UpTo(n)
    requires forall q {:trigger s.procs[q]} :: 0 <= q < n && q in alive ==> s.procs[q].pc.ZeroShot?
    requires OpenQueue(build, s, alive)
    ensures CloseQueue(build, n, s, alive)
  {
    hide IsHit, IsSent;
    AllMarked(s.procs, alive);
  }

  /** When S1 comes to zero, everybody alive has marked a victim and sent its message. */
  lemma AllShot(build: Build, n: nat, s: State, h: Phase)
    requires Shape(n, s, h) && PlayInv(n, s, h) && h.stage.Shooting? && h.game.alive != {}
    requires OpenProcs(build, n, s.procs, h) && OpenStatus(n, s, h.game.alive) && OpenQueue(build, s, h.game.alive)
    requires ToShoot(s.procs, h.game.alive) == {}
    requires s.s1 == 0 && s.s2 == 0 && s.aliveCount == |h.game.alive| && s.rounds == h.game.rounds + 1
    ensures Closed(build, n, s, h.(stage := Shot))
  {
    hide OpenProcs, OpenStatus, OpenQueue, CloseProcs, CloseStatus, CloseQueue, ToShoot, Counted;
    AllShotProcs(build, n, s.procs, h);
    AllShotWords(build, n, s, h.game.alive);
  }

  lemma AllMarked(procs: seq<Proc>, alive: set<nat>)
    requires forall q {:trigger procs[q]} :: 0 <= q < |procs| && q in alive ==> procs[q].pc.ZeroShot?
    ensures forall t {:trigger IsMarked(procs, alive, t)} {:trigger IsHit(procs, alive, t)} ::
              IsMarked(procs, alive, t) <==> IsHit(procs, alive, t)
    ensures forall t {:trigger IsSent(procs, alive, t)} {:trigger IsHit(procs, alive, t)} ::
              IsSent(procs, alive, t) <==> IsHit(procs, alive, t)
  {
  }

  lemma OpenWordsKept(build: Build, n: nat, s: State, alive: set<nat>, p: nat, me: Proc)
    requires |s.status| == |s.procs| == n && p < n
    requires OpenStatus(n, s, alive) && OpenQueue(build, s, alive)
    requires p in alive ==> (Marked(me.pc) <==> Marked(s.procs[p].pc)) && (Sent(me.pc) <==> Sent(s.procs[p].pc))
    requires p in alive && (Marked(me.pc) || Sent(me.pc)) ==> me.target == s.procs[p].target
    ensures OpenStatus(n, s.(procs := s.procs[p := me]), alive) && OpenQueue(build, s.(procs := s.procs[p := me]), alive)
  {
    hide IsMarked, IsSent, Marked, Sent;
    MarksKept(s.procs, p, me, alive);
    SentKept(s.procs, p, me, alive);
  }

  lemma OpenRounds(n: nat, s: State, h: Phase)
    requires |s.procs| == n && OpenCounts(n, s, h) && h.stage.Shooting? && h.game.alive <= UpTo(n)
    ensures s.rounds == h.game.rounds + 1
  {
    hide ToShoot;
    var boss := BossExists(h.game.alive);
    assert Boss(h.game.alive, boss) && s.procs[boss] == s.procs[boss];
  }

  lemma DecShotStep(build: Build, n: nat, s: State, h: Phase, p: nat)
    requires Opened(build, n, s, h) && p < n && p in h.game.alive
    requires s.procs[p].pc.DecShot? && s.s1 >= 1
    ensures h.stage.Shooting?
    ensures var s' := Go(s, p, ZeroShot).(s1 := s.s1 - 1);
            if s'.s1 > 0 then Opened(build, n, s', h) else Closed(build, n, s', h.(stage := Shot))
  {
    hide PlayInv, OpenProcs, OpenStatus, OpenQueue, ToShoot;
    var alive := h.game.alive;
    var me := s.procs[p].(pc := ZeroShot);
    var s' := Go(s, p, ZeroShot).(s1 := s.s1 - 1);
    OpenSelf(build, n, s, h, p);
    PlayFrame(n, s, s', h, h, p);
    OpenProcsKept(build, n, s.procs, h, p, me);
    OpenWordsKept(build, n, s, alive, p, me);
    OpenWordsSame(build, n, s.(procs := s.procs[p := me]), s', alive);
    ToShootAfter(s.procs, p, me, alive);
    OpenRounds(n, s, h);
    if s'.s1 == 0 {
      AllShot(build, n, s', h);
    }
  }

  lemma OpenWordsSame(build: Build, n: nat, s: State, s': State, alive: set<nat>)
    requires |s.status| == n && s'.status == s.status && s'.queue == s.queue && s'.procs == s.procs
    requires OpenStatus(n, s, alive) && OpenQueue(build, s, alive)
    ensures OpenStatus(n, s', alive) && OpenQueue(build, s', alive)
  {
    hide IsMarked, IsSent;
  }

  // ----- Closing: between the two barriers -----

  ghost predicate Closed(build: Build, n: nat, s: State, h: Phase) {
    && (h.stage.Shot? || h.stage.Receiving?)
    && Shape(n, s, h) && PlayInv(n, s, h) && CloseInv(build, n, s, h)
  }

  lemma CloseSelf(build: Build, n: nat, s: State, h: Phase, p: nat)
    requires Closed(build, n, s, h) && p < n && p in h.game.alive
    ensures var hit := IsHit(s.procs, h.game.alive, p);
            && CloseProc(h, p, s.procs[p], hit)
            && s.status[p] == Status(true, hit, hit && (s.procs[p].pc.DecAlive? || Settled(s.procs[p].pc)))
            && (s.queue[p] > 0 ==> build.MessageQueue? && hit && (Unexamined(s.procs[p].pc) || s.procs[p].pc.Drain?))
            && (build.MessageQueue? && hit && Unexamined(s.procs[p].pc) ==> s.queue[p] > 0)
  {
    hide CloseProc, CloseCounts, IsHit, PlayInv;
  }

  lemma ToReceiveAfter(procs: seq<Proc>, p: nat, me: Proc, alive: set<nat>)
    requires p < |procs|
    ensures p !in alive || (Closing(me.pc) <==> Closing(procs[p].pc)) ==>
              ToReceive(procs[p := me], alive) == ToReceive(procs, alive)
    ensures p in alive && Closing(procs[p].pc) && !Closing(me.pc) ==>
              |ToReceive(procs[p := me], alive)| == |ToReceive(procs, alive)| - 1
  {
    if p in alive && Closing(procs[p].pc) && !Closing(me.pc) {
      assert ToReceive(procs[p := me], alive) == ToReceive(procs, alive) - {p};
    }
  }

  /** `alive_count` loses exactly the players that were hit and have come past its decrement. */
  lemma CountedAfter(procs: seq<Proc>, p: nat, me: Proc, alive: set<nat>)
    requires p < |procs| && p in alive && me.target == procs[p].target
    requires Settled(procs[p].pc) ==> Settled(me.pc)
    ensures var lost := IsHit(procs, alive, p) && Settled(me.pc) && !Settled(procs[p].pc);
            |Counted(procs[p := me], alive)| == |Counted(procs, alive)| - (if lost then 1 else 0)
  {
    HitsKept(procs, p, me, alive);
    hide IsHit;
    if IsHit(procs, alive, p) && Settled(me.pc) && !Settled(procs[p].pc) {
      assert Counted(procs[p := me], alive) == Counted(procs, alive) - {p};
    } else {
      assert Counted(procs[p := me], alive) == Counted(procs, alive);
    }
  }

  lemma CloseProcsKept(n: nat, procs: seq<Proc>, h: Phase, p: nat, me: Proc)
    requires |procs| == n && CloseProcs(n, procs, h)
    requires p < n && p in h.game.alive && me.target == procs[p].target
    requires CloseProc(h, p, me, IsHit(procs, h.game.alive, p))
    ensures CloseProcs(n, procs[p := me], h)
  {
    HitsKept(procs, p, me, h.game.alive);
    hide CloseProc, IsHit;
  }

  /** What `p` may do to its own status word, its own messages and `alive_count`. */
  ghost predicate CloseEffect(build: Build, s: State, p: nat, hit: bool, me: Proc, word: Status,
      queue: multiset<nat>, count: int)
    requires p < |s.procs|
  {
    && me.target == s.procs[p].target && !s.procs[p].pc.Gone?
    && (Closing(me.pc) <==> Closing(s.procs[p].pc))
    && (Settled(s.procs[p].pc) ==> Settled(me.pc))
    && word == Status(true, hit, hit && (me.pc.DecAlive? || Settled(me.pc)))
    && (queue[p] > 0 ==> build.MessageQueue? && hit && (Unexamined(me.pc) || me.pc.Drain?))
    && (build.MessageQueue? && hit && Unexamined(me.pc) ==> queue[p] > 0)
    && (forall q :: q != p ==> queue[q] == s.queue[q])
    && count == s.aliveCount - (if hit && Settled(me.pc) && !Settled(s.procs[p].pc) then 1 else 0)
  }

  lemma CloseStatusKept(n: nat, s: State, s': State, alive: set<nat>, p: nat)
    requires |s.status| == |s.procs| == |s'.status| == |s'.procs| == n && p < n && p in alive
    requires CloseStatus(n, s, alive)
    requires s'.procs == s.procs[p := s'.procs[p]] && s'.status == s.status[p := s'.status[p]]
    requires s'.procs[p].target == s.procs[p].target
    requires var hit := IsHit(s.procs, alive, p);
             s'.status[p] == Status(true, hit, hit && (s'.procs[p].pc.DecAlive? || Settled(s'.procs[p].pc)))
    ensures CloseStatus(n, s', alive)
  {
    HitsKept(s.procs, p, s'.procs[p], alive);
    hide IsHit, Settled;
  }

  lemma CloseQueueKept(build: Build, n: nat, s: State, s': State, alive: set<nat>, p: nat)
    requires |s.procs| == |s'.procs| == n && p < n && p in alive
    requires CloseQueue(build, n, s, alive)
    requires s'.procs == s.procs[p := s'.procs[p]] && s'.procs[p].target == s.procs[p].target
    requires forall q :: q != p ==> s'.queue[q] == s.queue[q]
    requires var hit := IsHit(s.procs, alive, p);
             var pc := s'.procs[p].pc;
             && (s'.queue[p] > 0 ==> build.MessageQueue? && hit && (Unexamined(pc) || pc.Drain?))
             && (build.MessageQueue? && hit && Unexamined(pc) ==> s'.queue[p] > 0)
    ensures CloseQueue(build, n, s', alive)
  {
    HitsKept(s.procs, p, s'.procs[p], alive);
    hide IsHit, Unexamined;
  }

  lemma CloseCountsKept(s: State, s': State, h: Phase, p: nat)
    requires CloseCounts(s, h) && p < |s.procs| && p in h.game.alive
    requires |s'.procs| == |s.procs|
    requires s' == s.(procs := s.procs[p := s'.procs[p]], status := s'.status, queue := s'.queue,
        aliveCount := s'.aliveCount)
    requires s'.procs[p].target == s.procs[p].target
    requires Closing(s'.procs[p].pc) <==> Closing(s.procs[p].pc)
    requires Settled(s.procs[p].pc) ==> Settled(s'.procs[p].pc)
    requires s'.aliveCount == s.aliveCount -
               (if IsHit(s.procs, h.game.alive, p) && Settled(s'.procs[p].pc) && !Settled(s.procs[p].pc) then 1 else 0)
    ensures CloseCounts(s', h)
  {
    hide ToReceive, Counted, IsHit, Closing, Settled;
    ToReceiveAfter(s.procs, p, s'.procs[p], h.game.alive);
    CountedAfter(s.procs, p, s'.procs[p], h.game.alive);
  }

  lemma PlayFrame(n: nat, s: State, s': State, h: Phase, h': Phase, p: nat)
    requires Shape(n, s, h) && PlayInv(n, s, h) && Shape(n, s', h') && p < n && h'.game.alive == h.game.alive
    requires s'.procs == s.procs[p := s'.procs[p]] && !s.procs[p].pc.Gone?
    requires p !in h.game.alive ==> Leaving(s'.procs[p].pc)
    requires forall q {:trigger s'.status[q]} :: 0 <= q < n && q !in h.game.alive ==> s'.status[q] == s.status[q]
    requires s'.processCount == s.processCount && s'.parent == s.parent
    ensures PlayInv(n, s', h')
  {
  }

  /** A step of `p` between the barriers. */
  lemma CloseStep(build: Build, n: nat, s: State, h: Phase, p: nat, me: Proc, word: Status, queue: multiset<nat>, count: int)
    requires Closed(build, n, s, h) && p < n && p in h.game.alive
    requires CloseProc(h, p, me, IsHit(s.procs, h.game.alive, p))
    requires CloseEffect(build, s, p, IsHit(s.procs, h.game.alive, p), me, word, queue, count)
    ensures Closed(build, n, s.(procs := s.procs[p := me], status := s.status[p := word], queue := queue,
        aliveCount := count), h)
  {
    hide PlayInv, CloseProcs, CloseProc, CloseStatus, CloseQueue, CloseCounts, IsHit, Settled, Closing, Unexamined;
    var alive := h.game.alive;
    var s' := s.(procs := s.procs[p := me], status := s.status[p := word], queue := queue, aliveCount := count);
    PlayFrame(n, s, s', h, h, p);
    CloseProcsKept(n, s.procs, h, p, me);
    CloseStatusKept(n, s, s', alive, p);
    CloseQueueKept(build, n, s, s', alive, p);
    CloseCountsKept(s, s', h, p);
  }

  lemma ZeroShotStep(build: Build, n: nat, s: State, h: Phase, p: nat)
    requires Closed(build, n, s, h) && p < n && p in h.game.alive && s.procs[p].pc.ZeroShot?
    ensures Closed(build, n, Go(s, p, if s.procs[p].coordinator then IncReceived else Receive), h)
  {
    hide Closed, IsHit;
    CloseSelf(build, n, s, h, p);
    CloseLength(build, n, s, h);
    var me := s.procs[p].(pc := if s.procs[p].coordinator then IncReceived else Receive);
    CloseStep(build, n, s, h, p, me, s.status[p], s.queue, s.aliveCount);
    assert s.status[p := s.status[p]] == s.status;
  }

  lemma CloseLength(build: Build, n: nat, s: State, h: Phase)
    requires Closed(build, n, s, h)
    ensures |s.status| == |s.procs| == n
  {
  }

  /** The two builds reach the same verdict: in a round, a message waits for whoever has the bit set. */
  lemma ReceiveStep(build: Build, n: nat, s: State, h: Phase, p: nat)
    requires Closed(build, n, s, h) && p < n && p in h.game.alive && s.procs[p].pc.Receive?
    ensures |s.status| == n && Closed(build, n, DoReceive(build, s, p), h)
  {
    hide Closed, IsHit;
    CloseSelf(build, n, s, h, p);
    CloseLength(build, n, s, h);
    var s' := DoReceive(build, s, p);
    CloseStep(build, n, s, h, p, s'.procs[p], s.status[p], s'.queue, s.aliveCount);
    assert s.status[p := s.status[p]] == s.status;
  }

  lemma DrainStep(build: Build, n: nat, s: State, h: Phase, p: nat)
    requires Closed(build, n, s, h) && p < n && p in h.game.alive && s.procs[p].pc.Drain?
    ensures |s.status| == n && Closed(build, n, DoDrain(s, p), h)
  {
    hide Closed, IsHit;
    CloseSelf(build, n, s, h, p);
    CloseLength(build, n, s, h);
    var s' := DoDrain(s, p);
    CloseStep(build, n, s, h, p, s'.procs[p], s.status[p], s'.queue, s.aliveCount);
    assert s.status[p := s.status[p]] == s.status && s.procs[p := s.procs[p]] == s.procs;
  }

  lemma ReadSelfStep(build: Build, n: nat, s: State, h: Phase, p: nat)
    requires Closed(build, n, s, h) && p < n && p in h.game.alive && s.procs[p].pc.ReadSelf?
    ensures |s.status| == n
    ensures Closed(build, n, s.(procs := s.procs[p := s.procs[p].(seen := s.status[p], pc := WriteSelf)]), h)
  {
    hide Closed, IsHit;
    CloseSelf(build, n, s, h, p);
    CloseLength(build, n, s, h);
    CloseStep(build, n, s, h, p, s.procs[p].(seen := s.status[p], pc := WriteSelf), s.status[p], s.queue, s.aliveCount);
    assert s.status[p := s.status[p]] == s.status;
  }

  lemma WriteSelfStep(build: Build, n: nat, s: State, h: Phase, p: nat)
    requires Closed(build, n, s, h) && p < n && p in h.game.alive && s.procs[p].pc.WriteSelf?
    ensures |s.status| == n
    ensures Closed(build, n, Go(s, p, DecAlive).(status := s.status[p := s.procs[p].seen.(dead := true)]), h)
  {
    hide Closed, IsHit;
    CloseSelf(build, n, s, h, p);
    CloseLength(build, n, s, h);
    CloseStep(build, n, s, h, p, s.procs[p].(pc := DecAlive), s.procs[p].seen.(dead := true), s.queue, s.aliveCount);
  }

  lemma DecAliveStep(build: Build, n: nat, s: State, h: Phase, p: nat)
    requires Closed(build, n, s, h) && p < n && p in h.game.alive && s.procs[p].pc.DecAlive?
    ensures Closed(build, n, Go(s, p, DecReceived).(aliveCount := s.aliveCount - 1), h)
  {
    hide Closed, IsHit;
    CloseSelf(build, n, s, h, p);
    CloseLength(build, n, s, h);
    CloseStep(build, n, s, h, p, s.procs[p].(pc := DecReceived), s.status[p], s.queue, s.aliveCount - 1);
    assert s.status[p := s.status[p]] == s.status;
  }

  lemma BeReadyStep(build: Build, n: nat, s: State, h: Phase, p: nat)
    requires Closed(build, n, s, h) && p < n && p in h.game.alive && s.procs[p].pc.BeReady?
    ensures |s.status| == n && Closed(build, n, Go(s, p, DecReceived).(status := s.status[p := READY]), h)
  {
    hide Closed, IsHit;
    CloseSelf(build, n, s, h, p);
    CloseLength(build, n, s, h);
    CloseStep(build, n, s, h, p, s.procs[p].(pc := DecReceived), READY, s.queue, s.aliveCount);
  }

  /** The coordinator raises S2 to the number of players of the round, none of whom has lowered it. */
  lemma IncReceivedProcs(n: nat, procs: seq<Proc>, h: Phase, p: nat)
    requires |procs| == n && CloseProcs(n, procs, h) && h.stage.Shot?
    requires p < n && p in h.game.alive && procs[p].pc.IncReceived? && h.game.alive <= UpTo(n)
    ensures var procs' := procs[p := procs[p].(pc := Receive)];
            CloseProcs(n, procs', h.(stage := Receiving)) && ToReceive(procs', h.game.alive) == h.game.alive
    ensures procs[p].cached == |h.game.alive|
  {
    var alive := h.game.alive;
    var procs' := procs[p := procs[p].(pc := Receive)];
    HitsKept(procs, p, procs'[p], alive);
    hide IsHit;
    forall q {:trigger procs'[q]} | 0 <= q < n && q in alive
      ensures CloseProc(h.(stage := Receiving), q, procs'[q], IsHit(procs', alive, q)) && Closing(procs'[q].pc)
    {
      assert CloseProc(h, q, procs[q], IsHit(procs, alive, q));
      assert CloseProc(h, p, procs[p], IsHit(procs, alive, p));
    }
  }

  lemma IncReceivedStep(build: Build, n: nat, s: State, h: Phase, p: nat)
    requires Closed(build, n, s, h) && p < n && p in h.game.alive && s.procs[p].pc.IncReceived?
    ensures h.stage.Shot?
    ensures s.s2 + s.procs[p].cached > 0
    ensures Closed(build, n, Go(s, p, Receive).(s2 := s.s2 + s.procs[p].cached), h.(stage := Receiving))
  {
    hide PlayInv, CloseProcs, CloseStatus, CloseQueue, ToReceive, Counted, IsHit;
    var alive := h.game.alive;
    var me := s.procs[p].(pc := Receive);
    var s' := Go(s, p, Receive).(s2 := s.s2 + s.procs[p].cached);
    CloseSelf(build, n, s, h, p);
    var word := s.status[p];
    PlayFrame(n, s, s', h, h.(stage := Receiving), p);
    IncReceivedProcs(n, s.procs, h, p);
    CloseStatusKept(n, s, s', alive, p) by {
      assert s.status[p := s.status[p]] == s.status;
    }
    CloseQueueKept(build, n, s, s', alive, p);
    CountedAfter(s.procs, p, me, alive);
  }

  /** S2 comes to zero when the last player has recorded its fate; that instant is the round. */
  lemma AllReceivedProcs(n: nat, procs: seq<Proc>, h: Phase)
    requires |procs| == n && CloseProcs(n, procs, h) && h.stage.Receiving? && h.game.alive <= UpTo(n)
    requires ToReceive(procs, h.game.alive) == {}
    ensures forall q {:trigger procs[q]} :: 0 <= q < n && q in h.game.alive ==>
              procs[q].pc.ZeroReceived? && Victim(h.game.alive, q, procs[q].target)
  {
    forall q {:trigger procs[q]} | 0 <= q < n && q in h.game.alive
      ensures procs[q].pc.ZeroReceived? && Victim(h.game.alive, q, procs[q].target)
    {
      assert q !in ToReceive(procs, h.game.alive);
      assert CloseProc(h, q, procs[q], IsHit(procs, h.game.alive, q));
    }
  }

  ghost function AimOf(procs: seq<Proc>): nat -> nat {
    (q: nat) => if q < |procs| then procs[q].target else 0
  }

  lemma AimHits(procs: seq<Proc>, alive: set<nat>)
    requires alive <= UpTo(|procs|)
    requires forall q {:trigger procs[q]} :: 0 <= q < |procs| && q in alive ==> Victim(alive, q, procs[q].target)
    ensures Aimed(alive, AimOf(procs))
    ensures forall t :: Hit(alive, AimOf(procs), t) <==> IsHit(procs, alive, t)
  {
    var aim := AimOf(procs);
    forall t
      ensures Hit(alive, aim, t) <==> IsHit(procs, alive, t)
    {
      if q: nat :| q in alive && q < |procs| && procs[q].target == t {
        assert aim(q) == t;
      }
      if q: nat :| q in alive && aim(q) == t {
        assert procs[q].target == t;
      }
    }
    forall q {:trigger aim(q)} | q in alive
      ensures aim(q) in alive && aim(q) != q
    {
      assert Victim(alive, q, procs[q].target);
    }
  }

  lemma AllReceivedRound(n: nat, s: State, h: Phase)
    requires |s.procs| == |s.status| == n && h.game.alive <= UpTo(n) && |h.game.alive| >= 2
    requires forall q {:trigger s.procs[q]} :: 0 <= q < n && q in h.game.alive ==>
               s.procs[q].pc.ZeroReceived? && Victim(h.game.alive, q, s.procs[q].target)
    requires CloseStatus(n, s, h.game.alive)
    ensures var g' := Game(Survivors(s, h.game.alive), h.game.rounds + 1);
            Round(h.game, g') && Fires(h.game, AimOf(s.procs), g')
  {
    hide Hit, IsHit, Aimed, AimOf;
    var alive := h.game.alive;
    var g' := Game(Survivors(s, alive), h.game.rounds + 1);
    AimHits(s.procs, alive);
    forall t | t in alive
      ensures t in g'.alive <==> !Hit(alive, AimOf(s.procs), t)
    {
      assert s.status[t].dead <==> IsHit(s.procs, alive, t) by {
        assert s.procs[t].pc.ZeroReceived?;
      }
    }
    assert Fires(h.game, AimOf(s.procs), g');
  }

  lemma AllReceivedWords(build: Build, n: nat, s: State, alive: set<nat>)
    requires |s.procs| == |s.status| == n && alive <= UpTo(n)
    requires forall q {:trigger s.procs[q]} :: 0 <= q < n && q in alive ==> s.procs[q].pc.ZeroReceived?
    requires CloseStatus(n, s, alive) && CloseQueue(build, n, s, alive)
    ensures OpenStatus(n, s, Survivors(s, alive)) && OpenQueue(build, s, Survivors(s, alive))
    ensures Counted(s.procs, alive) == Survivors(s, alive)
    ensures s.queue == multiset{}
  {
    forall q {:trigger s.queue[q]}
      ensures s.queue[q] == 0
    {
    }
    forall q {:trigger s.status[q]} | 0 <= q < n && q in alive
      ensures s.status[q].dead <==> IsHit(s.procs, alive, q)
      ensures !s.status[q].dead ==> s.status[q] == READY
    {
      assert s.procs[q].pc.ZeroReceived?;
    }
  }

  lemma AllReceivedOpen(build: Build, n: nat, s: State, h: Phase)
    requires Shape(n, s, h) && PlayInv(n, s, h)
    requires forall q {:trigger s.procs[q]} :: 0 <= q < n && q in h.game.alive ==> s.procs[q].pc.ZeroReceived?
    requires Survivors(s, h.game.alive) <= h.game.alive
    ensures var h' := Phase(Gathering, Game(Survivors(s, h.game.alive), h.game.rounds + 1));
            OpenProcs(build, n, s.procs, h') && (Shape(n, s, h') ==> PlayInv(n, s, h'))
  {
    var h' := Phase(Gathering, Game(Survivors(s, h.game.alive), h.game.rounds + 1));
    forall q {:trigger s.procs[q]} | 0 <= q < n
      ensures Leaving(s.procs[q].pc) && (q in h'.game.alive ==> s.procs[q].pc.ZeroReceived?)
    {
    }
    forall q {:trigger s.status[q]} | 0 <= q < n && q !in h'.game.alive
      ensures s.status[q].dead
    {
    }
  }

  lemma AllReceived(build: Build, n: nat, s: State, h: Phase)
    requires Shape(n, s, h) && PlayInv(n, s, h) && h.stage.Receiving? && |h.game.alive| >= 2
    requires CloseProcs(n, s.procs, h) && CloseStatus(n, s, h.game.alive) && CloseQueue(build, n, s, h.game.alive)
    requires ToReceive(s.procs, h.game.alive) == {}
    requires s.s1 == 0 && s.s2 == 0 && s.aliveCount == |Counted(s.procs, h.game.alive)| && s.rounds == h.game.rounds + 1
    ensures var h' := Phase(Gathering, Game(Survivors(s, h.game.alive), h.game.rounds + 1));
            && Opened(build, n, s, h') && s.queue == multiset{}
            && Round(h.game, h'.game) && Fires(h.game, AimOf(s.procs), h'.game)
  {
    hide PlayInv, CloseProcs, CloseStatus, CloseQueue, OpenProcs, OpenStatus, OpenQueue, ToReceive, Counted,
        Survivors, Round, Fires, Boss, AimOf;
    var h' := Phase(Gathering, Game(Survivors(s, h.game.alive), h.game.rounds + 1));
    AllReceivedProcs(n, s.procs, h);
    AllReceivedRound(n, s, h);
    AllReceivedWords(build, n, s, h.game.alive);
    RoundKills(h.game, h'.game);
    AllReceivedOpen(build, n, s, h);
    forall q {:trigger s.procs[q]} | 0 <= q < n && Boss(h'.game.alive, q)
      ensures s.procs[q].pc.ZeroReceived?
    {
      assert q in h'.game.alive by {
        BossIn(h'.game.alive, q);
      }
    }
    assert OpenCounts(n, s, h');
  }

  lemma BossIn(alive: set<nat>, p: nat)
    requires Boss(alive, p)
    ensures p in alive
  {
  }

  lemma DecReceivedStep(build: Build, n: nat, s: State, h: Phase, p: nat)
    requires Closed(build, n, s, h) && p < n && p in h.game.alive
    requires s.procs[p].pc.DecReceived? && s.s2 >= 1
    ensures h.stage.Receiving?
    ensures var s' := Go(s, p, ZeroReceived).(s2 := s.s2 - 1);
            if s'.s2 > 0 then
              Closed(build, n, s', h)
            else
              var h' := Phase(Gathering, Game(Survivors(s', h.game.alive), h.game.rounds + 1));
              && Opened(build, n, s', h') && s'.queue == multiset{}
              && Round(h.game, h'.game) && Fires(h.game, AimOf(s'.procs), h'.game)
  {
    hide PlayInv, CloseProcs, CloseStatus, CloseQueue, ToReceive, Counted, IsHit, Opened, Round, Fires, AimOf, Survivors;
    var alive := h.game.alive;
    var me := s.procs[p].(pc := ZeroReceived);
    var s' := Go(s, p, ZeroReceived).(s2 := s.s2 - 1);
    CloseSelf(build, n, s, h, p);
    PlayFrame(n, s, s', h, h, p);
    CloseProcsKept(n, s.procs, h, p, me);
    CloseStatusKept(n, s, s', alive, p) by {
      assert s.status[p := s.status[p]] == s.status;
    }
    CloseQueueKept(build, n, s, s', alive, p);
    CountedAfter(s.procs, p, me, alive);
    ToReceiveAfter(s.procs, p, me, alive);
    if s'.s2 == 0 {
      AllReceived(build, n, s', h);
    }
  }

  // ----- A player on its way out -----

  lemma LeaveOpen(build: Build, n: nat, s: State, h: Phase, p: nat, pc: Pc)
    requires Opened(build, n, s, h) && p < n && p !in h.game.alive
    requires !s.procs[p].pc.Gone? && Leaving(pc)
    ensures Opened(build, n, Go(s, p, pc), h)
  {
    hide OpenProcs, OpenProc, OpenStatus, OpenQueue, ToShoot;
    var me := s.procs[p].(pc := pc);
    PlayFrame(n, s, Go(s, p, pc), h, h, p);
    OpenProcsKept(build, n, s.procs, h, p, me);
    OpenWordsKept(build, n, s, h.game.alive, p, me);
    OpenCountsKept(n, s, h, p, me);
  }

  lemma LeaveClosed(build: Build, n: nat, s: State, h: Phase, p: nat, pc: Pc)
    requires Closed(build, n, s, h) && p < n && p !in h.game.alive
    requires !s.procs[p].pc.Gone? && Leaving(pc)
    ensures Closed(build, n, Go(s, p, pc), h)
  {
    hide CloseProcs, CloseStatus, CloseQueue, ToReceive, Counted;
    PlayFrame(n, s, Go(s, p, pc), h, h, p);
    LeaveClosedProcs(n, s.procs, h, p, s.procs[p].(pc := pc));
    LeaveClosedWords(build, n, s, h.game.alive, p, pc);
  }

  lemma LeaveClosedProcs(n: nat, procs: seq<Proc>, h: Phase, p: nat, me: Proc)
    requires |procs| == n && CloseProcs(n, procs, h) && p < n && p !in h.game.alive
    ensures CloseProcs(n, procs[p := me], h)
    ensures ToReceive(procs[p := me], h.game.alive) == ToReceive(procs, h.game.alive)
    ensures Counted(procs[p := me], h.game.alive) == Counted(procs, h.game.alive)
  {
    HitsKept(procs, p, me, h.game.alive);
    hide CloseProc, IsHit;
  }

  lemma LeaveClosedWords(build: Build, n: nat, s: State, alive: set<nat>, p: nat, pc: Pc)
    requires |s.status| == |s.procs| == n && p < n && p !in alive
    requires CloseStatus(n, s, alive) && CloseQueue(build, n, s, alive)
    ensures CloseStatus(n, Go(s, p, pc), alive) && CloseQueue(build, n, Go(s, p, pc), alive)
  {
    HitsKept(s.procs, p, s.procs[p].(pc := pc), alive);
    hide IsHit, Settled, Unexamined;
  }

  // ----- Booting -----

  lemma BootDone(build: Build, n: nat, s: State)
    requires n > 0 && |s.procs| == |s.status| == n
    requires forall p {:trigger s.procs[p]} :: 0 <= p < n ==> s.procs[p].pc.BootZero?
    requires forall p {:trigger s.status[p]} :: 0 <= p < n ==> s.status[p] == READY
    requires s.s1 == 0 && s.s2 == 0 && s.rounds == 0 && s.queue == multiset{}
    requires s.parent.Reap? && s.processCount == n && s.aliveCount == n
    ensures Opened(build, n, s, Phase(Gathering, Game(UpTo(n), 0)))
  {
    hide OpenProc, OpenProcs, IsMarked, IsSent, ToShoot;
    BootedProcs(build, n, s.procs);
    BootedMarks(s.procs, UpTo(n));
    BootedCounts(n, s);
  }

  lemma BootedProcs(build: Build, n: nat, procs: seq<Proc>)
    requires |procs| == n && forall p {:trigger procs[p]} :: 0 <= p < n ==> procs[p].pc.BootZero?
    ensures OpenProcs(build, n, procs, Phase(Gathering, Game(UpTo(n), 0)))
  {
    hide OpenProc;
    var h := Phase(Gathering, Game(UpTo(n), 0));
    forall p {:trigger procs[p]} | 0 <= p < n && p in UpTo(n)
      ensures OpenProc(n, h, p, procs[p])
    {
      BootedProc(n, p, procs[p]);
    }
  }

  lemma BootedMarks(procs: seq<Proc>, alive: set<nat>)
    requires forall p {:trigger procs[p]} :: 0 <= p < |procs| ==> procs[p].pc.BootZero?
    ensures forall t :: !IsMarked(procs, alive, t) && !IsSent(procs, alive, t)
  {
  }

  lemma BootedCounts(n: nat, s: State)
    requires n > 0 && |s.procs| == n && forall p {:trigger s.procs[p]} :: 0 <= p < n ==> s.procs[p].pc.BootZero?
    requires s.s1 == 0 && s.s2 == 0 && s.rounds == 0 && s.aliveCount == n
    ensures OpenCounts(n, s, Phase(Gathering, Game(UpTo(n), 0)))
  {
    hide ToShoot, Boss;
    assert 0 in UpTo(n);
  }

  lemma BootedProc(n: nat, p: nat, me: Proc)
    requires p < n && me.pc.BootZero?
    ensures OpenProc(n, Phase(Gathering, Game(UpTo(n), 0)), p, me)
  {
  }

  lemma ToBootAfter(procs: seq<Proc>, p: nat, me: Proc, alive: set<nat>)
    requires p < |procs|
    ensures p !in alive || (Unready(me.pc) <==> Unready(procs[p].pc)) ==>
              ToBoot(procs[p := me], alive) == ToBoot(procs, alive)
    ensures p in alive && Unready(procs[p].pc) && !Unready(me.pc) ==>
              |ToBoot(procs[p := me], alive)| == |ToBoot(procs, alive)| - 1
  {
    if p in alive && Unready(procs[p].pc) && !Unready(me.pc) {
      assert ToBoot(procs[p := me], alive) == ToBoot(procs, alive) - {p};
    }
  }

  lemma AllBooted(n: nat, s: State, h: Phase)
    requires |s.procs| == |s.status| == n && h.game.alive == UpTo(n)
    requires forall p {:trigger s.procs[p]} :: 0 <= p < n ==> Unready(s.procs[p].pc) || s.procs[p].pc.BootZero?
    requires ToBoot(s.procs, h.game.alive) == {}
    ensures forall p {:trigger s.procs[p]} :: 0 <= p < n ==> s.procs[p].pc.BootZero?
  {
    forall p {:trigger s.procs[p]} | 0 <= p < n
      ensures s.procs[p].pc.BootZero?
    {
      assert p !in ToBoot(s.procs, h.game.alive);
    }
  }

  /** Everybody has come to the first barrier, the parent included. */
  lemma BootEnd(build: Build, n: nat, s: State, h: Phase)
    requires Shape(n, s, h) && h == Start(n)
    requires forall p {:trigger s.procs[p]} :: 0 <= p < n ==> Unready(s.procs[p].pc) || s.procs[p].pc.BootZero?
    requires forall p {:trigger s.status[p]} :: 0 <= p < n ==> (s.procs[p].pc.BootZero? ==> s.status[p] == READY)
    requires ToBoot(s.procs, h.game.alive) == {}
    requires s.s1 == 0 && s.s2 == 0 && s.rounds == 0 && s.queue == multiset{}
    requires s.parent.Reap? && s.processCount == n && s.aliveCount == n
    ensures Opened(build, n, s, h.(stage := Gathering))
  {
    AllBooted(n, s, h);
    hide ToBoot, Opened;
    forall p {:trigger s.status[p]} | 0 <= p < n
      ensures s.status[p] == READY
    {
      assert s.procs[p].pc.BootZero?;
    }
    BootDone(build, n, s);
  }

  lemma BootChildStep(build: Build, n: nat, s: State, h: Phase, p: nat)
    requires Shape(n, s, h) && h.stage.Booting? && BootInv(n, s, h) && p < n
    requires s.procs[p].pc.BootReady? || s.procs[p].pc.BootDec?
    ensures s.procs[p].pc.BootReady? ==>
              BootInv(n, Go(s, p, BootDec).(status := s.status[p := READY]), h)
    ensures s.procs[p].pc.BootDec? ==>
              var s' := Go(s, p, BootZero).(s2 := s.s2 - 1);
              if s'.s2 > 0 then BootInv(n, s', h) else Opened(build, n, s', h.(stage := Gathering))
  {
    hide Opened, ToBoot;
    ToBootAfter(s.procs, p, s.procs[p].(pc := BootDec), h.game.alive);
    ToBootAfter(s.procs, p, s.procs[p].(pc := BootZero), h.game.alive);
    if s.procs[p].pc.BootDec? && s.s2 == 1 {
      BootEnd(build, n, Go(s, p, BootZero).(s2 := s.s2 - 1), h);
    }
  }

  lemma BootParentStep(build: Build, n: nat, s: State, h: Phase)
    requires Shape(n, s, h) && h.stage.Booting? && BootInv(n, s, h) && ParentReady(s)
    ensures var s' := DoParent(s);
            |s'.procs| == |s'.status| == n &&
            if s'.s2 > 0 then BootInv(n, s', h) else Opened(build, n, s', h.(stage := Gathering))
  {
    hide Opened, ToBoot;
    var s' := DoParent(s);
    if s.parent.Fork? {
      ToBootAfter(s.procs, s.parent.k, s.procs[s.parent.k].(pc := BootReady), h.game.alive);
    }
    if s.parent.Reap? {
      BootBusy(n, s, h);
    }
    if s'.s2 == 0 {
      BootEnd(build, n, s', h);
    }
  }

  /** While booting, somebody has still to come to the barrier, so the parent has nobody to reap. */
  lemma BootBusy(n: nat, s: State, h: Phase)
    requires Shape(n, s, h) && BootInv(n, s, h)
    ensures exists p {:trigger s.procs[p]} :: 0 <= p < n && !s.procs[p].pc.Gone?
  {
    assert !s.procs[0].pc.Gone?;
  }
}
