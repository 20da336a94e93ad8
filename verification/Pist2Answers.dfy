/** The victims that the library names, and that it is they who die.

    A run is given here with its actors, so that each answer of the library is known apart from what the
    program makes of it. */
module Pist2Answers {
  import opened FiniteSets
  import opened AtomicRound
  import opened Pist2
  import opened Pist2Invariant
  import opened Pist2Steps
  import opened Pist2Game
  import opened Pist2Runs

  // ----- Runs with their actors -----

  ghost predicate ActedRun(build: Build, n: nat, run: seq<State>, acts: seq<Actor>) {
    && |run| == |acts| + 1 && Init(n, run[0])
    && forall i {:trigger acts[i]} :: 0 <= i < |acts| ==>
         Enabled(run[i], acts[i]) && run[i + 1] == Do(build, run[i], acts[i])
  }

  lemma ActedIsRun(build: Build, n: nat, run: seq<State>, acts: seq<Actor>)
    requires ActedRun(build, n, run, acts)
    ensures Run(build, n, run)
  {
    hide Do, Enabled, Init;
    forall i | 0 < i < |run|
      ensures Next(build, run[i - 1], run[i])
    {
      assert Enabled(run[i - 1], acts[i - 1]);
    }
  }

  /** Every run has actors. */
  lemma {:induction false} RunIsActed(build: Build, n: nat, run: seq<State>) returns (acts: seq<Actor>)
    requires Run(build, n, run)
    ensures ActedRun(build, n, run, acts)
  {
    hide Do, Enabled, Init;
    if |run| == 1 {
      acts := [];
    } else {
      var k := |run| - 1;
      acts := RunIsActed(build, n, run[..k]);
      assert Next(build, run[k - 1], run[k]);
      var a :| Enabled(run[k - 1], a) && run[k] == Do(build, run[k - 1], a);
      acts := acts + [a];
    }
  }

  lemma ActedPrefix(build: Build, n: nat, run: seq<State>, acts: seq<Actor>)
    requires ActedRun(build, n, run, acts) && acts != []
    ensures ActedRun(build, n, run[..|acts|], acts[..|acts| - 1])
  {
    hide Do, Enabled, Init;
    forall i {:trigger acts[..|acts| - 1][i]} | 0 <= i < |acts| - 1
      ensures Enabled(run[i], acts[i]) && run[i + 1] == Do(build, run[i], acts[i])
    {
    }
  }

  // ----- The answers of a round -----

  /** A step at which the library is asked. */
  predicate Asks(s: State, a: Actor) {
    a.Child? && a.p < |s.procs| && s.procs[a.p].pc.Choose?
  }

  /** The victims named in the round under way, by the player that asked. */
  ghost function Answers(n: nat, run: seq<State>, acts: seq<Actor>): map<nat, nat>
    requires |run| == |acts| + 1
    decreases |acts|
  {
    if acts == [] then map[]
    else
      var k := |acts| - 1;
      if PhaseOf(n, run).game != PhaseOf(n, run[..k + 1]).game then map[]
      else Answered(Answers(n, run[..k + 1], acts[..k]), run[k], acts[k])
  }

  ghost function Answered(answers: map<nat, nat>, s: State, a: Actor): map<nat, nat> {
    if Asks(s, a) then answers[a.p := a.victim] else answers
  }

  ghost function Named(answers: map<nat, nat>): nat -> nat {
    (p: nat) => if p in answers then answers[p] else 0
  }

  /** Has asked in the round under way. */
  predicate HasAsked(h: Phase, pc: Pc) {
    h.stage.Shot? || h.stage.Receiving? || Aiming(pc)
  }

  /** Exactly the players past the question have an answer, and it is their target. */
  ghost predicate AnswersInv(n: nat, s: State, h: Phase, answers: map<nat, nat>) {
    && |s.procs| == n && h.game.alive <= UpTo(n)
    && (forall p {:trigger p in answers} :: p in answers ==>
          p < n && p in h.game.alive && s.procs[p].target == answers[p])
    && (forall p {:trigger s.procs[p]} :: 0 <= p < n && p in h.game.alive ==>
          (p in answers <==> HasAsked(h, s.procs[p].pc)))
  }

  // ----- One step -----

  /** Only the question sets a target, and it sets it to the answer. */
  lemma TargetChange(build: Build, s: State, a: Actor, q: nat)
    requires Enabled(s, a) && q < |s.procs|
    ensures |Do(build, s, a).procs| == |s.procs|
    ensures Do(build, s, a).procs[q].target == if Asks(s, a) && a.p == q then a.victim else s.procs[q].target
  {
    match a
    case Parent =>
    case Child(p, victim) => ChildTarget(build, s, p, victim);
  }

  lemma ChildTarget(build: Build, s: State, p: nat, victim: nat)
    requires |s.status| == |s.procs| && p < |s.procs|
    ensures DoChild(build, s, p, victim).procs[p].target == if s.procs[p].pc.Choose? then victim else s.procs[p].target
  {
    hide DoScan, DoReadTarget, DoWriteTarget, DoReceive, DoDrain;
    TargetStays(build, s, p);
    if s.procs[p].pc.Scan? {
      ScanStays(s, p, s.procs[p].pc.i);
    }
  }

  lemma ScanStays(s: State, p: nat, i: nat)
    requires p < |s.procs|
    ensures |DoScan(s, p, i).procs| == |s.procs| && DoScan(s, p, i).procs[p].target == s.procs[p].target
  {
  }

  lemma TargetStays(build: Build, s: State, p: nat)
    requires |s.status| == |s.procs| && p < |s.procs|
    ensures |DoReadTarget(s, p).procs| == |s.procs| && DoReadTarget(s, p).procs[p].target == s.procs[p].target
    ensures |DoWriteTarget(build, s, p).procs| == |s.procs|
    ensures DoWriteTarget(build, s, p).procs[p].target == s.procs[p].target
    ensures |DoReceive(build, s, p).procs| == |s.procs| && DoReceive(build, s, p).procs[p].target == s.procs[p].target
    ensures |DoDrain(s, p).procs| == |s.procs| && DoDrain(s, p).procs[p].target == s.procs[p].target
  {
  }

  /** How a step can change whether its player aims. */
  predicate AimStep(pc: Pc, next: Pc) {
    match pc
    case Choose => next.ReadTarget?
    case ReadTarget => next.WriteTarget? || next.Aborted?
    case WriteTarget => next.Send? || next.DecShot? || next.Aborted?
    case Send => next.DecShot?
    case DecShot => next.ZeroShot?
    case ZeroShot => next.IncReceived? || next.Receive?
    case _ => !Aiming(next) && (Early(pc) ==> !Closing(next))
  }

  lemma ScanAims(s: State, p: nat, i: nat)
    requires p < |s.procs| && s.procs[p].pc == Scan(i)
    ensures AimStep(s.procs[p].pc, DoScan(s, p, i).procs[p].pc)
  {
  }

  lemma TargetAims(build: Build, s: State, p: nat)
    requires p < |s.procs|
    ensures s.procs[p].pc.ReadTarget? ==> AimStep(s.procs[p].pc, DoReadTarget(s, p).procs[p].pc)
    ensures s.procs[p].pc.WriteTarget? ==> AimStep(s.procs[p].pc, DoWriteTarget(build, s, p).procs[p].pc)
  {
  }

  lemma ReceiveAims(build: Build, s: State, p: nat)
    requires p < |s.procs| && p < |s.status|
    ensures s.procs[p].pc.Receive? ==> AimStep(s.procs[p].pc, DoReceive(build, s, p).procs[p].pc)
    ensures s.procs[p].pc.Drain? ==> AimStep(s.procs[p].pc, DoDrain(s, p).procs[p].pc)
  {
  }

  lemma AimingChange(build: Build, s: State, p: nat, victim: nat)
    requires |s.status| == |s.procs| && p < |s.procs|
    requires !s.procs[p].pc.Gone? && !s.procs[p].pc.Aborted?
    ensures AimStep(s.procs[p].pc, DoChild(build, s, p, victim).procs[p].pc)
  {
    hide DoScan, DoReadTarget, DoWriteTarget, DoReceive, DoDrain, AimStep;
    var pc := s.procs[p].pc;
    if pc.Scan? {
      ScanAims(s, p, pc.i);
    } else if pc.ReadTarget? || pc.WriteTarget? {
      TargetAims(build, s, p);
    } else if pc.Receive? || pc.Drain? {
      ReceiveAims(build, s, p);
    } else {
      PlainAims(build, s, p, victim);
    }
  }

  lemma PlainAims(build: Build, s: State, p: nat, victim: nat)
    requires |s.status| == |s.procs| && p < |s.procs|
    requires var pc := s.procs[p].pc;
             !pc.Gone? && !pc.Aborted? && !pc.Scan? && !pc.ReadTarget? && !pc.WriteTarget? && !pc.Receive? && !pc.Drain?
    ensures AimStep(s.procs[p].pc, DoChild(build, s, p, victim).procs[p].pc)
  {
    hide AimStep, DoChild;
    if Early(s.procs[p].pc) {
      EarlyAims(build, s, p, victim);
    } else {
      LateAims(build, s, p, victim);
    }
  }

  lemma EarlyAims(build: Build, s: State, p: nat, victim: nat)
    requires |s.status| == |s.procs| && p < |s.procs| && Early(s.procs[p].pc) && !s.procs[p].pc.Scan?
    ensures AimStep(s.procs[p].pc, DoChild(build, s, p, victim).procs[p].pc)
  {
    hide DoScan, DoReadTarget, DoWriteTarget, DoReceive, DoDrain;
  }

  lemma LateAims(build: Build, s: State, p: nat, victim: nat)
    requires |s.status| == |s.procs| && p < |s.procs| && !Early(s.procs[p].pc)
    requires var pc := s.procs[p].pc;
             !pc.Gone? && !pc.Aborted? && !pc.ReadTarget? && !pc.WriteTarget? && !pc.Receive? && !pc.Drain?
    ensures AimStep(s.procs[p].pc, DoChild(build, s, p, victim).procs[p].pc)
  {
    hide DoScan, DoReadTarget, DoWriteTarget, DoReceive, DoDrain;
  }

  lemma ParentAims(s: State, q: nat)
    requires Enabled(s, Parent) && q < |s.procs|
    ensures DoParent(s).procs[q].pc == s.procs[q].pc || (s.parent.Fork? && !Aiming(DoParent(s).procs[q].pc))
  {
  }

  /** Within a round and at its start the stages come in this order. */
  predicate Goes(stage: Stage, stage': Stage) {
    match stage
    case Booting => stage'.Booting? || stage'.Gathering?
    case Gathering => stage'.Gathering? || stage'.Shooting?
    case Shooting => stage'.Shooting? || stage'.Shot?
    case Shot => stage'.Shot? || stage'.Receiving?
    case Receiving => stage'.Receiving?
  }

  lemma AdvanceGoes(h: Phase, s': State)
    requires Advance(h, s').game == h.game
    ensures Goes(h.stage, Advance(h, s').stage)
  {
  }

  /** The player that moves has asked now, or had before. */
  lemma SelfAsked(h: Phase, h': Phase, p: nat, pc: Pc, pc': Pc)
    requires Stands(h, p, pc) && Stands(h', p, pc') && p in h.game.alive && h'.game == h.game && Goes(h.stage, h'.stage)
    requires AimStep(pc, pc') && !(h.stage.Shooting? && pc.ZeroShot?)
    ensures HasAsked(h', pc') <==> HasAsked(h, pc) || pc.Choose?
    ensures pc.Choose? ==> !HasAsked(h, pc)
  {
  }

  lemma OtherAsked(h: Phase, h': Phase, p: nat, pc: Pc)
    requires Stands(h, p, pc) && Stands(h', p, pc) && p in h.game.alive && h'.game == h.game && Goes(h.stage, h'.stage)
    ensures HasAsked(h', pc) <==> HasAsked(h, pc)
  {
  }

  lemma BornAsked(h: Phase, h': Phase, p: nat, pc: Pc, pc': Pc)
    requires Stands(h, p, pc) && h.stage.Booting? && Goes(h.stage, h'.stage) && !Aiming(pc')
    ensures !HasAsked(h, pc) && !HasAsked(h', pc')
  {
  }

  /** At the end of a round nobody has asked for the next one. */
  lemma NobodyAsked(h: Phase, h': Phase, p: nat, pc: Pc, pc': Pc)
    requires h.stage.Receiving? && h'.stage.Gathering? && p in h.game.alive && p in h'.game.alive
    requires Stands(h, p, pc) && Stands(h', p, pc') && (pc' == pc || AimStep(pc, pc'))
    ensures !HasAsked(h', pc')
  {
  }

  lemma ForkBoots(build: Build, n: nat, s: State, h: Phase)
    requires Inv(build, n, s, h) && s.parent.Fork?
    ensures h.stage.Booting?
  {
    hide BootInv, OpenInv, CloseInv;
  }

  lemma ShootingRaised(build: Build, n: nat, s: State, h: Phase)
    requires Inv(build, n, s, h) && h.stage.Shooting?
    ensures s.s1 > 0
  {
    hide PlayInv, OpenProcs, OpenStatus, OpenQueue, ToShoot;
  }

  lemma AskerStands(h: Phase, p: nat, pc: Pc)
    requires Stands(h, p, pc) && pc.Choose?
    ensures p in h.game.alive
  {
  }

  /** Who has asked, after a step within a round. */
  lemma AskedStep(build: Build, n: nat, s: State, h: Phase, a: Actor, q: nat)
    requires Inv(build, n, s, h) && Enabled(s, a) && q < n && q in h.game.alive
    requires Inv(build, n, Do(build, s, a), Advance(h, Do(build, s, a))) && Advance(h, Do(build, s, a)).game == h.game
    ensures var s' := Do(build, s, a);
            && |s.procs| == |s'.procs| == n
            && (HasAsked(Advance(h, s'), s'.procs[q].pc) <==> HasAsked(h, s.procs[q].pc) || (Asks(s, a) && a.p == q))
            && (Asks(s, a) && a.p == q ==> !HasAsked(h, s.procs[q].pc))
  {
    hide Inv, DoChild, DoParent, Advance, Stands, HasAsked, AimStep, Goes, Aiming;
    var s' := Do(build, s, a);
    var h' := Advance(h, s');
    InvStands(build, n, s, h, q);
    InvStands(build, n, s', h', q);
    AdvanceGoes(h, s');
    if a.Child? && a.p == q {
      if h.stage.Shooting? {
        ShootingRaised(build, n, s, h);
      }
      AimingChange(build, s, q, a.victim);
      SelfAsked(h, h', q, s.procs[q].pc, s'.procs[q].pc);
    } else if s'.procs[q].pc == s.procs[q].pc {
      OtherAsked(h, h', q, s.procs[q].pc);
    } else {
      ParentAims(s, q);
      ForkBoots(build, n, s, h);
      BornAsked(h, h', q, s.procs[q].pc, s'.procs[q].pc);
    }
  }

  /** Nobody has asked when a round begins. */
  lemma FreshStep(build: Build, n: nat, s: State, h: Phase, a: Actor, q: nat)
    requires Inv(build, n, s, h) && Enabled(s, a) && q < n
    requires Inv(build, n, Do(build, s, a), Advance(h, Do(build, s, a))) && Advance(h, Do(build, s, a)).game != h.game
    requires q in h.game.alive && q in Advance(h, Do(build, s, a)).game.alive
    ensures var s' := Do(build, s, a);
            |s.procs| == |s'.procs| == n && !HasAsked(Advance(h, s'), s'.procs[q].pc)
  {
    hide Inv, DoChild, DoParent, Stands, HasAsked, AimStep, Survivors;
    var s' := Do(build, s, a);
    InvStands(build, n, s, h, q);
    InvStands(build, n, s', Advance(h, s'), q);
    if a.Child? && a.p == q {
      AimingChange(build, s, q, a.victim);
    } else if s'.procs[q].pc != s.procs[q].pc {
      ParentAims(s, q);
      ForkBoots(build, n, s, h);
    }
    NobodyAsked(h, Advance(h, s'), q, s.procs[q].pc, s'.procs[q].pc);
  }

  lemma RoundEnds(h: Phase, s': State)
    requires Advance(h, s').game != h.game
    ensures h.stage.Receiving? && Advance(h, s').stage.Gathering? && Advance(h, s').game.alive <= h.game.alive
  {
  }

  /** The answers and the targets of those alive are the same shots. */
  lemma NamedFires(n: nat, s: State, g: Game, g': Game, answers: map<nat, nat>, procs: seq<Proc>)
    requires Fires(g, AimOf(procs), g') && g.alive <= UpTo(n) && |procs| == n
    requires forall p {:trigger procs[p]} :: 0 <= p < n && p in g.alive ==> p in answers && procs[p].target == answers[p]
    ensures Fires(g, Named(answers), g')
  {
    var aim, aim' := AimOf(procs), Named(answers);
    forall p {:trigger aim'(p)} | p in g.alive
      ensures aim'(p) == aim(p)
    {
      assert procs[p] == procs[p];
    }
    SameAim(g, aim, aim', g');
  }

  lemma AnswersStay(build: Build, n: nat, s: State, h: Phase, a: Actor, answers: map<nat, nat>)
    requires Inv(build, n, s, h) && Enabled(s, a) && AnswersInv(n, s, h, answers)
    requires Inv(build, n, Do(build, s, a), Advance(h, Do(build, s, a))) && Advance(h, Do(build, s, a)).game == h.game
    ensures AnswersInv(n, Do(build, s, a), Advance(h, Do(build, s, a)), Answered(answers, s, a))
    ensures Asks(s, a) ==> a.p in h.game.alive && a.p !in answers
  {
    hide Inv, Do, Advance, HasAsked, Stands, Enabled;
    var s' := Do(build, s, a);
    var h' := Advance(h, s');
    var answers' := Answered(answers, s, a);
    if Asks(s, a) {
      InvStands(build, n, s, h, a.p);
      AskerStands(h, a.p, s.procs[a.p].pc);
      AskedStep(build, n, s, h, a, a.p);
    }
    SameSize(build, s, a);
    forall p {:trigger p in answers'} | p in answers'
      ensures p < n && p in h'.game.alive && s'.procs[p].target == answers'[p]
    {
      TargetChange(build, s, a, p);
    }
    forall p: nat {:trigger s'.procs[p]} | p < n && p in h'.game.alive
      ensures p in answers' <==> HasAsked(h', s'.procs[p].pc)
    {
      AskedStep(build, n, s, h, a, p);
    }
  }

  lemma SameSize(build: Build, s: State, a: Actor)
    requires Enabled(s, a)
    ensures |Do(build, s, a).procs| == |s.procs|
  {
    if s.procs != [] {
      TargetChange(build, s, a, 0);
    }
  }

  lemma AllAsked(n: nat, s: State, h: Phase, answers: map<nat, nat>)
    requires AnswersInv(n, s, h, answers) && (h.stage.Shot? || h.stage.Receiving?)
    ensures answers.Keys == h.game.alive
  {
    forall p: nat
      ensures p in answers <==> p in h.game.alive
    {
      if p in h.game.alive {
        assert s.procs[p] == s.procs[p];
      }
    }
  }

  lemma NoneAsks(h: Phase, p: nat, pc: Pc)
    requires Stands(h, p, pc) && h.stage.Receiving?
    ensures !pc.Choose?
  {
  }

  lemma AnswersEnd(build: Build, n: nat, s: State, h: Phase, a: Actor, answers: map<nat, nat>)
    requires Inv(build, n, s, h) && Enabled(s, a) && AnswersInv(n, s, h, answers)
    requires Inv(build, n, Do(build, s, a), Advance(h, Do(build, s, a)))
    requires Simulates(h, Advance(h, Do(build, s, a)), Do(build, s, a)) && Advance(h, Do(build, s, a)).game != h.game
    ensures AnswersInv(n, Do(build, s, a), Advance(h, Do(build, s, a)), map[])
    ensures answers.Keys == h.game.alive && Fires(h.game, Named(answers), Advance(h, Do(build, s, a)).game)
    ensures !Asks(s, a)
  {
    hide Inv, Do, Advance, HasAsked, Stands, Enabled, Fires, Named, AimOf, Round;
    var s' := Do(build, s, a);
    var h' := Advance(h, s');
    RoundEnds(h, s');
    AllAsked(n, s, h, answers);
    SameSize(build, s, a);
    if Asks(s, a) {
      InvStands(build, n, s, h, a.p);
      NoneAsks(h, a.p, s.procs[a.p].pc);
    }
    forall p: nat {:trigger s'.procs[p]} | p < n
      ensures p in h.game.alive ==> p in answers && s'.procs[p].target == answers[p]
      ensures p in h'.game.alive ==> !HasAsked(h', s'.procs[p].pc)
    {
      if p in h.game.alive {
        assert p in answers.Keys;
        TargetChange(build, s, a, p);
        if p in h'.game.alive {
          FreshStep(build, n, s, h, a, p);
        }
      }
    }
    NamedFires(n, s', h.game, h'.game, answers, s'.procs);
  }

  // ----- Runs -----

  lemma StartAnswers(n: nat, s: State)
    requires Init(n, s)
    ensures AnswersInv(n, s, Start(n), map[])
  {
  }

  lemma {:induction false} RunAnswers(build: Build, n: nat, run: seq<State>, acts: seq<Actor>)
    requires ActedRun(build, n, run, acts)
    ensures Run(build, n, run) && AnswersInv(n, run[|run| - 1], PhaseOf(n, run), Answers(n, run, acts))
    decreases |acts|
  {
    hide Inv, Do, Enabled, AnswersInv, Init, Answered, Advance, Run;
    ActedIsRun(build, n, run, acts);
    if acts == [] {
      StartAnswers(n, run[0]);
    } else {
      var k := |acts| - 1;
      ActedPrefix(build, n, run, acts);
      RunAnswers(build, n, run[..k + 1], acts[..k]);
      LastStep(build, n, run, acts);
      var h, answers := PhaseOf(n, run[..k + 1]), Answers(n, run[..k + 1], acts[..k]);
      if PhaseOf(n, run).game == h.game {
        AnswersStay(build, n, run[k], h, acts[k], answers);
      } else {
        AnswersEnd(build, n, run[k], h, acts[k], answers);
      }
    }
  }

  /** The last step of a run. */
  lemma LastStep(build: Build, n: nat, run: seq<State>, acts: seq<Actor>)
    requires ActedRun(build, n, run, acts) && acts != []
    ensures var k := |acts| - 1;
            var h := PhaseOf(n, run[..k + 1]);
            && Enabled(run[k], acts[k]) && run[k + 1] == Do(build, run[k], acts[k])
            && Inv(build, n, run[k], h) && PhaseOf(n, run) == Advance(h, run[k + 1])
            && Inv(build, n, run[k + 1], PhaseOf(n, run)) && Simulates(h, PhaseOf(n, run), run[k + 1])
  {
    hide Inv, Do, Enabled, Init, Simulates, Advance;
    var k := |acts| - 1;
    ActedIsRun(build, n, run, acts);
    ActedPrefix(build, n, run, acts);
    ActedIsRun(build, n, run[..k + 1], acts[..k]);
    assert acts[k] == acts[k];
    RunInv(build, n, run[..k + 1]);
    RunInv(build, n, run);
  }

  /** At the end of every round those die, of the living, whom the library has named to the players of
      that round, each of whom it has named one. */
  lemma DeadAreNamed(build: Build, n: nat, run: seq<State>, acts: seq<Actor>)
    requires ActedRun(build, n, run, acts) && acts != []
    requires PhaseOf(n, run).game != PhaseOf(n, run[..|acts|]).game
    ensures var answers := Answers(n, run[..|acts|], acts[..|acts| - 1]);
            var g, g' := PhaseOf(n, run[..|acts|]).game, PhaseOf(n, run).game;
            answers.Keys == g.alive && Fires(g, Named(answers), g')
  {
    hide Inv, Do, Enabled, AnswersInv, Init, Advance, Run, Fires, Simulates, Named, Answers;
    var k := |acts| - 1;
    ActedPrefix(build, n, run, acts);
    RunAnswers(build, n, run[..k + 1], acts[..k]);
    LastStep(build, n, run, acts);
    AnswersEnd(build, n, run[k], PhaseOf(n, run[..k + 1]), acts[k], Answers(n, run[..k + 1], acts[..k]));
  }

  /** No player asks twice in a round, and the dead do not ask. */
  lemma AskedOnce(build: Build, n: nat, run: seq<State>, acts: seq<Actor>)
    requires ActedRun(build, n, run, acts) && acts != [] && Asks(run[|acts| - 1], acts[|acts| - 1])
    ensures var p := acts[|acts| - 1].p;
            && p in PhaseOf(n, run[..|acts|]).game.alive
            && p !in Answers(n, run[..|acts|], acts[..|acts| - 1])
            && Answers(n, run, acts) == Answers(n, run[..|acts|], acts[..|acts| - 1])[p := acts[|acts| - 1].victim]
  {
    hide Inv, Do, Enabled, AnswersInv, Init, Advance, Run, Simulates, Asks;
    var k := |acts| - 1;
    ActedPrefix(build, n, run, acts);
    RunAnswers(build, n, run[..k + 1], acts[..k]);
    LastStep(build, n, run, acts);
    var h, answers := PhaseOf(n, run[..k + 1]), Answers(n, run[..k + 1], acts[..k]);
    if PhaseOf(n, run).game == h.game {
      AnswersStay(build, n, run[k], h, acts[k], answers);
    } else {
      AnswersEnd(build, n, run[k], h, acts[k], answers);
    }
  }

  /** Whoever looks whether it was hit finds a message, or the bit, exactly if the library has named it to
      somebody in this round. */
  lemma VerdictIsNamed(build: Build, n: nat, run: seq<State>, acts: seq<Actor>, p: nat)
    requires ActedRun(build, n, run, acts) && p < |run[|run| - 1].procs| && run[|run| - 1].procs[p].pc.Receive?
    ensures var s, answers := run[|run| - 1], Answers(n, run, acts);
            && answers.Keys == PhaseOf(n, run).game.alive && p in answers && |s.status| == n > p
            && (s.status[p].deadThisRound <==> p in answers.Values)
            && (build.MessageQueue? ==> (s.queue[p] > 0 <==> p in answers.Values))
  {
    hide Inv, Do, Enabled, Init, Run, Answers, IsHit;
    var s, h, answers := run[|run| - 1], PhaseOf(n, run), Answers(n, run, acts);
    RunAnswers(build, n, run, acts);
    VerdictsAgree(build, n, run, p);
    RunInv(build, n, run);
    InvStands(build, n, s, h, p);
    ReceiverStands(h, p, s.procs[p].pc);
    AllAsked(n, s, h, answers);
    HitIsNamed(n, s, h, answers, p);
  }

  lemma ReceiverStands(h: Phase, p: nat, pc: Pc)
    requires Stands(h, p, pc) && pc.Receive?
    ensures h.stage.Shot? || h.stage.Receiving?
  {
  }

  lemma HitIsNamed(n: nat, s: State, h: Phase, answers: map<nat, nat>, t: nat)
    requires AnswersInv(n, s, h, answers) && answers.Keys == h.game.alive
    ensures IsHit(s.procs, h.game.alive, t) <==> t in answers.Values
  {
    if q :| q in h.game.alive && q < |s.procs| && HasDone(Aim, s.procs[q].pc) && s.procs[q].target == t {
      assert q in answers.Keys && answers[q] == t;
    }
    if t in answers.Values {
      var q :| q in answers && answers[q] == t;
      assert q in answers.Keys && s.procs[q].target == t;
    }
  }
}
