/** What every step of `Pist2` keeps.

    The invariant relates a state of the program to the stage the current round is in and to the
    state of the atomic game (`AtomicRound.Game`).  A player that died in an earlier round may still
    be on its way out; the invariant says how little it can then do. */
module Pist2Invariant {
  import opened FiniteSets
  import opened AtomicRound
  import opened Pist2

  /** How far the current round is.  S1 is above zero exactly while `Shooting`, and S2 exactly while
      `Booting` and `Receiving`. */
  datatype Stage = Booting | Gathering | Shooting | Shot | Receiving

  datatype Phase = Phase(stage: Stage, game: Game)

  /** The phase after a step that led to `s`; the semaphores alone move it on. */
  ghost function Advance(h: Phase, s: State): Phase {
    match h.stage
    case Booting => if s.s2 == 0 then h.(stage := Gathering) else h
    case Gathering => if s.s1 > 0 then h.(stage := Shooting) else h
    case Shooting => if s.s1 == 0 then h.(stage := Shot) else h
    case Shot => if s.s2 > 0 then h.(stage := Receiving) else h
    case Receiving => if s.s2 == 0 then Phase(Gathering, Game(Survivors(s, h.game.alive), h.game.rounds + 1)) else h
  }

  ghost function Survivors(s: State, alive: set<nat>): set<nat> {
    set p | p in alive && p < |s.status| && !s.status[p].dead
  }

  // ----- Groups of program points -----

  predicate Unready(pc: Pc) {
    pc.Unborn? || pc.BootReady? || pc.BootDec?
  }

  /** From the passing of one round's end to the decrement of S1. */
  predicate Opening(pc: Pc) {
    Early(pc) || pc.Choose? || pc.ReadTarget? || pc.WriteTarget? || pc.Send? || pc.DecShot?
  }

  /** Before S1 is raised, for the coordinator. */
  predicate Early(pc: Pc) {
    pc.BootZero? || pc.ZeroReceived? || pc.AskDead? || pc.Elect? || pc.Scan? || CoordinatorOnly(pc)
  }

  predicate CoordinatorOnly(pc: Pc) {
    pc.AskLast? || pc.CountRound? || pc.CacheAlive? || pc.IncShot?
  }

  /** Has counted the round and not yet raised S1. */
  predicate Counting(pc: Pc) {
    pc.CacheAlive? || pc.IncShot?
  }

  /** The shot has been decided but S1 not been seen to be zero. */
  predicate Aiming(pc: Pc) {
    pc.ReadTarget? || pc.WriteTarget? || pc.Send? || pc.DecShot? || pc.ZeroShot?
  }

  predicate Marked(pc: Pc) {
    pc.Send? || pc.DecShot? || pc.ZeroShot?
  }

  predicate Sent(pc: Pc) {
    pc.DecShot? || pc.ZeroShot?
  }

  /** From the decrement of S1 to the decrement of S2. */
  predicate Closing(pc: Pc) {
    Unexamined(pc) || Dying(pc) || pc.DecAlive? || pc.BeReady? || pc.DecReceived?
  }

  predicate Unexamined(pc: Pc) {
    pc.ZeroShot? || pc.IncReceived? || pc.Receive?
  }

  predicate Dying(pc: Pc) {
    pc.Drain? || pc.ReadSelf? || pc.WriteSelf?
  }

  /** Has recorded its fate. */
  predicate Settled(pc: Pc) {
    pc.DecReceived? || pc.ZeroReceived?
  }

  // ----- The pieces of the invariant -----

  ghost predicate Boss(alive: set<nat>, p: nat) {
    p in alive && forall q :: q in alive ==> q <= p
  }

  ghost predicate Victim(alive: set<nat>, p: nat, t: nat) {
    t in alive && t != p
  }

  /** The players that were sent out of the game and are leaving, or left. */
  predicate Leaving(pc: Pc) {
    pc.ZeroReceived? || pc.AskDead? || pc.Gone?
  }

  /** A living player before the first barrier of the round. */
  ghost predicate OpenProc(n: nat, h: Phase, p: nat, me: Proc) {
    var alive := h.game.alive;
    && (|| Opening(me.pc)
        || (h.stage.Shooting? && me.pc.ZeroShot?)
        || (h.stage.Gathering? && me.pc.Gone? && alive == {p}))
    && (me.pc.Scan? ==> me.pc.i <= n && forall q :: me.pc.i <= q < n ==> q !in alive)
    && (CoordinatorOnly(me.pc) || me.pc.Choose? || Aiming(me.pc) ==> (me.coordinator <==> Boss(alive, p)))
    && (CoordinatorOnly(me.pc) ==> me.coordinator)
    && (me.pc.CountRound? || me.pc.CacheAlive? || me.pc.IncShot? || me.pc.Choose? || Aiming(me.pc) ==> |alive| >= 2)
    && (me.pc.IncShot? || (me.coordinator && (me.pc.Choose? || Aiming(me.pc))) ==> me.cached == |alive|)
    && (Boss(alive, p) ==> (h.stage.Gathering? <==> Early(me.pc) || me.pc.Gone?))
    && (Aiming(me.pc) ==> Victim(alive, p, me.target))
    && (me.pc.WriteTarget? ==> me.seen.ready && !me.seen.dead)
  }

  /** A living player between the two barriers; `hit` tells whether somebody shot it. */
  ghost predicate CloseProc(h: Phase, p: nat, me: Proc, hit: bool) {
    var alive := h.game.alive;
    && (Closing(me.pc) || (h.stage.Receiving? && me.pc.ZeroReceived?))
    && (me.coordinator <==> Boss(alive, p))
    && (me.pc.IncReceived? ==> me.coordinator)
    && Victim(alive, p, me.target)
    && (me.coordinator && (me.pc.ZeroShot? || me.pc.IncReceived?) ==> me.cached == |alive|)
    && (Boss(alive, p) ==> (h.stage.Shot? <==> me.pc.ZeroShot? || me.pc.IncReceived?))
    && (Dying(me.pc) || me.pc.DecAlive? ==> hit)
    && (me.pc.BeReady? ==> !hit)
    && (me.pc.WriteSelf? ==> me.seen == Status(true, true, false))
  }

  /** What a player does about its target in a round. */
  datatype Deed = Aim | Mark | Message

  predicate HasDone(deed: Deed, pc: Pc) {
    match deed
    case Aim => true
    case Mark => Marked(pc)
    case Message => Sent(pc)
  }

  ghost predicate IsVictim(deed: Deed, procs: seq<Proc>, alive: set<nat>, t: nat) {
    exists p {:trigger procs[p]} :: p in alive && p < |procs| && HasDone(deed, procs[p].pc) && procs[p].target == t
  }

  ghost predicate IsMarked(procs: seq<Proc>, alive: set<nat>, t: nat) {
    IsVictim(Mark, procs, alive, t)
  }

  ghost predicate IsSent(procs: seq<Proc>, alive: set<nat>, t: nat) {
    IsVictim(Message, procs, alive, t)
  }

  ghost predicate IsHit(procs: seq<Proc>, alive: set<nat>, t: nat) {
    IsVictim(Aim, procs, alive, t)
  }

  /** The players that have yet to come to the barrier of S1, of S2, of READY. */
  ghost function ToShoot(procs: seq<Proc>, alive: set<nat>): set<nat> {
    set p | p in alive && p < |procs| && Opening(procs[p].pc)
  }

  ghost function ToReceive(procs: seq<Proc>, alive: set<nat>): set<nat> {
    set p | p in alive && p < |procs| && Closing(procs[p].pc)
  }

  ghost function ToBoot(procs: seq<Proc>, alive: set<nat>): set<nat> {
    set p | p in alive && p < |procs| && Unready(procs[p].pc)
  }

  /** The players still counted in `alive_count`. */
  ghost function Counted(procs: seq<Proc>, alive: set<nat>): set<nat> {
    set p | p in alive && p < |procs| && !(Settled(procs[p].pc) && IsHit(procs, alive, p))
  }

  ghost predicate Shape(n: nat, s: State, h: Phase) {
    && n > 0
    && |s.procs| == |s.status| == n
    && h.game.alive <= UpTo(n)
    && h.game.rounds + |h.game.alive| <= n
  }

  /** The parent creates the children 0, 1, ...; those created wait for the rest. */
  ghost predicate BootInv(n: nat, s: State, h: Phase)
    requires Shape(n, s, h)
  {
    && h.game == Game(UpTo(n), 0)
    && (forall p {:trigger s.procs[p]} :: 0 <= p < n ==>
          (s.procs[p].pc.Unborn? <==> p >= Born(n, s.parent))
          && (Unready(s.procs[p].pc) || s.procs[p].pc.BootZero?))
    && (forall p {:trigger s.status[p]} :: 0 <= p < n ==>
          (s.procs[p].pc.BootDec? || s.procs[p].pc.BootZero? ==> s.status[p] == READY))
    && s.s1 == 0 && s.rounds == 0 && s.queue == multiset{}
    && s.s2 > 0
    && s.s2 == |ToBoot(s.procs, h.game.alive)| + (if s.parent.Reap? then 0 else 1)
    && match s.parent
       case MarkDead(k) => k <= n && s.processCount == k && s.aliveCount == k
       case Fork(k) => k < n && s.processCount == k && s.aliveCount == k
       case Register(k) => k < n && s.processCount == k && s.aliveCount == k
       case CountAlive(k) => k < n && s.processCount == k + 1 && s.aliveCount == k
       case PassReady => s.processCount == n && s.aliveCount == n
       case Reap => s.processCount == n && s.aliveCount == n
       case Over => false
  }

  function Born(n: nat, parent: ParentPc): nat {
    match parent
    case MarkDead(k) => k
    case Fork(k) => k
    case Register(k) => k + 1
    case CountAlive(k) => k + 1
    case _ => n
  }

  ghost predicate PlayInv(n: nat, s: State, h: Phase)
    requires Shape(n, s, h)
  {
    && s.processCount == n
    && (s.parent.Reap? || s.parent.Over?)
    && (s.parent.Over? ==> forall p {:trigger s.procs[p]} :: 0 <= p < n ==> s.procs[p].pc.Gone?)
    && (forall p {:trigger s.procs[p]} :: 0 <= p < n && p !in h.game.alive ==> Leaving(s.procs[p].pc))
    && (forall p {:trigger s.status[p]} :: 0 <= p < n && p !in h.game.alive ==> s.status[p].dead)
  }

  ghost predicate OpenProcs(build: Build, n: nat, procs: seq<Proc>, h: Phase)
    requires |procs| == n
  {
    && (forall p {:trigger procs[p]} :: 0 <= p < n && p in h.game.alive ==> OpenProc(n, h, p, procs[p]))
    && (build.StatusBits? ==> forall p {:trigger procs[p]} :: 0 <= p < n ==> !procs[p].pc.Send?)
  }

  ghost predicate OpenStatus(n: nat, s: State, alive: set<nat>)
    requires |s.status| == n
  {
    forall p {:trigger s.status[p]} :: 0 <= p < n && p in alive ==>
        s.status[p] == Status(true, IsMarked(s.procs, alive, p), false)
  }

  ghost predicate OpenQueue(build: Build, s: State, alive: set<nat>) {
    forall p {:trigger s.queue[p]} :: p in s.queue <==> build.MessageQueue? && p in alive && IsSent(s.procs, alive, p)
  }

  /** The coordinator counts the round before it raises S1. */
  ghost predicate RoundCounted(n: nat, procs: seq<Proc>, rounds: nat, h: Phase)
    requires |procs| == n
  {
    && (forall p: nat {:trigger procs[p]} :: p < n && Boss(h.game.alive, p) ==>
          rounds == h.game.rounds + (if h.stage.Shooting? || Counting(procs[p].pc) then 1 else 0))
    && (h.game.alive == {} ==> h.stage.Gathering? && rounds == h.game.rounds)
  }

  ghost predicate OpenCounts(n: nat, s: State, h: Phase)
    requires |s.procs| == n
  {
    var alive := h.game.alive;
    && s.s1 == (if h.stage.Shooting? then |ToShoot(s.procs, alive)| else 0)
    && (h.stage.Shooting? ==> s.s1 > 0)
    && s.s2 == 0
    && s.aliveCount == |alive|
    && RoundCounted(n, s.procs, s.rounds, h)
  }

  ghost predicate OpenInv(build: Build, n: nat, s: State, h: Phase)
    requires Shape(n, s, h)
  {
    && OpenProcs(build, n, s.procs, h)
    && OpenStatus(n, s, h.game.alive)
    && OpenQueue(build, s, h.game.alive)
    && OpenCounts(n, s, h)
  }

  ghost predicate CloseProcs(n: nat, procs: seq<Proc>, h: Phase)
    requires |procs| == n
  {
    forall p {:trigger procs[p]} :: 0 <= p < n && p in h.game.alive ==>
        CloseProc(h, p, procs[p], IsHit(procs, h.game.alive, p))
  }

  ghost predicate CloseStatus(n: nat, s: State, alive: set<nat>)
    requires |s.status| == |s.procs| == n
  {
    forall p {:trigger s.status[p]} :: 0 <= p < n && p in alive ==>
      var hit := IsHit(s.procs, alive, p);
      s.status[p] == Status(true, hit, hit && (s.procs[p].pc.DecAlive? || Settled(s.procs[p].pc)))
  }

  ghost predicate CloseQueue(build: Build, n: nat, s: State, alive: set<nat>)
    requires |s.procs| == n
  {
    && (forall p {:trigger s.queue[p]} :: p in s.queue ==>
          && build.MessageQueue? && p in alive && p < n && IsHit(s.procs, alive, p)
          && (Unexamined(s.procs[p].pc) || s.procs[p].pc.Drain?))
    && (build.MessageQueue? ==>
          forall p {:trigger s.procs[p]} :: 0 <= p < n && p in alive && IsHit(s.procs, alive, p) ==>
            Unexamined(s.procs[p].pc) ==> p in s.queue)
  }

  ghost predicate CloseCounts(s: State, h: Phase) {
    var alive := h.game.alive;
    && |alive| >= 2
    && s.s1 == 0
    && s.s2 == (if h.stage.Receiving? then |ToReceive(s.procs, alive)| else 0)
    && (h.stage.Receiving? ==> s.s2 > 0)
    && s.aliveCount == |Counted(s.procs, alive)|
    && s.rounds == h.game.rounds + 1
  }

  ghost predicate CloseInv(build: Build, n: nat, s: State, h: Phase)
    requires Shape(n, s, h)
  {
    && CloseProcs(n, s.procs, h)
    && CloseStatus(n, s, h.game.alive)
    && CloseQueue(build, n, s, h.game.alive)
    && CloseCounts(s, h)
  }

  ghost predicate Inv(build: Build, n: nat, s: State, h: Phase) {
    && Shape(n, s, h)
    && match h.stage
       case Booting => BootInv(n, s, h)
       case Gathering => PlayInv(n, s, h) && OpenInv(build, n, s, h)
       case Shooting => PlayInv(n, s, h) && OpenInv(build, n, s, h)
       case Shot => PlayInv(n, s, h) && CloseInv(build, n, s, h)
       case Receiving => PlayInv(n, s, h) && CloseInv(build, n, s, h)
  }

  /** The part of the invariant about where one player stands. */
  lemma InvProc(build: Build, n: nat, s: State, h: Phase, p: nat)
    requires Inv(build, n, s, h) && p < n
    ensures |s.procs| == |s.status| == n && h.game.alive <= UpTo(n)
    ensures h.stage.Booting? ==> Unready(s.procs[p].pc) || s.procs[p].pc.BootZero?
    ensures !h.stage.Booting? && p !in h.game.alive ==> Leaving(s.procs[p].pc)
    ensures (h.stage.Gathering? || h.stage.Shooting?) && p in h.game.alive ==> OpenProc(n, h, p, s.procs[p])
    ensures (h.stage.Shot? || h.stage.Receiving?) && p in h.game.alive ==>
        CloseProc(h, p, s.procs[p], IsHit(s.procs, h.game.alive, p))
  {
    hide OpenProc, OpenStatus, OpenQueue, OpenCounts, CloseProc, CloseStatus, CloseQueue, CloseCounts, IsHit, ToBoot;
    assert s.procs[p] == s.procs[p];
  }

  /** Where a player can stand at each stage. */
  predicate Stands(h: Phase, p: nat, pc: Pc) {
    match h.stage
    case Booting => Unready(pc) || pc.BootZero?
    case Gathering => if p in h.game.alive then Opening(pc) || pc.Gone? else Leaving(pc)
    case Shooting => if p in h.game.alive then Opening(pc) || pc.ZeroShot? else Leaving(pc)
    case Shot => if p in h.game.alive then Closing(pc) else Leaving(pc)
    case Receiving => if p in h.game.alive then Closing(pc) || pc.ZeroReceived? else Leaving(pc)
  }

  lemma OpenStands(n: nat, h: Phase, p: nat, me: Proc)
    requires OpenProc(n, h, p, me) && (h.stage.Gathering? || h.stage.Shooting?) && p in h.game.alive
    ensures Stands(h, p, me.pc)
  {
    hide Opening;
  }

  lemma CloseStands(h: Phase, p: nat, me: Proc, hit: bool)
    requires CloseProc(h, p, me, hit) && (h.stage.Shot? || h.stage.Receiving?) && p in h.game.alive
    ensures Stands(h, p, me.pc)
  {
    hide Closing;
  }

  lemma InvStands(build: Build, n: nat, s: State, h: Phase, p: nat)
    requires Inv(build, n, s, h) && p < n
    ensures |s.procs| == n && Stands(h, p, s.procs[p].pc)
  {
    hide Inv, OpenProc, CloseProc, IsHit, Opening, Closing, Leaving, Unready;
    InvProc(build, n, s, h, p);
    if (h.stage.Gathering? || h.stage.Shooting?) && p in h.game.alive {
      OpenStands(n, h, p, s.procs[p]);
    } else if (h.stage.Shot? || h.stage.Receiving?) && p in h.game.alive {
      CloseStands(h, p, s.procs[p], IsHit(s.procs, h.game.alive, p));
    }
  }

  ghost function Start(n: nat): Phase {
    Phase(Booting, Game(UpTo(n), 0))
  }

  lemma InitInv(build: Build, n: nat, s: State)
    requires Init(n, s)
    ensures Inv(build, n, s, Start(n))
  {
    assert ToBoot(s.procs, UpTo(n)) == UpTo(n);
  }
}
