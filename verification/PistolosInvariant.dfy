/** What every step of `Pistolos` keeps.

    The stage of the game can be read off the parent's program counter; the invariant relates the rest
    of the state to it and to the state of the atomic game (`AtomicRound.Game`). */
module PistolosInvariant {
  import opened FiniteSets
  import opened AtomicRound
  import opened Pistolos

  // ----- Groups of program points -----

  predicate Booting(parent: ParentPc) {
    parent.ForkMark? || parent.Fork? || parent.BootScan? || parent.BootSleep?
  }

  predicate Marking(parent: ParentPc) {
    || parent.MarkAsk? || parent.MarkRead? || parent.MarkWrite? || parent.MarkCount? || parent.MarkReady?
    || parent.Tally? || parent.CountRound? || parent.SetAlive? || parent.KillAll?
  }

  predicate Firing(parent: ParentPc) {
    || Kicking(parent) || parent.ScanReady? || parent.ScanShot?
    || parent.ScanTarget? || parent.ScanLook? || parent.ScanHit? || parent.Sleep?
  }

  predicate Kicking(parent: ParentPc) {
    parent.Kick? || parent.KickSend?
  }

  /** In the SIGUSR1 handler, on behalf of the SIGTERM handler or not, before the bit SHOT is set. */
  predicate PreShot(pc: Pc) {
    pc.Pick? || pc.PickAt? || pc.Shoot? || Killed(pc)
  }

  /** The SIGTERM has been sent but the bit SHOT is not set yet. */
  predicate Killed(pc: Pc) {
    pc.SetTarget? || pc.ReadShot? || pc.WriteShot?
  }

  predicate Fake(pc: Pc) {
    (PreShot(pc) || pc.NotifyShot?) && pc.fake
  }

  /** Outside the handlers, or finishing the SIGUSR1 handler. */
  predicate Idle(pc: Pc) {
    pc.BootNotify? || pc.Waiting? || (pc.NotifyShot? && !pc.fake)
  }

  /** The bit DEAD_THIS_ROUND is set. */
  predicate Leaving(pc: Pc) {
    pc.NotifyDead? || pc.Exiting? || pc.Gone?
  }

  /** The SIGTERM handler has been entered, never to return. */
  predicate TermPath(pc: Pc) {
    Fake(pc) || pc.AskShot? || pc.ReadDead? || pc.WriteDead? || Leaving(pc)
  }

  predicate HasTerm(c: Child) {
    c.term || TermPath(c.pc)
  }

  /** This child's SIGTERM of this round has been sent. */
  predicate Fired(c: Child, w: Status) {
    w.shot || Killed(c.pc)
  }

  /** The parent has still to hear from this child. */
  predicate WillNotify(c: Child, w: Status) {
    !w.shot || c.pc.NotifyShot? || (HasTerm(c) && !c.pc.Exiting? && !c.pc.Gone?)
  }

  /** SIGUSR1 has been sent to child `q` in this round. */
  predicate Kicked(parent: ParentPc, q: nat) {
    Kicking(parent) ==> q < parent.k
  }

  // ----- The pieces of the invariant -----

  /** The players that `child_rand_proc` has still to pass. */
  ghost function Candidates(alive: set<nat>, p: nat, i: nat): set<nat> {
    set q | q in alive && q >= i && q != p
  }

  /** The players that `child_rand_proc` has passed. */
  ghost function Passed(alive: set<nat>, p: nat, i: nat): set<nat> {
    set q | q in alive && q < i && q != p
  }

  /** A living child while the round is on. */
  ghost predicate FireChild(n: nat, alive: set<nat>, kicked: bool, q: nat, c: Child, w: Status, target: nat) {
    && w.ready && !w.dead && (w.deadThisRound <==> Leaving(c.pc))
    && (Idle(c.pc) || PreShot(c.pc) || TermPath(c.pc))
    && (PreShot(c.pc) || c.pc.BootNotify? ==> !w.shot)
    && (c.pc.ReadDead? || c.pc.WriteDead? || Leaving(c.pc) || (Fake(c.pc) && c.pc.NotifyShot?) ==> w.shot)
    && (Idle(c.pc) ==> (c.usr1 <==> kicked && !w.shot))
    && (PreShot(c.pc) && !Fake(c.pc) ==> kicked && !c.usr1)
    && (!kicked && w.shot ==> TermPath(c.pc))
    && (c.pc.PickAt? ==> c.pc.random < |Candidates(alive, q, c.pc.i)|)
    && (c.pc.Shoot? || Fired(c, w) ==> c.aim in alive && c.aim != q)
    && (w.shot || c.pc.ReadShot? || c.pc.WriteShot? ==> target == c.aim)
    && (c.pc.WriteShot? || c.pc.WriteDead? ==> c.seen == w)
  }

  /** Some living player has sent SIGTERM to `t` in this round. */
  ghost predicate Targeted(children: seq<Child>, status: seq<Status>, alive: set<nat>, t: nat) {
    exists p {:trigger children[p]} ::
      p in alive && p < |children| && p < |status| && Fired(children[p], status[p]) && children[p].aim == t
  }

  ghost predicate FireChildren(n: nat, s: State, alive: set<nat>)
    requires Shaped(n, s)
  {
    forall q {:trigger s.children[q]} :: 0 <= q < n && q in alive ==>
      FireChild(n, alive, Kicked(s.parent, q), q, s.children[q], s.status[q], s.target[q])
  }

  /** SIGTERM reaches exactly the players that were aimed at. */
  ghost predicate FireHits(n: nat, s: State, alive: set<nat>)
    requires Shaped(n, s)
  {
    forall t {:trigger s.children[t]} :: 0 <= t < n && t in alive ==>
      (HasTerm(s.children[t]) <==> Targeted(s.children, s.status, alive, t))
  }

  /** A player that died in an earlier round, or has just been found dead: it and its own target have
      the bit DEAD_THIS_ROUND, so that `round_over` never stumbles over it. */
  ghost predicate OutChildren(n: nat, s: State, alive: set<nat>)
    requires Shaped(n, s)
  {
    && (forall q {:trigger s.children[q]} :: 0 <= q < n && q !in alive ==> Leaving(s.children[q].pc))
    && (forall q {:trigger Finished(n, s, q)} :: 0 <= q < n && q !in alive ==> Finished(n, s, q))
    && (forall q {:trigger s.status[q]} :: 0 <= q < n && q !in alive ==> s.status[q].deadThisRound)
  }

  /** What `round_over` looks for in one child. */
  ghost predicate Finished(n: nat, s: State, q: nat)
    requires Shaped(n, s) && q < n
  {
    s.status[q].shot && s.target[q] < n && s.status[s.target[q]].deadThisRound
  }

  ghost predicate SomeoneWillNotify(s: State, alive: set<nat>) {
    exists q {:trigger s.children[q]} ::
      q in alive && q < |s.children| && q < |s.status| && WillNotify(s.children[q], s.status[q])
  }

  /** The parent in `round_over`: what it has seen still holds; and asleep, it will be woken. */
  ghost predicate ScanInv(n: nat, s: State, alive: set<nat>)
    requires Shaped(n, s)
  {
    match s.parent
    case Kick(k) => k <= n
    case KickSend(k) => k < n && k in alive
    case ScanReady(k) => k <= n && Seen(n, s, k)
    case ScanShot(k) => k < n && Seen(n, s, k)
    case ScanTarget(k) => k < n && Seen(n, s, k) && s.status[k].shot
    case ScanLook(k) => k < n && Seen(n, s, k) && s.status[k].shot
    case ScanHit(k, t) => k < n && Seen(n, s, k) && s.status[k].shot && t == s.target[k]
    case Sleep => s.usr2 || SomeoneWillNotify(s, alive)
    case _ => false
  }

  ghost predicate Seen(n: nat, s: State, k: nat)
    requires Shaped(n, s) && k <= n
  {
    forall q {:trigger Finished(n, s, q)} :: 0 <= q < k ==> Finished(n, s, q)
  }

  ghost predicate FireInv(n: nat, s: State, g: Game)
    requires Shaped(n, s)
  {
    && |g.alive| >= 2 && s.aliveCount == |g.alive| && s.rounds == g.rounds + 1
    && OutChildren(n, s, g.alive)
    && (forall q {:trigger s.status[q]} :: 0 <= q < n && q !in g.alive ==> s.status[q].dead)
    && FireChildren(n, s, g.alive)
    && FireHits(n, s, g.alive)
    && ScanInv(n, s, g.alive)
  }

  /** The children below this one are already prepared for the next round. */
  function Prepared(n: nat, parent: ParentPc): nat {
    match parent
    case MarkAsk(k) => k
    case MarkRead(k) => k
    case MarkWrite(k, _) => k
    case MarkCount(k) => k
    case MarkReady(k) => k
    case _ => n
  }

  ghost predicate MarkChild(prepared: bool, c: Child, w: Status) {
    && Idle(c.pc) && !c.usr1 && !c.term
    && w.ready && !w.dead && !w.deadThisRound
    && (prepared ==> w == READY)
  }

  ghost function Dead(alive: set<nat>, k: nat): set<nat> {
    UpTo(k) - alive
  }

  ghost predicate MarkAt(n: nat, s: State, alive: set<nat>)
    requires Shaped(n, s)
  {
    match s.parent
    case MarkAsk(k) => k <= n && s.totalDead == |Dead(alive, k)|
    case MarkRead(k) => k < n && k !in alive && s.totalDead == |Dead(alive, k)|
    case MarkWrite(k, seen) => k < n && k !in alive && seen == s.status[k] && s.totalDead == |Dead(alive, k)|
    case MarkCount(k) => k < n && (k !in alive ==> s.status[k].dead) && s.totalDead == |Dead(alive, k)|
    case MarkReady(k) => k < n && k in alive && s.totalDead == |Dead(alive, k)|
    case Tally => s.totalDead == |Dead(alive, n)|
    case CountRound => s.totalDead == |Dead(alive, n)| && |alive| >= 2
    case SetAlive => s.totalDead == |Dead(alive, n)| && |alive| >= 2
    case KillAll => |alive| <= 1
    case _ => false
  }

  ghost predicate MarkDead(n: nat, status: seq<Status>, alive: set<nat>, prepared: nat)
    requires |status| == n
  {
    forall q {:trigger status[q]} :: 0 <= q < n && q !in alive && q < prepared ==> status[q].dead
  }

  ghost predicate MarkChildren(n: nat, children: seq<Child>, status: seq<Status>, alive: set<nat>, prepared: nat)
    requires |children| == |status| == n
  {
    forall q {:trigger children[q]} :: 0 <= q < n && q in alive ==> MarkChild(q < prepared, children[q], status[q])
  }

  ghost predicate MarkInv(n: nat, s: State, g: Game)
    requires Shaped(n, s)
  {
    && s.rounds == g.rounds + (if s.parent.SetAlive? then 1 else 0)
    && OutChildren(n, s, g.alive)
    && MarkDead(n, s.status, g.alive, Prepared(n, s.parent))
    && MarkChildren(n, s.children, s.status, g.alive, Prepared(n, s.parent))
    && MarkAt(n, s, g.alive)
  }

  ghost predicate BootChild(born: bool, c: Child, w: Status) {
    && !c.usr1 && !c.term
    && (if born then c.pc.BootReady? || c.pc.BootNotify? || c.pc.Waiting? else c.pc.Unborn?)
    && (c.pc.BootReady? ==> w == DEAD)
    && (c.pc.BootNotify? || c.pc.Waiting? ==> w == READY)
  }

  ghost predicate BootInv(n: nat, s: State, g: Game)
    requires Shaped(n, s)
  {
    && g == Game(UpTo(n), 0) && s.rounds == 0
    && (forall q {:trigger s.children[q]} :: 0 <= q < n ==> BootChild(q >= Unforked(s.parent), s.children[q], s.status[q]))
    && match s.parent
       case ForkMark(k) => k <= n
       case Fork(k) => 0 < k <= n && s.status[k - 1] == DEAD
       case BootScan(k) => k <= n && forall q {:trigger s.status[q]} :: 0 <= q < k ==> s.status[q] == READY
       case BootSleep =>
         s.usr2 ||
         exists q {:trigger s.children[q]} :: 0 <= q < n && (s.children[q].pc.BootReady? || s.children[q].pc.BootNotify?)
       case _ => false
  }

  function Unforked(parent: ParentPc): nat {
    match parent
    case ForkMark(k) => k
    case Fork(k) => k
    case _ => 0
  }

  ghost predicate Base(n: nat, s: State, g: Game) {
    && Shaped(n, s)
    && g.alive <= UpTo(n)
    && g.rounds + |g.alive| <= n
  }

  ghost predicate Inv(n: nat, s: State, g: Game) {
    && Base(n, s, g)
    && if Booting(s.parent) then BootInv(n, s, g)
       else if Marking(s.parent) then MarkInv(n, s, g)
       else if Firing(s.parent) then FireInv(n, s, g)
       else |g.alive| <= 1 && s.rounds == g.rounds
            && (forall q {:trigger s.children[q]} :: 0 <= q < n ==> s.children[q].pc.Gone?)
            && (forall q {:trigger s.status[q]} :: 0 <= q < n ==> (q in g.alive <==> !s.status[q].deadThisRound))
  }

  ghost function Living(s: State, alive: set<nat>): set<nat> {
    set q | q in alive && q < |s.status| && !s.status[q].deadThisRound
  }

  /** A round is over at the instant `round_over` has seen the last child finished. */
  ghost function Advance(g: Game, s: State, s': State): Game {
    if s.parent.ScanReady? && s'.parent.MarkAsk? then Game(Living(s, g.alive), g.rounds + 1) else g
  }

  ghost function Start(n: nat): Game {
    Game(UpTo(n), 0)
  }

  lemma InitInv(n: nat, s: State)
    requires Init(n, s)
    ensures Inv(n, s, Start(n))
  {
  }
}
