/** `ssooi/pistolos.c`: the same game, run by a parent that talks to its children with signals.

    Pending signals are one bit per signal and process, so that signals sent twice before delivery
    coalesce.  A child takes a signal only while it sleeps in `sigsuspend`, and runs the handler with
    every signal blocked.  Each access to shared memory and each `kill` is one atomic step; only
    `++rounds`, which nobody but the parent does, and the final SIGKILL to all children are one step
    each. */
module Pistolos {

  /** The bits of a status word. */
  datatype Status = Status(ready: bool, shot: bool, deadThisRound: bool, dead: bool)

  const READY := Status(true, false, false, false)
  const DEAD := Status(false, false, false, true)

  /** Where a child stands.  The handler of SIGTERM runs the handler of SIGUSR1 when the child has not
      shot yet; `fake` tells that. */
  datatype Pc =
    | Unborn
    | BootReady                                // status = READY
    | BootNotify                               // SIGUSR2 to the parent
    | Waiting                                  // sigsuspend
    | Pick(fake: bool)                         // draw a random number below alive_count - 1
    | PickAt(fake: bool, i: nat, random: nat)  // look at player i, to find the random-th one
    | Shoot(fake: bool)                        // SIGTERM to the target
    | SetTarget(fake: bool)                    // me->target = target
    | ReadShot(fake: bool)                     // first half of status |= SHOT
    | WriteShot(fake: bool)                    // second half
    | NotifyShot(fake: bool)                   // SIGUSR2 to the parent
    | AskShot                                  // SIGTERM handler: have I shot?
    | ReadDead                                 // first half of status |= DEAD_THIS_ROUND
    | WriteDead                                // second half
    | NotifyDead                               // SIGUSR2 to the parent
    | Exiting
    | Gone
    | Crashed                                  // division by zero, or a null target

  /** A child: its program counter, its locals, and its pending signals. */
  datatype Child = Child(pc: Pc, aim: nat, seen: Status, usr1: bool, term: bool)

  /** Where the parent stands; `k` is the child it is at. */
  datatype ParentPc =
    | ForkMark(k: nat)                 // children k .. n-1 exist; mark child k - 1 DEAD
    | Fork(k: nat)                     // create child k - 1
    | BootScan(k: nat)                 // all_ready
    | BootSleep                        // sigsuspend
    | MarkAsk(k: nat)                  // dead in the last round?
    | MarkRead(k: nat)                 // first half of status |= DEAD
    | MarkWrite(k: nat, seen: Status)  // second half
    | MarkCount(k: nat)                // count it, if dead
    | MarkReady(k: nat)                // status = READY
    | Tally                            // is the game over?
    | CountRound                       // ++rounds
    | SetAlive                         // alive_count = count - total_dead
    | Kick(k: nat)                     // not dead?
    | KickSend(k: nat)                 // SIGUSR1 to child k
    | ScanReady(k: nat)                // round_over: status == READY?
    | ScanShot(k: nat)                 // status without SHOT?
    | ScanTarget(k: nat)               // status with SHOT?
    | ScanLook(k: nat)                 // look up its target
    | ScanHit(k: nat, target: nat)     // is the target dead this round?
    | Sleep                            // sigsuspend
    | KillAll                          // SIGKILL to every child
    | Over

  datatype State = State(parent: ParentPc, usr2: bool, children: seq<Child>, status: seq<Status>, target: seq<nat>,
                         aliveCount: nat, rounds: nat, totalDead: nat)

  /** Who moves.  A sleeping child with both signals pending may take either; `random` is what `rand`
      gives a child that draws. */
  datatype Actor = Parent | Player(p: nat, takeTerm: bool, random: nat)

  predicate Shaped(n: nat, s: State) {
    n > 0 && |s.children| == |s.status| == |s.target| == n
  }

  predicate ChildReady(c: Child, takeTerm: bool) {
    match c.pc
    case Unborn => false
    case Gone => false
    case Crashed => false
    case Waiting => if takeTerm then c.term else c.usr1
    case _ => true
  }

  predicate Enabled(n: nat, s: State, a: Actor) {
    && Shaped(n, s)
    && match a
       case Parent => !s.parent.Over? && ((s.parent.Sleep? || s.parent.BootSleep?) ==> s.usr2)
       case Player(p, takeTerm, _) => p < n && !s.parent.Over? && ChildReady(s.children[p], takeTerm)
  }

  function Go(s: State, p: nat, pc: Pc): State
    requires p < |s.children|
  {
    s.(children := s.children[p := s.children[p].(pc := pc)])
  }

  /** One turn of the loop of `child_rand_proc`, after drawing a number below alive_count - 1. */
  function DoPickAt(s: State, p: nat): (s': State)
    requires p < |s.children| && s.children[p].pc.PickAt?
  {
    var PickAt(fake, i, random) := s.children[p].pc;
    if i >= |s.status| then
      Go(s, p, Crashed)
    else if s.status[i].dead || i == p then
      Go(s, p, PickAt(fake, i + 1, random))
    else if random == 0 then
      s.(children := s.children[p := s.children[p].(pc := Shoot(fake), aim := i)])
    else
      Go(s, p, PickAt(fake, i + 1, random - 1))
  }

  /** SIGTERM becomes pending for the target. */
  function DoShoot(s: State, p: nat): (s': State)
    requires p < |s.children| && s.children[p].pc.Shoot?
  {
    var c := s.children[p];
    if c.aim < |s.children| && c.aim != p then
      s.(children := s.children[p := c.(pc := SetTarget(c.pc.fake))][c.aim := s.children[c.aim].(term := true)])
    else
      Go(s, p, Crashed)
  }

  function DoWait(s: State, p: nat, takeTerm: bool): (s': State)
    requires p < |s.children|
  {
    var c := s.children[p];
    var c' := if takeTerm then c.(pc := AskShot, term := false) else c.(pc := Pick(false), usr1 := false);
    s.(children := s.children[p := c'])
  }

  /** The next operation of child `p`. */
  function DoChild(n: nat, s: State, p: nat, takeTerm: bool, random: nat): (s': State)
    requires Shaped(n, s) && p < n
  {
    var c := s.children[p];
    match c.pc
    case BootReady => Go(s, p, BootNotify).(status := s.status[p := READY])
    case BootNotify => Go(s, p, Waiting).(usr2 := true)
    case Waiting => DoWait(s, p, takeTerm)
    case Pick(fake) => Go(s, p, if s.aliveCount <= 1 then Crashed else PickAt(fake, 0, random % (s.aliveCount - 1)))
    case PickAt(_, _, _) => DoPickAt(s, p)
    case Shoot(_) => DoShoot(s, p)
    case SetTarget(fake) => Go(s, p, ReadShot(fake)).(target := s.target[p := c.aim])
    case ReadShot(fake) => s.(children := s.children[p := c.(pc := WriteShot(fake), seen := s.status[p])])
    case WriteShot(fake) => Go(s, p, NotifyShot(fake)).(status := s.status[p := c.seen.(shot := true)])
    case NotifyShot(fake) => Go(s, p, if fake then ReadDead else Waiting).(usr2 := true)
    case AskShot => Go(s, p, if s.status[p].shot then ReadDead else Pick(true))
    case ReadDead => s.(children := s.children[p := c.(pc := WriteDead, seen := s.status[p])])
    case WriteDead => Go(s, p, NotifyDead).(status := s.status[p := c.seen.(deadThisRound := true)])
    case NotifyDead => Go(s, p, Exiting).(usr2 := true)
    case Exiting => Go(s, p, Gone)
    case _ => s
  }

  /** One turn of the loops of `parent_proc` that prepare a round. */
  function DoMark(n: nat, s: State): (s': State)
    requires Shaped(n, s)
  {
    match s.parent
    case MarkAsk(k) =>
      if k >= n then s.(parent := Tally)
      else s.(parent := if s.status[k].deadThisRound then MarkRead(k) else MarkCount(k))
    case MarkRead(k) => if k >= n then s else s.(parent := MarkWrite(k, s.status[k]))
    case MarkWrite(k, seen) =>
      if k >= n then s else s.(parent := MarkCount(k), status := s.status[k := seen.(dead := true)])
    case MarkCount(k) =>
      if k >= n then s
      else if s.status[k].dead then s.(parent := MarkAsk(k + 1), totalDead := s.totalDead + 1)
      else s.(parent := MarkReady(k))
    case MarkReady(k) => if k >= n then s else s.(parent := MarkAsk(k + 1), status := s.status[k := READY])
    case Tally => s.(parent := if s.totalDead == n || s.totalDead == n - 1 then KillAll else CountRound)
    case CountRound => s.(parent := SetAlive, rounds := s.rounds + 1)
    case SetAlive => s.(parent := Kick(0), aliveCount := if s.totalDead <= n then n - s.totalDead else 0)
    case _ => s
  }

  /** SIGUSR1 to every child that is not dead; then one access of `round_over` at a time. */
  function DoFire(n: nat, s: State): (s': State)
    requires Shaped(n, s)
  {
    match s.parent
    case Kick(k) =>
      if k >= n then s.(parent := ScanReady(0))
      else s.(parent := if s.status[k].dead then Kick(k + 1) else KickSend(k))
    case KickSend(k) =>
      if k >= n then s else s.(parent := Kick(k + 1), children := s.children[k := s.children[k].(usr1 := true)])
    case ScanReady(k) =>
      if k >= n then s.(parent := MarkAsk(0), totalDead := 0)
      else s.(parent := if s.status[k] == READY then Sleep else ScanShot(k))
    case ScanShot(k) => if k >= n then s else s.(parent := if s.status[k].shot then ScanTarget(k) else Sleep)
    case ScanTarget(k) =>
      if k >= n then s else s.(parent := if s.status[k].shot then ScanLook(k) else ScanReady(k + 1))
    case ScanLook(k) => if k >= n then s else s.(parent := ScanHit(k, s.target[k]))
    case ScanHit(k, t) => if t >= n then s else s.(parent := if s.status[t].deadThisRound then ScanReady(k + 1) else Sleep)
    case Sleep => s.(parent := ScanReady(0), usr2 := false)
    case _ => s
  }

  function DoBoot(n: nat, s: State): (s': State)
    requires Shaped(n, s)
  {
    match s.parent
    case ForkMark(k) =>
      if k == 0 then s.(parent := BootScan(0))
      else if k > n then s
      else s.(parent := Fork(k), status := s.status[k - 1 := DEAD])
    case Fork(k) => if k == 0 || k > n then s else Go(s, k - 1, BootReady).(parent := ForkMark(k - 1))
    case BootScan(k) =>
      if k >= n then s.(parent := MarkAsk(0), totalDead := 0)
      else s.(parent := if s.status[k] == READY then BootScan(k + 1) else BootSleep)
    case BootSleep => s.(parent := BootScan(0), usr2 := false)
    case _ => s
  }

  function DoParent(n: nat, s: State): (s': State)
    requires Shaped(n, s)
  {
    if s.parent.ForkMark? || s.parent.Fork? || s.parent.BootScan? || s.parent.BootSleep? then
      DoBoot(n, s)
    else if s.parent.Kick? || s.parent.KickSend? || s.parent.ScanReady? || s.parent.ScanShot?
            || s.parent.ScanTarget? || s.parent.ScanLook? || s.parent.ScanHit? || s.parent.Sleep? then
      DoFire(n, s)
    else if s.parent.KillAll? then
      s.(parent := Over, children := seq(n, i requires 0 <= i < n => s.children[i].(pc := Gone)))
    else
      DoMark(n, s)
  }

  function Do(n: nat, s: State, a: Actor): State
    requires Enabled(n, s, a)
  {
    match a
    case Parent => DoParent(n, s)
    case Player(p, takeTerm, random) => DoChild(n, s, p, takeTerm, random)
  }

  ghost predicate Next(n: nat, s: State, s': State) {
    exists a :: Enabled(n, s, a) && s' == Do(n, s, a)
  }

  ghost predicate Init(n: nat, s: State) {
    && Shaped(n, s)
    && s.parent == ForkMark(n) && !s.usr2
    && (forall p :: 0 <= p < n ==> s.children[p].pc.Unborn? && !s.children[p].usr1 && !s.children[p].term)
    && s.rounds == 0 && s.totalDead == 0
  }

  ghost predicate Run(n: nat, run: seq<State>) {
    |run| > 0 && Init(n, run[0]) && forall i :: 0 < i < |run| ==> Next(n, run[i - 1], run[i])
  }

  ghost predicate Stuck(n: nat, s: State) {
    forall a :: !Enabled(n, s, a)
  }
}
