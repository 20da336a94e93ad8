/** Every run of `Pistolos` is finite, without any fairness assumption: the parent only scans again
    when a SIGUSR2 has woken it, and the children can send it only so many. */
module PistolosTermination {
  import opened FiniteSets
  import opened AtomicRound
  import opened Pistolos
  import opened PistolosInvariant
  import opened PistolosSteps
  import opened PistolosRuns

  /** The steps a child has before it, at most, until the end of the round; `shot` tells a child that
      has shot in the round under way. */
  ghost function Weight(n: nat, pc: Pc, shot: bool): nat {
    match pc
    case Unborn => n + 18
    case BootReady => n + 17
    case BootNotify => n + 16
    case NotifyShot(_) => if shot then 7 else n + 16
    case Waiting => if shot then 6 else n + 15
    case AskShot => if shot then 5 else n + 14
    case Pick(_) => n + 13
    case PickAt(_, i, _) => if i <= n then 12 + n - i else 12
    case Shoot(_) => 11
    case SetTarget(_) => 10
    case ReadShot(_) => 9
    case WriteShot(_) => 8
    case ReadDead => 4
    case WriteDead => 3
    case NotifyDead => 2
    case Exiting => 1
    case Gone => 0
    case Crashed => 0
  }

  ghost predicate HasShot(s: State, q: nat) {
    Firing(s.parent) && q < |s.status| && s.status[q].shot
  }

  ghost function ChildWork(n: nat, s: State, q: nat): nat {
    if q < |s.children| then Weight(n, s.children[q].pc, HasShot(s, q)) else 0
  }

  ghost function Work(n: nat, s: State, k: nat): nat {
    if k == 0 then 0 else Work(n, s, k - 1) + ChildWork(n, s, k - 1)
  }

  /** How far the parent can get without being woken. */
  ghost function ParentWork(n: nat, parent: ParentPc): nat {
    match parent
    case ForkMark(k) => 13 * n + 8 + 2 * k
    case Fork(k) => 13 * n + 7 + 2 * k
    case BootScan(k) => 12 * n + 7 + Left(n, k)
    case BootSleep => 12 * n + 7
    case MarkAsk(k) => 7 * n + 6 + 5 * Left(n, k)
    case MarkRead(k) => 7 * n + 5 + 5 * Left(n, k)
    case MarkWrite(k, _) => 7 * n + 4 + 5 * Left(n, k)
    case MarkCount(k) => 7 * n + 3 + 5 * Left(n, k)
    case MarkReady(k) => 7 * n + 2 + 5 * Left(n, k)
    case Tally => 7 * n + 5
    case CountRound => 7 * n + 4
    case SetAlive => 7 * n + 3
    case Kick(k) => 5 * n + 2 + 2 * Left(n, k)
    case KickSend(k) => 5 * n + 1 + 2 * Left(n, k)
    case ScanReady(k) => 1 + 5 * Left(n, k)
    case ScanShot(k) => 5 * Left(n, k)
    case ScanTarget(k) => if k < n then 5 * (n - k) - 1 else 0
    case ScanLook(k) => if k < n then 5 * (n - k) - 2 else 0
    case ScanHit(k, _) => if k < n then 5 * (n - k) - 3 else 0
    case Sleep => 0
    case KillAll => 1
    case Over => 0
  }

  ghost function Left(n: nat, k: nat): nat {
    if k <= n then n - k else 0
  }

  /** A child's step is worth one wake-up of the parent and one step more. */
  ghost function Wake(n: nat): nat {
    5 * n + 4
  }

  /** a * b, as a sum. */
  ghost function Times(a: nat, b: nat): nat {
    if a == 0 then 0 else Times(a - 1, b) + b
  }

  lemma {:induction false} TimesGrows(a: nat, a': nat, b: nat)
    requires a <= a'
    ensures Times(a, b) <= Times(a', b)
    decreases a'
  {
    if a < a' {
      TimesGrows(a, a' - 1, b);
    }
  }

  /** The work of one round exceeds what can be regained when a round ends. */
  ghost function RoundWork(n: nat): nat {
    Times(Times(n, n + 18), Wake(n)) + Wake(n) + 12 * n + 7
  }

  ghost function Measure(n: nat, s: State, g: Game): nat {
    Times(|g.alive|, RoundWork(n)) + Times(Work(n, s, n), Wake(n))
    + (if s.usr2 then Wake(n) - 1 else 0) + ParentWork(n, s.parent)
  }

  lemma {:induction false} WorkBound(n: nat, s: State, k: nat)
    ensures Work(n, s, k) <= Times(k, n + 18)
  {
    if k > 0 {
      WorkBound(n, s, k - 1);
    }
  }

  /** When one child moves, the total changes by what its own weight changes. */
  lemma {:induction false} WorkChange(n: nat, s: State, s': State, p: nat, k: nat)
    requires forall q {:trigger ChildWork(n, s', q)} :: 0 <= q < k && q != p ==> ChildWork(n, s', q) == ChildWork(n, s, q)
    ensures Work(n, s', k) - Work(n, s, k) == if p < k then ChildWork(n, s', p) - ChildWork(n, s, p) else 0
  {
    hide ChildWork;
    if k > 0 {
      WorkChange(n, s, s', p, k - 1);
      assert ChildWork(n, s', k - 1) == ChildWork(n, s', k - 1);
    }
  }

  // ----- A child's step lowers its own weight -----

  /** Where one step of a child can lead; `shot` and `shot'` tell whether it has shot in the round under
      way, before and after. */
  predicate Moves(n: nat, pc: Pc, shot: bool, next: Pc, shot': bool) {
    match pc
    case BootReady => next.BootNotify?
    case BootNotify => next.Waiting? && shot' == shot
    case NotifyShot(fake) => if fake then next.ReadDead? else next.Waiting? && shot' == shot
    case Waiting => (next.AskShot? && shot' == shot) || (next.Pick? && !shot)
    case AskShot => next.ReadDead? || (next.Pick? && !shot)
    case Pick(_) => next.Crashed? || (next.PickAt? && next.i == 0)
    case PickAt(_, i, _) => next.Crashed? || (i < n && (next.Shoot? || (next.PickAt? && next.i == i + 1)))
    case Shoot(_) => next.Crashed? || next.SetTarget?
    case SetTarget(_) => next.ReadShot?
    case ReadShot(_) => next.WriteShot?
    case WriteShot(_) => next.NotifyShot? && shot'
    case ReadDead => next.WriteDead?
    case WriteDead => next.NotifyDead?
    case NotifyDead => next.Exiting?
    case Exiting => next.Gone?
    case _ => false
  }

  lemma MovesIsDown(n: nat, pc: Pc, shot: bool, next: Pc, shot': bool)
    requires Moves(n, pc, shot, next, shot')
    ensures Weight(n, next, shot') < Weight(n, pc, shot)
  {
  }

  /** The child's position and its shot, as `Moves` sees them. */
  ghost predicate Moved(n: nat, s: State, s': State, p: nat)
    requires p < |s.children| && p < |s'.children|
  {
    Moves(n, s.children[p].pc, HasShot(s, p), s'.children[p].pc, HasShot(s', p))
  }

  lemma PickAtMoves(n: nat, s: State, p: nat)
    requires Shaped(n, s) && p < n && s.children[p].pc.PickAt?
    ensures Moved(n, s, DoPickAt(s, p), p)
  {
  }

  lemma ShootMoves(n: nat, s: State, p: nat)
    requires Shaped(n, s) && p < n && s.children[p].pc.Shoot?
    ensures Moved(n, s, DoShoot(s, p), p)
  {
  }

  lemma WaitMoves(n: nat, s: State, p: nat, takeTerm: bool)
    requires Shaped(n, s) && p < n && s.children[p].pc.Waiting? && (takeTerm || !HasShot(s, p))
    ensures Moved(n, s, DoWait(s, p, takeTerm), p)
  {
  }

  lemma DrawMoves(n: nat, s: State, p: nat, takeTerm: bool, random: nat)
    requires Shaped(n, s) && p < n && s.children[p].pc.Pick?
    ensures Moved(n, s, DoChild(n, s, p, takeTerm, random), p)
  {
    hide DoPickAt, DoShoot, DoWait;
  }

  lemma ShotMoves(n: nat, s: State, p: nat, takeTerm: bool, random: nat)
    requires Shaped(n, s) && p < n
    requires var pc := s.children[p].pc;
             pc.SetTarget? || pc.ReadShot? || (pc.WriteShot? && Firing(s.parent)) || pc.NotifyShot?
    ensures Moved(n, s, DoChild(n, s, p, takeTerm, random), p)
  {
    hide DoPickAt, DoShoot, DoWait;
  }

  lemma OtherMoves(n: nat, s: State, p: nat, takeTerm: bool, random: nat)
    requires Shaped(n, s) && p < n
    requires var pc := s.children[p].pc;
             pc.BootReady? || pc.BootNotify? || pc.AskShot? || pc.ReadDead? || pc.WriteDead? || pc.NotifyDead? || pc.Exiting?
    ensures Moved(n, s, DoChild(n, s, p, takeTerm, random), p)
  {
    hide DoPickAt, DoShoot, DoWait;
  }

  /** A child's step lowers its weight: it only shoots while a round is under way, and only takes a
      SIGUSR1 if it has not yet shot. */
  lemma OwnProgress(n: nat, s: State, p: nat, takeTerm: bool, random: nat)
    requires Shaped(n, s) && p < n && ChildReady(s.children[p], takeTerm)
    requires s.children[p].pc.Waiting? ==> takeTerm || !HasShot(s, p)
    requires s.children[p].pc.WriteShot? ==> Firing(s.parent)
    ensures var s' := DoChild(n, s, p, takeTerm, random);
            Shaped(n, s') && ChildWork(n, s', p) < ChildWork(n, s, p)
  {
    hide DoChild, DoPickAt, DoShoot, DoWait, Moves, HasShot, Weight;
    DoPicks(n, s, p, takeTerm, random);
    ChildSends(n, s, p, takeTerm, random, p);
    var pc, s' := s.children[p].pc, DoChild(n, s, p, takeTerm, random);
    if pc.PickAt? {
      PickAtMoves(n, s, p);
    } else if pc.Shoot? {
      ShootMoves(n, s, p);
    } else if pc.Waiting? {
      WaitMoves(n, s, p, takeTerm);
    } else if pc.Pick? {
      DrawMoves(n, s, p, takeTerm, random);
    } else if pc.SetTarget? || pc.ReadShot? || pc.WriteShot? || pc.NotifyShot? {
      ShotMoves(n, s, p, takeTerm, random);
    } else {
      OtherMoves(n, s, p, takeTerm, random);
    }
    MovesIsDown(n, pc, HasShot(s, p), s'.children[p].pc, HasShot(s', p));
  }

  lemma SelfSigned(n: nat, s: State, g: Game, p: nat)
    requires Shaped(n, s) && p < n && FireSelf(n, s, g, p)
    ensures s.children[p].pc.Waiting? && s.children[p].usr1 ==> !s.status[p].shot
  {
    hide Targeted, Candidates;
  }

  lemma BootPc(n: nat, s: State, g: Game, p: nat, takeTerm: bool)
    requires Boots(n, s, g) && p < n && ChildReady(s.children[p], takeTerm)
    ensures s.children[p].pc.BootReady? || s.children[p].pc.BootNotify?
  {
    assert s.children[p] == s.children[p];
  }

  lemma ChildProgress(n: nat, s: State, g: Game, p: nat, takeTerm: bool, random: nat)
    requires Inv(n, s, g) && Enabled(n, s, Player(p, takeTerm, random))
    ensures var s' := DoChild(n, s, p, takeTerm, random);
            Shaped(n, s') && ChildWork(n, s', p) < ChildWork(n, s, p)
  {
    hide Inv, DoChild, InRound, Marks, Boots, ChildWork, FireSelf, Advance;
    Stages(n, s, g);
    if Booting(s.parent) {
      BootPc(n, s, g, p, takeTerm);
    } else if Marking(s.parent) {
      MarkChildStep(n, s, g, p, takeTerm, random);
    } else if p in g.alive {
      FiresSelf(n, s, g, p);
      SelfSigned(n, s, g, p);
    } else {
      OutPc(n, s, g, p);
    }
    OwnProgress(n, s, p, takeTerm, random);
  }

  lemma ChildMeasure(n: nat, s: State, g: Game, p: nat, takeTerm: bool, random: nat)
    requires Inv(n, s, g) && Enabled(n, s, Player(p, takeTerm, random))
    ensures var s' := DoChild(n, s, p, takeTerm, random);
            Measure(n, s', Advance(g, s, s')) < Measure(n, s, g)
  {
    hide Inv, DoChild, RoundWork, ParentWork, Weight;
    var s' := DoChild(n, s, p, takeTerm, random);
    ChildProgress(n, s, g, p, takeTerm, random);
    ChildKeeps(n, s, p, takeTerm, random);
    forall q {:trigger ChildWork(n, s', q)} | 0 <= q < n && q != p
      ensures ChildWork(n, s', q) == ChildWork(n, s, q)
    {
      ChildSends(n, s, p, takeTerm, random, q);
    }
    WorkChange(n, s, s', p, n);
    WakePays(n, Work(n, s', n), Work(n, s, n));
  }

  lemma WakePays(n: nat, work': nat, work: nat)
    requires work' < work
    ensures Times(work', Wake(n)) + Wake(n) <= Times(work, Wake(n))
  {
    TimesGrows(work' + 1, work, Wake(n));
  }

  // ----- The parent -----

  lemma RoundMeasure(n: nat, s: State, s': State, g: Game, g': Game)
    requires Round(g, g') && s'.parent == MarkAsk(0) && s'.usr2 == s.usr2
    ensures Measure(n, s', g') < Measure(n, s, g)
  {
    hide Work, Round, Times;
    RoundKills(g, g');
    WorkBound(n, s', n);
    TimesGrows(Work(n, s', n), Times(n, n + 18), Wake(n));
    RoundPays(n, |g.alive|, |g'.alive|, Times(Work(n, s', n), Wake(n)) + (if s.usr2 then Wake(n) - 1 else 0) + 12 * n + 6);
  }

  lemma RoundPays(n: nat, a: nat, a': nat, regained: nat)
    requires a' < a && regained < RoundWork(n)
    ensures Times(a', RoundWork(n)) + regained < Times(a, RoundWork(n))
  {
    TimesGrows(a' + 1, a, RoundWork(n));
  }

  lemma FireParent(n: nat, s: State, q: nat)
    requires Shaped(n, s) && Firing(s.parent) && !(s.parent.ScanReady? && s.parent.k >= n)
    ensures var s' := DoFire(n, s);
            && (Firing(s'.parent) && q < n ==> ChildWork(n, s', q) == ChildWork(n, s, q))
            && (s.parent.Sleep? ==> !s'.usr2 && s'.parent == ScanReady(0))
            && (!s.parent.Sleep? ==> s'.usr2 == s.usr2)
  {
    hide Weight;
  }

  lemma FireBound(n: nat, s: State, g: Game)
    requires InRound(n, s, g)
    ensures Shaped(n, s) && Firing(s.parent)
    ensures s.parent.Kick? || s.parent.ScanReady? ==> s.parent.k <= n
    ensures s.parent.KickSend? || s.parent.ScanShot? || s.parent.ScanTarget? || s.parent.ScanLook? || s.parent.ScanHit? ==>
              s.parent.k < n
    ensures s.parent.ScanHit? ==> s.parent.target < n
  {
    hide FireChildren, FireHits, OutChildren;
    if s.parent.ScanHit? {
      ScanTargets(n, s, g, s.parent.k);
    }
  }

  /** Where one access of the parent in a round, or between two, can lead. */
  predicate Onward(n: nat, parent: ParentPc, next: ParentPc) {
    match parent
    case Kick(k) => if k < n then next == Kick(k + 1) || next == KickSend(k) else k == n && next == ScanReady(0)
    case KickSend(k) => k < n && next == Kick(k + 1)
    case ScanReady(k) => k < n && (next == Sleep || next == ScanShot(k))
    case ScanShot(k) => k < n && (next == Sleep || next == ScanTarget(k))
    case ScanTarget(k) => k < n && (next == ScanLook(k) || next == ScanReady(k + 1))
    case ScanLook(k) => k < n && next.ScanHit? && next.k == k
    case ScanHit(k, _) => k < n && (next == Sleep || next == ScanReady(k + 1))
    case MarkAsk(k) => if k < n then next == MarkRead(k) || next == MarkCount(k) else k == n && next == Tally
    case MarkRead(k) => k < n && next.MarkWrite? && next.k == k
    case MarkWrite(k, _) => k < n && next == MarkCount(k)
    case MarkCount(k) => k < n && (next == MarkAsk(k + 1) || next == MarkReady(k))
    case MarkReady(k) => k < n && next == MarkAsk(k + 1)
    case Tally => next == KillAll || next == CountRound
    case CountRound => next == SetAlive
    case SetAlive => next == Kick(0)
    case _ => false
  }

  lemma OnwardIsDown(n: nat, parent: ParentPc, next: ParentPc)
    requires Onward(n, parent, next)
    ensures ParentWork(n, next) < ParentWork(n, parent) && (Firing(parent) || parent.SetAlive? <==> Firing(next))
  {
    hide ParentWork, Onward;
    if Tallying(parent) {
      TallyIsDown(n, parent, next);
    } else if Marking(parent) {
      MarkIsDown(n, parent, next);
    } else if parent.Kick? || parent.KickSend? {
      KickIsDown(n, parent, next);
    } else {
      ScanIsDown(n, parent, next);
    }
  }

  lemma MarkIsDown(n: nat, parent: ParentPc, next: ParentPc)
    requires Onward(n, parent, next) && Marking(parent) && !Tallying(parent)
    ensures ParentWork(n, next) < ParentWork(n, parent) && !Firing(next)
  {
  }

  predicate Tallying(parent: ParentPc) {
    parent.Tally? || parent.CountRound? || parent.SetAlive?
  }

  lemma TallyIsDown(n: nat, parent: ParentPc, next: ParentPc)
    requires Onward(n, parent, next) && Tallying(parent)
    ensures ParentWork(n, next) < ParentWork(n, parent) && (parent.SetAlive? <==> Firing(next))
  {
  }

  lemma KickIsDown(n: nat, parent: ParentPc, next: ParentPc)
    requires Onward(n, parent, next) && (parent.Kick? || parent.KickSend?)
    ensures ParentWork(n, next) < ParentWork(n, parent) && Firing(parent) && Firing(next)
  {
  }

  lemma ScanIsDown(n: nat, parent: ParentPc, next: ParentPc)
    requires Onward(n, parent, next) && !Marking(parent) && !parent.Kick? && !parent.KickSend?
    ensures ParentWork(n, next) < ParentWork(n, parent) && Firing(parent) && Firing(next)
  {
  }

  lemma FireIsOnward(n: nat, s: State)
    requires Shaped(n, s) && Firing(s.parent) && !s.parent.Sleep? && !(s.parent.ScanReady? && s.parent.k >= n)
    requires s.parent.k <= n && (s.parent.k == n ==> s.parent.Kick?) && (s.parent.ScanHit? ==> s.parent.target < n)
    ensures Onward(n, s.parent, DoFire(n, s).parent)
  {
  }

  lemma FireParentWork(n: nat, s: State, g: Game)
    requires InRound(n, s, g) && !s.parent.Sleep? && !(s.parent.ScanReady? && s.parent.k >= n)
    ensures ParentWork(n, DoFire(n, s).parent) < ParentWork(n, s.parent) && Firing(DoFire(n, s).parent)
  {
    hide InRound, DoFire, Onward, ParentWork;
    FireBound(n, s, g);
    FireIsOnward(n, s);
    OnwardIsDown(n, s.parent, DoFire(n, s).parent);
  }

  lemma MarkParent(n: nat, s: State, g: Game)
    requires Marks(n, s, g) && !s.parent.KillAll?
    ensures var s' := DoMark(n, s);
            && s'.usr2 == s.usr2 && s'.children == s.children && Shaped(n, s) && Shaped(n, s')
            && (Firing(s'.parent) ==> s.parent.SetAlive? && s'.status == s.status)
            && ParentWork(n, s'.parent) < ParentWork(n, s.parent)
  {
    hide Marks, DoMark, Onward, ParentWork, Firing;
    MarkBound(n, s, g);
    MarkIsOnward(n, s);
    OnwardIsDown(n, s.parent, DoMark(n, s).parent);
  }

  lemma MarkIsOnward(n: nat, s: State)
    requires Shaped(n, s) && Marking(s.parent) && !s.parent.KillAll?
    requires s.parent.MarkAsk? ==> s.parent.k <= n
    requires s.parent.MarkRead? || s.parent.MarkWrite? || s.parent.MarkCount? || s.parent.MarkReady? ==> s.parent.k < n
    ensures var s' := DoMark(n, s);
            && s'.usr2 == s.usr2 && s'.children == s.children && Shaped(n, s') && Onward(n, s.parent, s'.parent)
            && (s.parent.SetAlive? ==> s'.status == s.status) && !Firing(s.parent)
  {
  }

  lemma MarkBound(n: nat, s: State, g: Game)
    requires Marks(n, s, g)
    ensures Shaped(n, s) && Marking(s.parent)
    ensures s.parent.MarkAsk? ==> s.parent.k <= n
    ensures s.parent.MarkRead? || s.parent.MarkWrite? || s.parent.MarkCount? || s.parent.MarkReady? ==> s.parent.k < n
  {
    hide MarkDead, MarkChildren, OutChildren, Dead;
  }

  lemma MarkWork(n: nat, s: State, g: Game, q: nat)
    requires Marks(n, s, g) && !s.parent.KillAll? && q < n && q in g.alive
    ensures Shaped(n, s) && ChildWork(n, DoMark(n, s), q) == ChildWork(n, s, q)
  {
    hide Weight, DoMark, OutChildren, MarkDead, MarkAt;
    MarkParent(n, s, g);
    assert s.children[q] == s.children[q];
  }

  lemma MarkWorkOut(n: nat, s: State, g: Game, q: nat)
    requires Marks(n, s, g) && !s.parent.KillAll? && q < n && q !in g.alive
    ensures ChildWork(n, DoMark(n, s), q) == ChildWork(n, s, q)
  {
    hide Marks, DoMark, Weight, Leaving, HasShot;
    MarkParent(n, s, g);
    MarkOut(n, s, g, q);
    LeavingWeight(n, s.children[q].pc, HasShot(s, q), HasShot(DoMark(n, s), q));
  }

  /** Who is on its way out does not care whether it has shot. */
  lemma LeavingWeight(n: nat, pc: Pc, shot: bool, shot': bool)
    requires Leaving(pc)
    ensures Weight(n, pc, shot') == Weight(n, pc, shot)
  {
  }

  lemma BootParent(n: nat, s: State, g: Game)
    requires Boots(n, s, g) && Enabled(n, s, Parent)
    ensures var s' := DoBoot(n, s);
            && (s.parent.BootSleep? ==> !s'.usr2 && s'.parent == BootScan(0))
            && (!s.parent.BootSleep? ==> s'.usr2 == s.usr2 && ParentWork(n, s'.parent) < ParentWork(n, s.parent))
  {
  }

  lemma BootWork(n: nat, s: State, g: Game, q: nat)
    requires Boots(n, s, g) && Enabled(n, s, Parent) && q < n
    ensures ChildWork(n, DoBoot(n, s), q) <= ChildWork(n, s, q)
    ensures !(s.parent.Fork? && q == s.parent.k - 1) ==> ChildWork(n, DoBoot(n, s), q) == ChildWork(n, s, q)
  {
    assert s.children[q] == s.children[q];
  }

  lemma SameWork(n: nat, s: State, s': State, p: nat)
    requires forall q {:trigger ChildWork(n, s', q)} :: 0 <= q < n ==> ChildWork(n, s', q) <= ChildWork(n, s, q)
    requires forall q {:trigger ChildWork(n, s', q)} :: 0 <= q < n && q != p ==> ChildWork(n, s', q) == ChildWork(n, s, q)
    ensures Work(n, s', n) <= Work(n, s, n)
  {
    hide ChildWork;
    WorkChange(n, s, s', p, n);
    if p < n {
      assert ChildWork(n, s', p) <= ChildWork(n, s, p);
    }
  }

  /** The parent gets on, or uses up a wake-up, and no child gets work back. */
  ghost predicate ParentProgress(n: nat, s: State, s': State) {
    && Work(n, s', n) <= Work(n, s, n)
    && if s.usr2 && !s'.usr2 then ParentWork(n, s'.parent) + 1 < Wake(n) + ParentWork(n, s.parent)
       else s'.usr2 == s.usr2 && ParentWork(n, s'.parent) < ParentWork(n, s.parent)
  }

  lemma FireParentProgress(n: nat, s: State, g: Game)
    requires InRound(n, s, g) && Enabled(n, s, Parent) && !(s.parent.ScanReady? && s.parent.k >= n)
    ensures ParentProgress(n, s, DoFire(n, s))
  {
    hide InRound, Work, ChildWork, DoFire;
    Stages(n, s, g);
    var s' := DoFire(n, s);
    FireParent(n, s, 0);
    if !s.parent.Sleep? {
      FireParentWork(n, s, g);
    }
    forall q {:trigger ChildWork(n, s', q)} | 0 <= q < n
      ensures ChildWork(n, s', q) == ChildWork(n, s, q)
    {
      FireParent(n, s, q);
    }
    SameWork(n, s, s', n);
  }

  lemma MarkParentProgress(n: nat, s: State, g: Game)
    requires Marks(n, s, g) && !s.parent.KillAll?
    ensures ParentProgress(n, s, DoMark(n, s))
  {
    hide Marks, Work, ChildWork, DoMark, ParentWork;
    Stages(n, s, g);
    InvPlayers(n, s, g);
    var s' := DoMark(n, s);
    MarkParent(n, s, g);
    forall q {:trigger ChildWork(n, s', q)} | 0 <= q < n
      ensures ChildWork(n, s', q) == ChildWork(n, s, q)
    {
      if q in g.alive {
        MarkWork(n, s, g, q);
      } else {
        MarkWorkOut(n, s, g, q);
      }
    }
    SameWork(n, s, s', n);
  }

  lemma BootParentProgress(n: nat, s: State, g: Game)
    requires Boots(n, s, g) && Enabled(n, s, Parent)
    ensures ParentProgress(n, s, DoBoot(n, s))
  {
    hide Boots, Work, ChildWork, DoBoot;
    var s' := DoBoot(n, s);
    BootParent(n, s, g);
    var p := if s.parent.Fork? && s.parent.k > 0 then s.parent.k - 1 else n;
    forall q {:trigger ChildWork(n, s', q)} | 0 <= q < n
      ensures ChildWork(n, s', q) <= ChildWork(n, s, q)
      ensures q != p ==> ChildWork(n, s', q) == ChildWork(n, s, q)
    {
      BootWork(n, s, g, q);
    }
    SameWork(n, s, s', p);
  }

  lemma {:induction false} NoWork(n: nat, s: State, k: nat)
    requires k <= |s.children| && forall q {:trigger s.children[q]} :: 0 <= q < k ==> s.children[q].pc.Gone?
    ensures Work(n, s, k) == 0
  {
    if k > 0 {
      NoWork(n, s, k - 1);
      assert s.children[k - 1].pc.Gone?;
    }
  }

  lemma KillProgress(n: nat, s: State)
    requires Shaped(n, s) && s.parent.KillAll?
    ensures ParentProgress(n, s, DoParent(n, s))
  {
    hide Weight, Work;
    NoWork(n, DoParent(n, s), n);
  }

  lemma StageProgress(n: nat, s: State, g: Game)
    requires Inv(n, s, g) && Enabled(n, s, Parent) && !(s.parent.ScanReady? && s.parent.k >= n)
    ensures ParentProgress(n, s, DoParent(n, s))
  {
    hide Inv, InRound, Marks, Boots, DoFire, DoMark, DoBoot, ParentProgress;
    Stages(n, s, g);
    if Booting(s.parent) {
      BootParentProgress(n, s, g);
    } else if Firing(s.parent) {
      FireParentProgress(n, s, g);
    } else if s.parent.KillAll? {
      KillProgress(n, s);
    } else {
      MarkParentProgress(n, s, g);
    }
  }

  lemma ParentMeasure(n: nat, s: State, g: Game)
    requires Inv(n, s, g) && Enabled(n, s, Parent)
    ensures var s' := DoParent(n, s);
            Measure(n, s', Advance(g, s, s')) < Measure(n, s, g)
  {
    hide Inv, RoundWork, ParentWork, Work, Wake, DoParent, Living, Round;
    var s' := DoParent(n, s);
    ParentKeeps(n, s);
    StepInv(n, s, g, Parent);
    if s.parent.ScanReady? && s.parent.k >= n {
      ScanEnds(n, s);
      RoundMeasure(n, s, s', g, Advance(g, s, s'));
    } else {
      StageProgress(n, s, g);
      TimesGrows(Work(n, s', n), Work(n, s, n), Wake(n));
    }
  }

  lemma ScanEnds(n: nat, s: State)
    requires Shaped(n, s) && s.parent.ScanReady? && s.parent.k >= n
    ensures DoParent(n, s) == s.(parent := MarkAsk(0), totalDead := 0)
  {
  }

  lemma StepMeasure(n: nat, s: State, g: Game, a: Actor)
    requires Inv(n, s, g) && Enabled(n, s, a)
    ensures var s' := Do(n, s, a);
            Measure(n, s', Advance(g, s, s')) < Measure(n, s, g)
  {
    hide Inv, Measure, Advance, DoChild, DoParent;
    match a
    case Parent => ParentMeasure(n, s, g);
    case Player(p, takeTerm, random) => ChildMeasure(n, s, g, p, takeTerm, random);
  }

  /** The number of steps the game takes at most. */
  ghost function StepBound(n: nat): nat {
    Times(n, RoundWork(n)) + Times(Times(n, n + 18), Wake(n)) + 15 * n + 8
  }

  lemma InitMeasure(n: nat, s: State)
    requires Init(n, s)
    ensures Measure(n, s, Start(n)) <= StepBound(n)
  {
    hide RoundWork, Wake, Work;
    WorkBound(n, s, n);
    TimesGrows(Work(n, s, n), Times(n, n + 18), Wake(n));
  }

  /** Every run ends: none is longer than a bound that depends on the number of players alone. */
  lemma {:induction false} RunsAreBounded(n: nat, run: seq<State>)
    requires Run(n, run)
    ensures |run| - 1 + Measure(n, run[|run| - 1], GameOf(n, run)) <= StepBound(n)
    ensures |run| <= StepBound(n) + 1
  {
    hide Measure, StepBound, Inv, Do, Enabled, Advance, Init;
    if |run| == 1 {
      InitMeasure(n, run[0]);
    } else {
      var before := run[..|run| - 1];
      RunPrefix(n, run, |run| - 1);
      RunsAreBounded(n, before);
      RunInv(n, before);
      var s := run[|run| - 2];
      assert Next(n, s, run[|run| - 1]);
      var a :| Enabled(n, s, a) && run[|run| - 1] == Do(n, s, a);
      StepMeasure(n, s, GameOf(n, before), a);
    }
  }

  /** The game always ends: whatever has happened so far, going on leads to a finished game, and it
      cannot fail to by any choice of who moves. */
  lemma {:induction false} GameEnds(n: nat, run: seq<State>) returns (longer: seq<State>)
    requires Run(n, run)
    ensures Run(n, longer) && run <= longer && Stuck(n, longer[|longer| - 1])
    decreases StepBound(n) + 1 - |run|
  {
    hide Inv, Do, Enabled, Advance, Init, StepBound, Stuck;
    RunsAreBounded(n, run);
    var s := run[|run| - 1];
    if Stuck(n, s) {
      longer := run;
    } else {
      var a := SomeMove(n, s);
      var next := run + [Do(n, s, a)];
      RunOn(n, run, a);
      RunsAreBounded(n, next);
      longer := GameEnds(n, next);
    }
  }

  lemma SomeMove(n: nat, s: State) returns (a: Actor)
    requires !Stuck(n, s)
    ensures Enabled(n, s, a)
  {
    a :| Enabled(n, s, a);
  }

  lemma RunOn(n: nat, run: seq<State>, a: Actor)
    requires Run(n, run) && Enabled(n, run[|run| - 1], a)
    ensures Run(n, run + [Do(n, run[|run| - 1], a)])
  {
    hide Init, Do, Enabled;
    var next := run + [Do(n, run[|run| - 1], a)];
    forall i | 0 < i < |next|
      ensures Next(n, next[i - 1], next[i])
    {
      assert next[i - 1] == run[i - 1];
    }
  }
}
