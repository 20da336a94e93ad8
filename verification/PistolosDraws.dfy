/** The random numbers that the children draw, and that it is the brothers these tell of who die.

    A run is given here with its actors, so that each number `rand` gave is known apart from what the
    program makes of it. */
module PistolosDraws {
  import opened FiniteSets
  import opened AtomicRound
  import opened Pistolos
  import opened PistolosInvariant
  import opened PistolosSteps
  import opened PistolosRuns

  // ----- The brother that a number tells -----

  /** `q` is a living brother of `p`, and `r` living brothers of `p` come before it. */
  ghost predicate IsBrother(alive: set<nat>, p: nat, r: nat, q: nat) {
    q in alive && q != p && |Passed(alive, p, q)| == r
  }

  ghost function Brother(alive: set<nat>, p: nat, r: nat): nat {
    if exists q: nat :: IsBrother(alive, p, r, q) then
      var q: nat :| IsBrother(alive, p, r, q);
      q
    else 0
  }

  lemma PassedGrows(alive: set<nat>, p: nat, q: nat, q': nat)
    requires q in alive && q != p && q < q'
    ensures |Passed(alive, p, q)| < |Passed(alive, p, q')|
  {
    assert q !in Passed(alive, p, q);
    SubsetSize(Passed(alive, p, q) + {q}, Passed(alive, p, q'));
  }

  /** No two brothers are told by the same number. */
  lemma BrotherUnique(alive: set<nat>, p: nat, r: nat, q: nat)
    requires IsBrother(alive, p, r, q)
    ensures Brother(alive, p, r) == q
  {
    var q' := Brother(alive, p, r);
    if q < q' {
      PassedGrows(alive, p, q, q');
    } else if q' < q {
      PassedGrows(alive, p, q', q);
    }
  }

  /** Every living brother is told by a number below their number. */
  lemma BrotherDrawn(alive: set<nat>, p: nat, q: nat)
    requires p in alive && q in alive && q != p
    ensures |Passed(alive, p, q)| < |alive| - 1 && Brother(alive, p, |Passed(alive, p, q)|) == q
  {
    SubsetSize(Passed(alive, p, q) + {q}, alive - {p});
    BrotherUnique(alive, p, |Passed(alive, p, q)|, q);
  }

  /** Every number below the number of living brothers tells one. */
  lemma BrotherIs(n: nat, alive: set<nat>, p: nat, r: nat)
    requires p in alive && alive <= UpTo(n) && r < |alive| - 1
    ensures IsBrother(alive, p, r, Brother(alive, p, r))
  {
    assert Passed(alive, p, 0) == {};
    BrotherFrom(n, alive, p, r, 0);
  }

  lemma PassedAll(n: nat, alive: set<nat>, p: nat)
    requires p in alive && alive <= UpTo(n)
    ensures |Passed(alive, p, n)| == |alive| - 1
  {
    assert Passed(alive, p, n) == alive - {p};
  }

  lemma {:induction false} BrotherFrom(n: nat, alive: set<nat>, p: nat, r: nat, i: nat)
    requires p in alive && alive <= UpTo(n) && |Passed(alive, p, i)| <= r < |alive| - 1 && i <= n
    ensures exists q: nat :: IsBrother(alive, p, r, q)
    decreases n - i
  {
    PassedAll(n, alive, p);
    assert i < n;
    if i in alive && i != p && |Passed(alive, p, i)| == r {
      assert IsBrother(alive, p, r, i);
    } else {
      PassedNext(alive, p, i);
      BrotherFrom(n, alive, p, r, i + 1);
    }
  }

  // ----- Runs with their actors -----

  ghost predicate ActedRun(n: nat, run: seq<State>, acts: seq<Actor>) {
    && |run| == |acts| + 1 && Init(n, run[0])
    && forall i {:trigger acts[i]} :: 0 <= i < |acts| ==>
         Enabled(n, run[i], acts[i]) && run[i + 1] == Do(n, run[i], acts[i])
  }

  lemma ActedIsRun(n: nat, run: seq<State>, acts: seq<Actor>)
    requires ActedRun(n, run, acts)
    ensures Run(n, run)
  {
    hide Do, Enabled, Init;
    forall i | 0 < i < |run|
      ensures Next(n, run[i - 1], run[i])
    {
      assert Enabled(n, run[i - 1], acts[i - 1]);
    }
  }

  /** Every run has actors. */
  lemma {:induction false} RunIsActed(n: nat, run: seq<State>) returns (acts: seq<Actor>)
    requires Run(n, run)
    ensures ActedRun(n, run, acts)
  {
    hide Do, Enabled, Init;
    if |run| == 1 {
      acts := [];
    } else {
      var k := |run| - 1;
      acts := RunIsActed(n, run[..k]);
      assert Next(n, run[k - 1], run[k]);
      var a :| Enabled(n, run[k - 1], a) && run[k] == Do(n, run[k - 1], a);
      acts := acts + [a];
    }
  }

  lemma ActedPrefix(n: nat, run: seq<State>, acts: seq<Actor>)
    requires ActedRun(n, run, acts) && acts != []
    ensures ActedRun(n, run[..|acts|], acts[..|acts| - 1])
  {
    hide Do, Enabled, Init;
    forall i {:trigger acts[..|acts| - 1][i]} | 0 <= i < |acts| - 1
      ensures Enabled(n, run[i], acts[i]) && run[i + 1] == Do(n, run[i], acts[i])
    {
    }
  }

  // ----- The numbers of a round -----

  /** A step at which a child draws. */
  predicate IsDraw(s: State, a: Actor) {
    a.Player? && a.p < |s.children| && s.children[a.p].pc.Pick?
  }

  /** The numbers drawn in the round under way, by the child that drew: what `rand` gave, reduced to the
      number of living brothers. */
  ghost function Draws(n: nat, run: seq<State>, acts: seq<Actor>): map<nat, nat>
    requires |run| == |acts| + 1
    decreases |acts|
  {
    if acts == [] then map[]
    else
      var k := |acts| - 1;
      if GameOf(n, run) != GameOf(n, run[..k + 1]) then map[]
      else Drawn(Draws(n, run[..k + 1], acts[..k]), run[k], acts[k], |GameOf(n, run).alive|)
  }

  ghost function Drawn(draws: map<nat, nat>, s: State, a: Actor, living: nat): map<nat, nat> {
    if IsDraw(s, a) && living >= 2 then draws[a.p := a.random % (living - 1)] else draws
  }

  /** Everybody at the brother that its number tells. */
  ghost function Told(alive: set<nat>, draws: map<nat, nat>): nat -> nat {
    (p: nat) => if p in draws then Brother(alive, p, draws[p]) else 0
  }

  predicate HasDrawn(c: Child, w: Status) {
    w.shot || c.pc.PickAt? || c.pc.Shoot? || Killed(c.pc)
  }

  /** The number that the child's position and its target stand for. */
  ghost function Number(alive: set<nat>, p: nat, c: Child): nat {
    if c.pc.PickAt? then c.pc.random + |Passed(alive, p, c.pc.i)| else |Passed(alive, p, c.aim)|
  }

  ghost predicate Course(alive: set<nat>, p: nat, c: Child, w: Status, draws: map<nat, nat>) {
    && (p in draws <==> HasDrawn(c, w))
    && (p in draws ==> draws[p] == Number(alive, p, c) && draws[p] < |alive| - 1)
  }

  /** Exactly the players past their draw have a number, and what they do with it is right. */
  ghost predicate DrawsInv(n: nat, s: State, g: Game, draws: map<nat, nat>) {
    && Shaped(n, s) && g.alive <= UpTo(n)
    && (forall p {:trigger p in draws} :: p in draws ==> p < n && p in g.alive)
    && (if Firing(s.parent) then
          forall p {:trigger s.children[p]} :: 0 <= p < n && p in g.alive ==>
            Course(g.alive, p, s.children[p], s.status[p], draws)
        else draws == map[])
  }

  // ----- A step of a living child in a round -----

  lemma DrawCourse(n: nat, s: State, g: Game, p: nat, takeTerm: bool, random: nat, draws: map<nat, nat>)
    requires InRound(n, s, g) && p < n && p in g.alive && s.children[p].pc.Pick?
    ensures var s' := DoChild(n, s, p, takeTerm, random);
            Shaped(n, s') && |g.alive| >= 2
            && Course(g.alive, p, s'.children[p], s'.status[p], draws[p := random % (|g.alive| - 1)])
  {
    hide InRound, FireSelf, DoPickAt, DoShoot, DoWait;
    FiresSelf(n, s, g, p);
    assert Passed(g.alive, p, 0) == {};
  }

  lemma WalkCourse(n: nat, s: State, g: Game, p: nat, draws: map<nat, nat>)
    requires InRound(n, s, g) && p < n && p in g.alive && s.children[p].pc.PickAt?
    requires Course(g.alive, p, s.children[p], s.status[p], draws)
    ensures var s' := DoPickAt(s, p);
            Shaped(n, s') && Course(g.alive, p, s'.children[p], s'.status[p], draws)
  {
    hide InRound, FireSelf, DoPickAt, Passed, FireChild, OwnStep;
    FiresSelf(n, s, g, p);
    FiresDead(n, s, g);
    PickAtStep(n, s, g, p);
    WalkWord(s, p);
  }

  lemma WalkWord(s: State, p: nat)
    requires p < |s.children| && s.children[p].pc.PickAt?
    ensures DoPickAt(s, p).status == s.status
  {
  }

  lemma ShootCourse(n: nat, s: State, g: Game, p: nat, draws: map<nat, nat>)
    requires InRound(n, s, g) && p < n && p in g.alive && s.children[p].pc.Shoot?
    requires Course(g.alive, p, s.children[p], s.status[p], draws)
    ensures var s' := DoShoot(s, p);
            Shaped(n, s') && Course(g.alive, p, s'.children[p], s'.status[p], draws)
  {
    hide InRound, FireSelf, DoShoot, Passed;
    FiresSelf(n, s, g, p);
    OverPlayers(n, s, g);
    ShootIs(n, s, g, p);
  }

  lemma OverPlayers(n: nat, s: State, g: Game)
    requires InRound(n, s, g)
    ensures Shaped(n, s) && g.alive <= UpTo(n)
  {
    hide FireInv;
  }

  lemma WaitCourse(n: nat, s: State, p: nat, takeTerm: bool, alive: set<nat>, draws: map<nat, nat>)
    requires Shaped(n, s) && p < n && s.children[p].pc.Waiting?
    requires Course(alive, p, s.children[p], s.status[p], draws)
    ensures var s' := DoWait(s, p, takeTerm);
            Shaped(n, s') && Course(alive, p, s'.children[p], s'.status[p], draws)
  {
    hide Passed;
  }

  /** Nothing is drawn and the aim stays. */
  ghost predicate Steady(n: nat, s: State, s': State, p: nat)
    requires Shaped(n, s) && p < n
  {
    && Shaped(n, s') && s'.children[p].aim == s.children[p].aim && !s'.children[p].pc.PickAt?
    && (HasDrawn(s'.children[p], s'.status[p]) <==> HasDrawn(s.children[p], s.status[p]))
  }

  lemma KilledSteady(n: nat, s: State, p: nat, takeTerm: bool, random: nat)
    requires Shaped(n, s) && p < n && Killed(s.children[p].pc)
    ensures Steady(n, s, DoChild(n, s, p, takeTerm, random), p)
  {
    hide DoPickAt, DoShoot, DoWait;
  }

  lemma NotifySteady(n: nat, s: State, p: nat, takeTerm: bool, random: nat)
    requires Shaped(n, s) && p < n
    requires var pc := s.children[p].pc; pc.BootNotify? || pc.NotifyShot? || pc.NotifyDead? || pc.Exiting?
    ensures Steady(n, s, DoChild(n, s, p, takeTerm, random), p)
  {
    hide DoPickAt, DoShoot, DoWait;
  }

  lemma DeathSteady(n: nat, s: State, p: nat, takeTerm: bool, random: nat)
    requires Shaped(n, s) && p < n && (s.children[p].pc.WriteDead? ==> s.children[p].seen == s.status[p])
    requires var pc := s.children[p].pc; pc.AskShot? || pc.ReadDead? || pc.WriteDead?
    ensures Steady(n, s, DoChild(n, s, p, takeTerm, random), p)
  {
    hide DoPickAt, DoShoot, DoWait;
  }

  lemma SelfCourse(n: nat, s: State, g: Game, p: nat, takeTerm: bool, random: nat, draws: map<nat, nat>)
    requires InRound(n, s, g) && p < n && p in g.alive && ChildReady(s.children[p], takeTerm)
    requires Course(g.alive, p, s.children[p], s.status[p], draws)
    ensures var s' := DoChild(n, s, p, takeTerm, random);
            Shaped(n, s')
            && Course(g.alive, p, s'.children[p], s'.status[p], Drawn(draws, s, Player(p, takeTerm, random), |g.alive|))
  {
    hide InRound, FireSelf, DoChild, DoPickAt, DoShoot, DoWait, HasDrawn, Passed;
    FiresSelf(n, s, g, p);
    FirePc(n, s, g, p);
    SelfShot(n, s, g, p);
    DoPicks(n, s, p, takeTerm, random);
    var pc := s.children[p].pc;
    if pc.Pick? {
      DrawCourse(n, s, g, p, takeTerm, random, draws);
    } else if pc.PickAt? {
      WalkCourse(n, s, g, p, draws);
    } else if pc.Shoot? {
      ShootCourse(n, s, g, p, draws);
    } else if pc.Waiting? {
      WaitCourse(n, s, p, takeTerm, g.alive, draws);
    } else if Killed(pc) {
      KilledSteady(n, s, p, takeTerm, random);
    } else if pc.AskShot? || pc.ReadDead? || pc.WriteDead? {
      DeathSteady(n, s, p, takeTerm, random);
    } else {
      NotifySteady(n, s, p, takeTerm, random);
    }
  }

  // ----- Who does not move -----

  /** What a step of `p` leaves alone of another child. */
  ghost predicate Untouched(n: nat, s: State, s': State, q: nat)
    requires Shaped(n, s) && q < n
  {
    && |s'.children| == |s'.status| == n && s'.status[q] == s.status[q]
    && s'.children[q].pc == s.children[q].pc && s'.children[q].aim == s.children[q].aim
  }

  lemma OthersAim(n: nat, s: State, p: nat, takeTerm: bool, random: nat, q: nat)
    requires Shaped(n, s) && p < n && q < n && q != p
    ensures Untouched(n, s, DoChild(n, s, p, takeTerm, random), q)
  {
    hide DoChild, DoPickAt, DoShoot, DoWait, Untouched;
    DoPicks(n, s, p, takeTerm, random);
    if s.children[p].pc.PickAt? || s.children[p].pc.Waiting? || s.children[p].pc.Shoot? {
      PicksUntouched(n, s, p, takeTerm, q);
    } else {
      RestUntouched(n, s, p, takeTerm, random, q);
    }
  }

  lemma PicksUntouched(n: nat, s: State, p: nat, takeTerm: bool, q: nat)
    requires Shaped(n, s) && p < n && q < n && q != p
    ensures s.children[p].pc.PickAt? ==> Untouched(n, s, DoPickAt(s, p), q)
    ensures s.children[p].pc.Waiting? ==> Untouched(n, s, DoWait(s, p, takeTerm), q)
    ensures s.children[p].pc.Shoot? ==> Untouched(n, s, DoShoot(s, p), q)
  {
  }

  lemma RestUntouched(n: nat, s: State, p: nat, takeTerm: bool, random: nat, q: nat)
    requires Shaped(n, s) && p < n && q < n && q != p
    requires !s.children[p].pc.PickAt? && !s.children[p].pc.Waiting? && !s.children[p].pc.Shoot?
    ensures Untouched(n, s, DoChild(n, s, p, takeTerm, random), q)
  {
    hide DoChild, Untouched;
    if Killed(s.children[p].pc) || s.children[p].pc.ReadDead? || s.children[p].pc.WriteDead? {
      WordsUntouched(n, s, p, takeTerm, random, q);
    } else {
      PlainUntouched(n, s, p, takeTerm, random, q);
    }
  }

  lemma WordsUntouched(n: nat, s: State, p: nat, takeTerm: bool, random: nat, q: nat)
    requires Shaped(n, s) && p < n && q < n && q != p
    requires Killed(s.children[p].pc) || s.children[p].pc.ReadDead? || s.children[p].pc.WriteDead?
    ensures Untouched(n, s, DoChild(n, s, p, takeTerm, random), q)
  {
    hide DoPickAt, DoShoot, DoWait;
  }

  lemma PlainUntouched(n: nat, s: State, p: nat, takeTerm: bool, random: nat, q: nat)
    requires Shaped(n, s) && p < n && q < n && q != p
    requires var pc := s.children[p].pc;
             !pc.PickAt? && !pc.Waiting? && !pc.Shoot? && !Killed(pc) && !pc.ReadDead? && !pc.WriteDead?
    ensures Untouched(n, s, DoChild(n, s, p, takeTerm, random), q)
  {
    hide DoPickAt, DoShoot, DoWait;
  }

  lemma ParentAims(n: nat, s: State, q: nat)
    requires Shaped(n, s) && q < n && Firing(s.parent)
    ensures Untouched(n, s, DoParent(n, s), q)
  {
  }

  lemma SameCourse(alive: set<nat>, p: nat, c: Child, c': Child, w: Status, draws: map<nat, nat>, draws': map<nat, nat>)
    requires Course(alive, p, c, w, draws) && c'.pc == c.pc && c'.aim == c.aim
    requires (p in draws' <==> p in draws) && (p in draws ==> draws'[p] == draws[p])
    ensures Course(alive, p, c', w, draws')
  {
    hide Passed;
  }

  // ----- One step -----

  lemma ChildDraws(n: nat, s: State, g: Game, a: Actor, draws: map<nat, nat>)
    requires InRound(n, s, g) && Enabled(n, s, a) && a.Player? && DrawsInv(n, s, g, draws)
    ensures DrawsInv(n, Do(n, s, a), g, Drawn(draws, s, a, |g.alive|))
    ensures IsDraw(s, a) ==> a.p in g.alive && |g.alive| >= 2 && a.p !in draws
  {
    hide InRound, DoChild, Course, Drawn;
    var s', p := Do(n, s, a), a.p;
    var draws' := Drawn(draws, s, a, |g.alive|);
    Stages(n, s, g);
    ChildKeeps(n, s, p, a.takeTerm, a.random);
    ChildSends(n, s, p, a.takeTerm, a.random, p);
    if p !in g.alive {
      OutPc(n, s, g, p);
      NoDraw(draws, s, a, |g.alive|);
    } else {
      FiresSelf(n, s, g, p);
      assert s.children[p] == s.children[p];
      SelfCourse(n, s, g, p, a.takeTerm, a.random, draws);
      FirstDraw(n, s, g, p, draws);
    }
    forall q: nat {:trigger q in draws'} | q in draws'
      ensures q < n && q in g.alive
    {
      DrawnOther(draws, s, a, |g.alive|, q);
    }
    forall q: nat {:trigger s'.children[q]} | q < n && q in g.alive
      ensures Course(g.alive, q, s'.children[q], s'.status[q], draws')
    {
      if q != p {
        DrawnOther(draws, s, a, |g.alive|, q);
        assert s.children[q] == s.children[q];
        OthersAim(n, s, p, a.takeTerm, a.random, q);
        SameCourse(g.alive, q, s.children[q], s'.children[q], s.status[q], draws, draws');
      }
    }
  }

  /** Who is about to draw has not drawn in this round. */
  lemma FirstDraw(n: nat, s: State, g: Game, p: nat, draws: map<nat, nat>)
    requires Shaped(n, s) && p < n && FireSelf(n, s, g, p) && Course(g.alive, p, s.children[p], s.status[p], draws)
    ensures s.children[p].pc.Pick? ==> p !in draws
  {
    hide Targeted, Candidates, Passed;
  }

  lemma NoDraw(draws: map<nat, nat>, s: State, a: Actor, living: nat)
    requires a.Player? && a.p < |s.children| && Leaving(s.children[a.p].pc)
    ensures Drawn(draws, s, a, living) == draws && !IsDraw(s, a)
  {
  }

  lemma DrawnOther(draws: map<nat, nat>, s: State, a: Actor, living: nat, q: nat)
    requires a.Player?
    ensures var draws' := Drawn(draws, s, a, living);
            && (q != a.p ==> (q in draws' <==> q in draws) && (q in draws ==> draws'[q] == draws[q]))
            && (q == a.p && q in draws' ==> q in draws || IsDraw(s, a))
  {
  }

  lemma ParentDraws(n: nat, s: State, g: Game, draws: map<nat, nat>)
    requires InRound(n, s, g) && DrawsInv(n, s, g, draws)
    requires !(s.parent.ScanReady? && s.parent.k >= n) && Firing(DoParent(n, s).parent)
    ensures DrawsInv(n, DoParent(n, s), g, draws)
  {
    hide InRound, DoParent, Course;
    Stages(n, s, g);
    var s' := DoParent(n, s);
    ParentShape(n, s);
    forall q: nat {:trigger s'.children[q]} | q < n && q in g.alive
      ensures Course(g.alive, q, s'.children[q], s'.status[q], draws)
    {
      assert s.children[q] == s.children[q];
      ParentAims(n, s, q);
      SameCourse(g.alive, q, s.children[q], s'.children[q], s.status[q], draws, draws);
    }
  }

  lemma ParentShape(n: nat, s: State)
    requires Shaped(n, s)
    ensures Shaped(n, DoParent(n, s))
    ensures Firing(s.parent) && !(s.parent.ScanReady? && s.parent.k >= n) ==> Firing(DoParent(n, s).parent)
    ensures !Firing(s.parent) && Firing(DoParent(n, s).parent) ==>
              s.parent.SetAlive? && DoParent(n, s).children == s.children && DoParent(n, s).status == s.status
  {
    hide DoFire, DoMark, DoBoot;
    if Firing(s.parent) {
      FireShape(n, s);
    } else if Booting(s.parent) {
      BootShape(n, s);
    } else {
      MarkShape(n, s);
    }
  }

  lemma FireShape(n: nat, s: State)
    requires Shaped(n, s) && Firing(s.parent)
    ensures Shaped(n, DoFire(n, s)) && (!(s.parent.ScanReady? && s.parent.k >= n) ==> Firing(DoFire(n, s).parent))
  {
  }

  lemma BootShape(n: nat, s: State)
    requires Shaped(n, s) && Booting(s.parent)
    ensures Shaped(n, DoBoot(n, s)) && !Firing(DoBoot(n, s).parent)
  {
  }

  lemma MarkShape(n: nat, s: State)
    requires Shaped(n, s) && !Booting(s.parent) && !Firing(s.parent)
    ensures var s' := DoMark(n, s);
            Shaped(n, s') && (Firing(s'.parent) ==> s.parent.SetAlive? && s'.children == s.children && s'.status == s.status)
  {
  }

  /** Nobody has drawn when a round begins. */
  lemma FreshDraws(n: nat, s: State, g: Game)
    requires Marks(n, s, g) && s.parent.SetAlive?
    ensures Shaped(n, s) && forall q {:trigger s.children[q]} :: 0 <= q < n && q in g.alive ==>
              Course(g.alive, q, s.children[q], s.status[q], map[])
  {
    hide OutChildren, MarkDead, MarkAt, Number;
  }

  lemma StillDraws(n: nat, s: State, g: Game, a: Actor)
    requires Inv(n, s, g) && Enabled(n, s, a) && !Firing(s.parent)
    ensures !IsDraw(s, a)
  {
    hide Inv, Marks, Boots;
    Stages(n, s, g);
    if a.Player? {
      if Marking(s.parent) {
        MarkOut(n, s, g, a.p);
      } else if Booting(s.parent) {
        BootStands(n, s, g, a.p);
      }
    }
  }

  lemma BootStands(n: nat, s: State, g: Game, p: nat)
    requires Boots(n, s, g) && p < n
    ensures Shaped(n, s) && !s.children[p].pc.Pick?
  {
    assert s.children[p] == s.children[p];
  }

  lemma QuietDraws(n: nat, s: State, g: Game, a: Actor)
    requires Inv(n, s, g) && Enabled(n, s, a) && !Firing(s.parent) && Inv(n, Do(n, s, a), g)
    ensures DrawsInv(n, Do(n, s, a), g, map[]) && !IsDraw(s, a)
  {
    hide Inv, DoChild, DoParent, Course;
    StillDraws(n, s, g, a);
    InvPlayers(n, s, g);
    Stages(n, s, g);
    match a
    case Parent =>
      ParentShape(n, s);
      if Firing(DoParent(n, s).parent) {
        FreshDraws(n, s, g);
        SameWords(n, s, DoParent(n, s), g.alive);
      }
    case Player(p, takeTerm, random) =>
      ChildKeeps(n, s, p, takeTerm, random);
      ChildSends(n, s, p, takeTerm, random, p);
  }

  lemma SameWords(n: nat, s: State, s': State, alive: set<nat>)
    requires Shaped(n, s) && Shaped(n, s') && s'.children == s.children && s'.status == s.status
    requires forall q {:trigger s.children[q]} :: 0 <= q < n && q in alive ==>
               Course(alive, q, s.children[q], s.status[q], map[])
    ensures forall q {:trigger s'.children[q]} :: 0 <= q < n && q in alive ==>
              Course(alive, q, s'.children[q], s'.status[q], map[])
  {
  }

  // ----- The end of a round -----

  /** The number of `q` is that of brother `t`. */
  ghost predicate Tells(alive: set<nat>, draws: map<nat, nat>, q: nat, t: nat) {
    q in draws && draws[q] < |alive| - 1 && IsBrother(alive, q, draws[q], t)
  }

  lemma OverDraw(n: nat, s: State, g: Game, q: nat, draws: map<nat, nat>)
    requires InRound(n, s, g) && s.parent.ScanReady? && s.parent.k == n && q < n && q in g.alive && g.alive <= UpTo(n)
    requires Course(g.alive, q, s.children[q], s.status[q], draws)
    ensures Shaped(n, s) && Tells(g.alive, draws, q, s.target[q])
  {
    hide InRound, FireSelf, Passed;
    OverChild(n, s, g, q);
    FiresSelf(n, s, g, q);
    ShotPc(n, s, g, q);
  }

  lemma ShotPc(n: nat, s: State, g: Game, p: nat)
    requires Shaped(n, s) && p < n && FireSelf(n, s, g, p) && s.status[p].shot
    ensures !s.children[p].pc.PickAt?
  {
    hide Targeted, Candidates;
  }

  /** Everybody's number tells its target. */
  ghost predicate AllTold(n: nat, target: seq<nat>, alive: set<nat>, draws: map<nat, nat>) {
    && |target| == n
    && forall q: nat {:trigger Tells(alive, draws, q, target[q])} :: q < n && q in alive ==>
         Tells(alive, draws, q, target[q])
  }

  lemma EndNumbers(n: nat, s: State, g: Game, draws: map<nat, nat>)
    requires InRound(n, s, g) && s.parent.ScanReady? && s.parent.k >= n && DrawsInv(n, s, g, draws)
    ensures AllTold(n, s.target, g.alive, draws) && draws.Keys <= g.alive
  {
    hide InRound, Course, Tells;
    Stages(n, s, g);
    OverFacts(n, s, g);
    forall q: nat {:trigger Tells(g.alive, draws, q, s.target[q])} | q < n && q in g.alive
      ensures Tells(g.alive, draws, q, s.target[q])
    {
      assert s.children[q] == s.children[q];
      OverDraw(n, s, g, q, draws);
    }
  }

  lemma ToldAim(n: nat, target: seq<nat>, alive: set<nat>, draws: map<nat, nat>)
    requires AllTold(n, target, alive, draws) && alive <= UpTo(n) && draws.Keys <= alive
    ensures draws.Keys == alive && forall p: nat :: p in draws ==> draws[p] < |alive| - 1
    ensures forall q: nat {:trigger Told(alive, draws)(q)} :: q in alive ==> Told(alive, draws)(q) == AimOf(target)(q)
  {
    hide Tells;
    forall q: nat | q in alive
      ensures q in draws.Keys && draws[q] < |alive| - 1 && Told(alive, draws)(q) == AimOf(target)(q)
    {
      assert Tells(alive, draws, q, target[q]);
      ToldBrother(alive, draws, q, target[q]);
    }
  }

  lemma ToldBrother(alive: set<nat>, draws: map<nat, nat>, q: nat, t: nat)
    requires Tells(alive, draws, q, t)
    ensures q in draws && draws[q] < |alive| - 1 && Told(alive, draws)(q) == t
  {
    BrotherUnique(alive, q, draws[q], t);
  }

  lemma EndDraws(n: nat, s: State, g: Game, draws: map<nat, nat>)
    requires InRound(n, s, g) && s.parent.ScanReady? && s.parent.k >= n && DrawsInv(n, s, g, draws)
    ensures draws.Keys == g.alive && forall p: nat :: p in draws ==> draws[p] < |g.alive| - 1
    ensures Fires(g, Told(g.alive, draws), Game(Living(s, g.alive), g.rounds + 1))
  {
    hide InRound, DrawsInv, Living, Fires, Round, AllTold, Told, AimOf;
    OverFacts(n, s, g);
    OverIsRound(n, s, g);
    EndNumbers(n, s, g, draws);
    ToldAim(n, s.target, g.alive, draws);
    SameAim(g, AimOf(s.target), Told(g.alive, draws), Game(Living(s, g.alive), g.rounds + 1));
  }

  lemma OverDraws(n: nat, s: State, g: Game)
    requires Shaped(n, s) && g.alive <= UpTo(n) && !Firing(s.parent)
    ensures DrawsInv(n, s, g, map[])
  {
  }

  /** One step, within a round or at its end. */
  lemma StepDraws(n: nat, s: State, g: Game, a: Actor, draws: map<nat, nat>)
    requires Inv(n, s, g) && Enabled(n, s, a) && DrawsInv(n, s, g, draws)
    ensures var g' := Advance(g, s, Do(n, s, a));
            DrawsInv(n, Do(n, s, a), g', if g' == g then Drawn(draws, s, a, |g.alive|) else map[])
    ensures a.Player? ==> Advance(g, s, Do(n, s, a)) == g
    ensures IsDraw(s, a) ==> a.p in g.alive && |g.alive| >= 2 && a.p !in draws
    ensures var g' := Advance(g, s, Do(n, s, a));
            g' != g ==> draws.Keys == g.alive && (forall p: nat :: p in draws ==> draws[p] < |g.alive| - 1)
                        && Fires(g, Told(g.alive, draws), g')
  {
    hide Inv, DoChild, DoParent, DrawsInv, Living, Told, Fires, Course;
    StepInv(n, s, g, a);
    Stages(n, s, g);
    if !Firing(s.parent) {
      NotFiring(n, s, g, draws);
      QuietStep(n, s, g, a);
    } else if a.Player? {
      ChildKeeps(n, s, a.p, a.takeTerm, a.random);
      ChildDraws(n, s, g, a, draws);
    } else {
      ParentShape(n, s);
      if s.parent.ScanReady? && s.parent.k >= n {
        ScanOver(n, s);
        RoundStep(n, s, g, draws);
      } else {
        ParentKeeps(n, s);
        ParentDraws(n, s, g, draws);
      }
    }
  }

  lemma ScanOver(n: nat, s: State)
    requires Shaped(n, s) && s.parent.ScanReady? && s.parent.k >= n
    ensures DoParent(n, s).parent == MarkAsk(0)
  {
  }

  lemma NotFiring(n: nat, s: State, g: Game, draws: map<nat, nat>)
    requires DrawsInv(n, s, g, draws) && !Firing(s.parent)
    ensures draws == map[]
  {
  }

  lemma QuietStep(n: nat, s: State, g: Game, a: Actor)
    requires Inv(n, s, g) && Enabled(n, s, a) && !Firing(s.parent)
    ensures Advance(g, s, Do(n, s, a)) == g && !IsDraw(s, a)
    ensures DrawsInv(n, Do(n, s, a), g, map[])
  {
    hide Inv, DoChild, DoParent, DrawsInv, Living;
    StepInv(n, s, g, a);
    QuietDraws(n, s, g, a);
  }

  lemma RoundStep(n: nat, s: State, g: Game, draws: map<nat, nat>)
    requires InRound(n, s, g) && s.parent.ScanReady? && s.parent.k >= n && DrawsInv(n, s, g, draws)
    requires Shaped(n, s) && DoParent(n, s).parent == MarkAsk(0) && Inv(n, DoParent(n, s), Advance(g, s, DoParent(n, s)))
    ensures Advance(g, s, DoParent(n, s)) == Game(Living(s, g.alive), g.rounds + 1)
    ensures DrawsInv(n, DoParent(n, s), Advance(g, s, DoParent(n, s)), map[])
    ensures draws.Keys == g.alive && forall p: nat :: p in draws ==> draws[p] < |g.alive| - 1
    ensures Fires(g, Told(g.alive, draws), Advance(g, s, DoParent(n, s)))
  {
    hide Inv, InRound, DoParent, Living, Told, Fires, DrawsInv;
    EndDraws(n, s, g, draws);
    var s' := DoParent(n, s);
    var g' := Advance(g, s, s');
    InvPlayers(n, s', g');
    OverDraws(n, s', g');
  }

  // ----- Runs -----

  lemma StartDraws(n: nat, s: State)
    requires Init(n, s)
    ensures DrawsInv(n, s, Start(n), map[])
  {
  }

  /** The last step of a run. */
  lemma LastStep(n: nat, run: seq<State>, acts: seq<Actor>)
    requires ActedRun(n, run, acts) && acts != []
    ensures var k := |acts| - 1;
            var g := GameOf(n, run[..k + 1]);
            && Enabled(n, run[k], acts[k]) && run[k + 1] == Do(n, run[k], acts[k])
            && Inv(n, run[k], g) && GameOf(n, run) == Advance(g, run[k], run[k + 1])
  {
    hide Inv, Do, Enabled, Init, Advance;
    var k := |acts| - 1;
    ActedPrefix(n, run, acts);
    ActedIsRun(n, run[..k + 1], acts[..k]);
    assert acts[k] == acts[k];
    RunInv(n, run[..k + 1]);
  }

  lemma {:induction false} RunDraws(n: nat, run: seq<State>, acts: seq<Actor>)
    requires ActedRun(n, run, acts)
    ensures DrawsInv(n, run[|run| - 1], GameOf(n, run), Draws(n, run, acts))
    decreases |acts|
  {
    hide Inv, Do, Enabled, DrawsInv, Init, Drawn, Advance, Told, Fires;
    if acts == [] {
      StartDraws(n, run[0]);
    } else {
      var k := |acts| - 1;
      ActedPrefix(n, run, acts);
      RunDraws(n, run[..k + 1], acts[..k]);
      LastStep(n, run, acts);
      StepDraws(n, run[k], GameOf(n, run[..k + 1]), acts[k], Draws(n, run[..k + 1], acts[..k]));
    }
  }

  /** At the end of every round those die, of the living, whom the numbers drawn in that round tell: each
      living player has drawn one, below the number of its living brothers, and shot the brother that has
      just that many living brothers before it. */
  lemma DeadAreDrawn(n: nat, run: seq<State>, acts: seq<Actor>)
    requires ActedRun(n, run, acts) && acts != [] && GameOf(n, run) != GameOf(n, run[..|acts|])
    ensures var draws := Draws(n, run[..|acts|], acts[..|acts| - 1]);
            var g, g' := GameOf(n, run[..|acts|]), GameOf(n, run);
            && draws.Keys == g.alive && (forall p: nat :: p in draws ==> draws[p] < |g.alive| - 1)
            && Fires(g, Told(g.alive, draws), g')
  {
    hide Inv, Do, Enabled, DrawsInv, Init, Advance, Fires, Told, Draws;
    var k := |acts| - 1;
    ActedPrefix(n, run, acts);
    RunDraws(n, run[..k + 1], acts[..k]);
    LastStep(n, run, acts);
    StepDraws(n, run[k], GameOf(n, run[..k + 1]), acts[k], Draws(n, run[..k + 1], acts[..k]));
  }

  /** A child draws once a round: what `rand` gives it, reduced to the number of its living brothers, is its
      number for the round.  No draw ends a round. */
  lemma DrawnOnce(n: nat, run: seq<State>, acts: seq<Actor>)
    requires ActedRun(n, run, acts) && acts != [] && IsDraw(run[|acts| - 1], acts[|acts| - 1])
    ensures var a, g := acts[|acts| - 1], GameOf(n, run);
            && g == GameOf(n, run[..|acts|])
            && a.p in g.alive && |g.alive| >= 2 && a.p !in Draws(n, run[..|acts|], acts[..|acts| - 1])
            && Draws(n, run, acts) == Draws(n, run[..|acts|], acts[..|acts| - 1])[a.p := a.random % (|g.alive| - 1)]
  {
    hide Inv, Do, Enabled, DrawsInv, Init, Advance, Fires, Told;
    var k := |acts| - 1;
    ActedPrefix(n, run, acts);
    RunDraws(n, run[..k + 1], acts[..k]);
    LastStep(n, run, acts);
    StepDraws(n, run[k], GameOf(n, run[..k + 1]), acts[k], Draws(n, run[..k + 1], acts[..k]));
  }

  /** `child_rand_proc` returns the brother that the number drawn tells, whether for a shot of its own or
      for one that the SIGTERM handler fakes. */
  lemma ShootsTheDrawn(n: nat, run: seq<State>, acts: seq<Actor>, p: nat)
    requires ActedRun(n, run, acts) && p < |run[|run| - 1].children| && run[|run| - 1].children[p].pc.Shoot?
    ensures var draws, alive := Draws(n, run, acts), GameOf(n, run).alive;
            && p in draws && draws[p] < |alive| - 1
            && IsBrother(alive, p, draws[p], run[|run| - 1].children[p].aim)
  {
    hide Inv, InRound, Marks, Boots, Do, Enabled, Init, Draws, Passed, FireSelf, Living;
    var s, g := run[|run| - 1], GameOf(n, run);
    ActedIsRun(n, run, acts);
    RunInv(n, run);
    RunDraws(n, run, acts);
    Stages(n, s, g);
    InvPlayers(n, s, g);
    ShooterStands(n, s, g, p);
    FiresSelf(n, s, g, p);
    assert s.children[p] == s.children[p];
    ShootAim(n, s, g, p);
  }

  lemma ShootAim(n: nat, s: State, g: Game, p: nat)
    requires Shaped(n, s) && p < n && FireSelf(n, s, g, p) && s.children[p].pc.Shoot?
    ensures s.children[p].aim in g.alive && s.children[p].aim != p
  {
    hide Targeted, Candidates;
  }

  lemma ShooterStands(n: nat, s: State, g: Game, p: nat)
    requires Inv(n, s, g) && p < n && Shaped(n, s) && s.children[p].pc.Shoot?
    ensures InRound(n, s, g) && p in g.alive
  {
    hide Inv, InRound, Marks, Boots;
    Stages(n, s, g);
    if Marking(s.parent) {
      MarkOut(n, s, g, p);
    } else if Booting(s.parent) {
      BootShoot(n, s, g, p);
    } else if Firing(s.parent) {
      if p !in g.alive {
        OutPc(n, s, g, p);
      }
    } else {
      OverStands(n, s, g, p);
    }
  }

  lemma BootShoot(n: nat, s: State, g: Game, p: nat)
    requires Boots(n, s, g) && p < n
    ensures Shaped(n, s) && !s.children[p].pc.Shoot?
  {
    assert s.children[p] == s.children[p];
  }

  lemma OverStands(n: nat, s: State, g: Game, p: nat)
    requires Inv(n, s, g) && p < n && !Booting(s.parent) && !Marking(s.parent) && !Firing(s.parent)
    ensures Shaped(n, s) && s.children[p].pc.Gone?
  {
    hide BootInv, MarkInv, FireInv;
    assert s.children[p] == s.children[p];
  }
}
