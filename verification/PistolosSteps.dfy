/** Every step of `Pistolos` keeps the invariant. */
module PistolosSteps {
  import opened FiniteSets
  import opened AtomicRound
  import opened Pistolos
  import opened PistolosInvariant

  // ----- A living child while the round is on -----

  ghost predicate InRound(n: nat, s: State, g: Game) {
    Base(n, s, g) && Firing(s.parent) && FireInv(n, s, g)
  }

  ghost predicate FireSelf(n: nat, s: State, g: Game, p: nat)
    requires Shaped(n, s) && p < n
  {
    && FireChild(n, g.alive, Kicked(s.parent, p), p, s.children[p], s.status[p], s.target[p])
    && (HasTerm(s.children[p]) <==> Targeted(s.children, s.status, g.alive, p))
  }

  lemma FiresSelf(n: nat, s: State, g: Game, p: nat)
    requires InRound(n, s, g) && p < n && p in g.alive
    ensures Shaped(n, s) && FireSelf(n, s, g, p)
    ensures |g.alive| >= 2 && s.aliveCount == |g.alive|
  {
    hide FireChild, OutChildren, ScanInv, Targeted;
  }

  /** A step by which living child `p` changes only what is its own. */
  ghost predicate OwnStep(n: nat, s: State, s': State, alive: set<nat>, p: nat)
    requires Shaped(n, s) && Shaped(n, s') && p < n
  {
    && s'.parent == s.parent && s'.aliveCount == s.aliveCount && s'.rounds == s.rounds && s'.totalDead == s.totalDead
    && s'.children == s.children[p := s'.children[p]]
    && s'.status == s.status[p := s'.status[p]]
    && s'.target == s.target[p := s'.target[p]]
    && (s.usr2 ==> s'.usr2)
    && (s.status[p].shot ==> s'.status[p].shot && s'.target[p] == s.target[p])
    && (s.status[p].deadThisRound ==> s'.status[p].deadThisRound)
    && (Fired(s'.children[p], s'.status[p]) <==> Fired(s.children[p], s.status[p]))
    && (Fired(s.children[p], s.status[p]) ==> s'.children[p].aim == s.children[p].aim)
    && (HasTerm(s'.children[p]) <==> HasTerm(s.children[p]))
    && (WillNotify(s.children[p], s.status[p]) ==> WillNotify(s'.children[p], s'.status[p]) || s'.usr2)
  }

  lemma TargetedKept(n: nat, s: State, s': State, alive: set<nat>, p: nat)
    requires Shaped(n, s) && Shaped(n, s') && p < n && OwnStep(n, s, s', alive, p)
    ensures forall t :: Targeted(s'.children, s'.status, alive, t) <==> Targeted(s.children, s.status, alive, t)
  {
    hide Fired, HasTerm, WillNotify;
    forall t
      ensures Targeted(s'.children, s'.status, alive, t) <==> Targeted(s.children, s.status, alive, t)
    {
      if q: nat :| q in alive && q < n && Fired(s.children[q], s.status[q]) && s.children[q].aim == t {
        assert Fired(s'.children[q], s'.status[q]) && s'.children[q].aim == t;
      }
      if q: nat :| q in alive && q < n && Fired(s'.children[q], s'.status[q]) && s'.children[q].aim == t {
        assert Fired(s.children[q], s.status[q]) && s.children[q].aim == t;
      }
    }
  }

  lemma FinishedKept(n: nat, s: State, s': State, alive: set<nat>, p: nat, q: nat)
    requires Shaped(n, s) && Shaped(n, s') && p < n && q < n && OwnStep(n, s, s', alive, p)
    requires Finished(n, s, q)
    ensures Finished(n, s', q) && s'.target[q] == s.target[q]
  {
    hide Fired, HasTerm, WillNotify;
  }

  lemma ScanKept(n: nat, s: State, s': State, alive: set<nat>, p: nat)
    requires Shaped(n, s) && Shaped(n, s') && p < n && p in alive && OwnStep(n, s, s', alive, p)
    requires ScanInv(n, s, alive)
    ensures ScanInv(n, s', alive)
  {
    hide Finished, Fired, HasTerm, WillNotify;
    forall q {:trigger Finished(n, s', q)} | 0 <= q < n && Finished(n, s, q)
      ensures Finished(n, s', q)
    {
      FinishedKept(n, s, s', alive, p, q);
    }
    if s.parent.Sleep? && !s'.usr2 {
      var q: nat :| q in alive && q < n && WillNotify(s.children[q], s.status[q]);
      assert WillNotify(s'.children[q], s'.status[q]);
    }
  }

  lemma OutKept(n: nat, s: State, s': State, alive: set<nat>, p: nat)
    requires Shaped(n, s) && Shaped(n, s') && p < n && p in alive && OwnStep(n, s, s', alive, p)
    requires OutChildren(n, s, alive)
    requires forall q {:trigger s.status[q]} :: 0 <= q < n && q !in alive ==> s.status[q].dead
    ensures OutChildren(n, s', alive)
    ensures forall q {:trigger s'.status[q]} :: 0 <= q < n && q !in alive ==> s'.status[q].dead
  {
    hide Finished, Fired, HasTerm, WillNotify;
    forall q {:trigger Finished(n, s', q)} | 0 <= q < n && q !in alive
      ensures Finished(n, s', q)
    {
      FinishedKept(n, s, s', alive, p, q);
    }
  }

  lemma FireChildrenKept(n: nat, s: State, s': State, alive: set<nat>, p: nat)
    requires Shaped(n, s) && Shaped(n, s') && p < n && p in alive && OwnStep(n, s, s', alive, p)
    requires FireChildren(n, s, alive) && FireHits(n, s, alive)
    requires FireChild(n, alive, Kicked(s.parent, p), p, s'.children[p], s'.status[p], s'.target[p])
    ensures FireChildren(n, s', alive) && FireHits(n, s', alive)
  {
    TargetedKept(n, s, s', alive, p);
    hide FireChild, Fired, HasTerm, WillNotify, Targeted;
  }

  lemma FireStep(n: nat, s: State, s': State, g: Game, p: nat)
    requires InRound(n, s, g) && p < n && p in g.alive && Shaped(n, s')
    requires OwnStep(n, s, s', g.alive, p)
    requires FireChild(n, g.alive, Kicked(s.parent, p), p, s'.children[p], s'.status[p], s'.target[p])
    ensures InRound(n, s', g)
  {
    hide FireChild, FireChildren, FireHits, OutChildren, ScanInv, Fired, HasTerm, WillNotify;
    OutKept(n, s, s', g.alive, p);
    FireChildrenKept(n, s, s', g.alive, p);
    ScanKept(n, s, s', g.alive, p);
  }

  /** Kept by a step of `p`: it touches only its own, and its own part of the invariant holds after. */
  ghost predicate Own(n: nat, s: State, s': State, g: Game, p: nat)
    requires Shaped(n, s) && p < n
  {
    && Shaped(n, s') && OwnStep(n, s, s', g.alive, p)
    && FireChild(n, g.alive, Kicked(s.parent, p), p, s'.children[p], s'.status[p], s'.target[p])
  }

  lemma WaitStep(n: nat, s: State, g: Game, p: nat, takeTerm: bool)
    requires Shaped(n, s) && p < n && FireSelf(n, s, g, p)
    requires s.children[p].pc.Waiting? && ChildReady(s.children[p], takeTerm)
    ensures Own(n, s, DoWait(s, p, takeTerm), g, p)
  {
    hide Targeted, Candidates;
    assert s.status[p := s.status[p]] == s.status && s.target[p := s.target[p]] == s.target;
  }

  /** The number drawn is below the number of living players other than `p`. */
  lemma PickStep(n: nat, s: State, g: Game, p: nat, random: nat)
    requires Shaped(n, s) && p < n && FireSelf(n, s, g, p) && p in g.alive
    requires s.children[p].pc.Pick? && |g.alive| >= 2 && s.aliveCount == |g.alive|
    ensures Own(n, s, Go(s, p, PickAt(s.children[p].pc.fake, 0, random % (s.aliveCount - 1))), g, p)
  {
    hide Targeted;
    assert Candidates(g.alive, p, 0) == g.alive - {p};
    assert s.status[p := s.status[p]] == s.status && s.target[p := s.target[p]] == s.target;
  }

  lemma CandidatesNext(alive: set<nat>, p: nat, i: nat)
    ensures |Candidates(alive, p, i)| == |Candidates(alive, p, i + 1)| + (if i in alive && i != p then 1 else 0)
  {
    if i in alive && i != p {
      assert Candidates(alive, p, i) == Candidates(alive, p, i + 1) + {i};
    } else {
      assert Candidates(alive, p, i) == Candidates(alive, p, i + 1);
    }
  }

  lemma PickAtNext(n: nat, s: State, g: Game, p: nat, random: nat)
    requires Shaped(n, s) && p < n && FireSelf(n, s, g, p) && s.children[p].pc.PickAt?
    requires random < |Candidates(g.alive, p, s.children[p].pc.i + 1)|
    ensures Own(n, s, Go(s, p, PickAt(s.children[p].pc.fake, s.children[p].pc.i + 1, random)), g, p)
  {
    hide Targeted, Candidates;
    assert s.status[p := s.status[p]] == s.status && s.target[p := s.target[p]] == s.target;
  }

  lemma PickAtFound(n: nat, s: State, g: Game, p: nat, i: nat)
    requires Shaped(n, s) && p < n && FireSelf(n, s, g, p) && s.children[p].pc.PickAt?
    requires i in g.alive && i != p
    ensures Own(n, s, s.(children := s.children[p := s.children[p].(pc := Shoot(s.children[p].pc.fake), aim := i)]), g, p)
  {
    hide Targeted, Candidates;
    assert s.status[p := s.status[p]] == s.status && s.target[p := s.target[p]] == s.target;
  }

  lemma PassedNext(alive: set<nat>, p: nat, i: nat)
    ensures |Passed(alive, p, i + 1)| == |Passed(alive, p, i)| + (if i in alive && i != p then 1 else 0)
  {
    if i in alive && i != p {
      assert Passed(alive, p, i + 1) == Passed(alive, p, i) + {i};
    } else {
      assert Passed(alive, p, i + 1) == Passed(alive, p, i);
    }
  }

  /** The number left to count down and the living brothers passed make up the number drawn; the walk ends
      on the living brother before which that many have been passed. */
  ghost predicate Walks(alive: set<nat>, p: nat, c: Child, c': Child)
    requires c.pc.PickAt?
  {
    var drawn := c.pc.random + |Passed(alive, p, c.pc.i)|;
    if c'.pc.PickAt? then c'.pc.random + |Passed(alive, p, c'.pc.i)| == drawn
    else c'.pc.Shoot? && c'.aim in alive && c'.aim != p && |Passed(alive, p, c'.aim)| == drawn
  }

  /** `child_rand_proc` finds a living brother before it runs out of players, and the one that the number
      drawn tells. */
  lemma PickAtStep(n: nat, s: State, g: Game, p: nat)
    requires Shaped(n, s) && p < n && FireSelf(n, s, g, p) && g.alive <= UpTo(n)
    requires s.children[p].pc.PickAt?
    requires forall q {:trigger s.status[q]} :: 0 <= q < n ==> (s.status[q].dead <==> q !in g.alive)
    ensures Own(n, s, DoPickAt(s, p), g, p)
    ensures Walks(g.alive, p, s.children[p], DoPickAt(s, p).children[p])
  {
    hide Own, Targeted, Candidates, Passed;
    var PickAt(_, i, random) := s.children[p].pc;
    assert random < |Candidates(g.alive, p, i)|;
    CandidatesEnd(n, g.alive, p, i);
    CandidatesNext(g.alive, p, i);
    PassedNext(g.alive, p, i);
    if s.status[i].dead || i == p {
      PickAtNext(n, s, g, p, random);
    } else if random == 0 {
      PickAtFound(n, s, g, p, i);
    } else {
      PickAtNext(n, s, g, p, random - 1);
    }
  }

  lemma CandidatesEnd(n: nat, alive: set<nat>, p: nat, i: nat)
    requires alive <= UpTo(n)
    ensures i >= n ==> |Candidates(alive, p, i)| == 0
  {
    if i >= n {
      assert Candidates(alive, p, i) == {};
    }
  }

  lemma BootNotifyOwn(n: nat, s: State, g: Game, p: nat, takeTerm: bool, random: nat)
    requires Shaped(n, s) && p < n && FireSelf(n, s, g, p) && s.children[p].pc.BootNotify?
    ensures Own(n, s, DoChild(n, s, p, takeTerm, random), g, p)
  {
    hide Targeted, Candidates, DoPickAt, DoShoot, DoWait;
    assert s.status[p := s.status[p]] == s.status && s.target[p := s.target[p]] == s.target;
  }

  lemma SetTargetOwn(n: nat, s: State, g: Game, p: nat, takeTerm: bool, random: nat)
    requires Shaped(n, s) && p < n && FireSelf(n, s, g, p) && s.children[p].pc.SetTarget?
    ensures Own(n, s, DoChild(n, s, p, takeTerm, random), g, p)
  {
    hide Targeted, Candidates, DoPickAt, DoShoot, DoWait;
    assert s.status[p := s.status[p]] == s.status && s.target[p := s.target[p]] == s.target;
  }

  lemma ReadShotOwn(n: nat, s: State, g: Game, p: nat, takeTerm: bool, random: nat)
    requires Shaped(n, s) && p < n && FireSelf(n, s, g, p) && s.children[p].pc.ReadShot?
    ensures Own(n, s, DoChild(n, s, p, takeTerm, random), g, p)
  {
    hide Targeted, Candidates, DoPickAt, DoShoot, DoWait;
    assert s.status[p := s.status[p]] == s.status && s.target[p := s.target[p]] == s.target;
  }

  lemma WriteShotOwn(n: nat, s: State, g: Game, p: nat, takeTerm: bool, random: nat)
    requires Shaped(n, s) && p < n && FireSelf(n, s, g, p) && s.children[p].pc.WriteShot?
    ensures Own(n, s, DoChild(n, s, p, takeTerm, random), g, p)
  {
    hide Targeted, Candidates, DoPickAt, DoShoot, DoWait;
    assert s.status[p := s.status[p]] == s.status && s.target[p := s.target[p]] == s.target;
  }

  lemma NotifyShotOwn(n: nat, s: State, g: Game, p: nat, takeTerm: bool, random: nat)
    requires Shaped(n, s) && p < n && FireSelf(n, s, g, p) && s.children[p].pc.NotifyShot?
    ensures Own(n, s, DoChild(n, s, p, takeTerm, random), g, p)
  {
    hide Targeted, Candidates, DoPickAt, DoShoot, DoWait;
    assert s.status[p := s.status[p]] == s.status && s.target[p := s.target[p]] == s.target;
  }

  lemma AskShotOwn(n: nat, s: State, g: Game, p: nat, takeTerm: bool, random: nat)
    requires Shaped(n, s) && p < n && FireSelf(n, s, g, p) && s.children[p].pc.AskShot?
    ensures Own(n, s, DoChild(n, s, p, takeTerm, random), g, p)
  {
    hide Targeted, Candidates, DoPickAt, DoShoot, DoWait;
    assert s.status[p := s.status[p]] == s.status && s.target[p := s.target[p]] == s.target;
  }

  lemma ReadDeadOwn(n: nat, s: State, g: Game, p: nat, takeTerm: bool, random: nat)
    requires Shaped(n, s) && p < n && FireSelf(n, s, g, p) && s.children[p].pc.ReadDead?
    ensures Own(n, s, DoChild(n, s, p, takeTerm, random), g, p)
  {
    hide Targeted, Candidates, DoPickAt, DoShoot, DoWait;
    assert s.status[p := s.status[p]] == s.status && s.target[p := s.target[p]] == s.target;
  }

  lemma WriteDeadOwn(n: nat, s: State, g: Game, p: nat, takeTerm: bool, random: nat)
    requires Shaped(n, s) && p < n && FireSelf(n, s, g, p) && s.children[p].pc.WriteDead?
    ensures Own(n, s, DoChild(n, s, p, takeTerm, random), g, p)
  {
    hide Targeted, Candidates, DoPickAt, DoShoot, DoWait;
    assert s.status[p := s.status[p]] == s.status && s.target[p := s.target[p]] == s.target;
  }

  lemma NotifyDeadOwn(n: nat, s: State, g: Game, p: nat, takeTerm: bool, random: nat)
    requires Shaped(n, s) && p < n && FireSelf(n, s, g, p) && s.children[p].pc.NotifyDead?
    ensures Own(n, s, DoChild(n, s, p, takeTerm, random), g, p)
  {
    hide Targeted, Candidates, DoPickAt, DoShoot, DoWait;
    assert s.status[p := s.status[p]] == s.status && s.target[p := s.target[p]] == s.target;
  }

  lemma ExitingOwn(n: nat, s: State, g: Game, p: nat, takeTerm: bool, random: nat)
    requires Shaped(n, s) && p < n && FireSelf(n, s, g, p) && s.children[p].pc.Exiting?
    ensures Own(n, s, DoChild(n, s, p, takeTerm, random), g, p)
  {
    hide Targeted, Candidates, DoPickAt, DoShoot, DoWait;
    assert s.status[p := s.status[p]] == s.status && s.target[p := s.target[p]] == s.target;
  }

  lemma ShootTargets(n: nat, s: State, s': State, alive: set<nat>, p: nat)
    requires Shaped(n, s) && Shaped(n, s') && p < n && p in alive && s.children[p].pc.Shoot? && !s.status[p].shot
    requires s.children[p].aim in alive && s.children[p].aim != p && s.children[p].aim < n
    requires s' == DoShoot(s, p)
    ensures forall t :: Targeted(s'.children, s'.status, alive, t) <==>
                        Targeted(s.children, s.status, alive, t) || t == s.children[p].aim
  {
    var aim := s.children[p].aim;
    forall t
      ensures Targeted(s'.children, s'.status, alive, t) <==> Targeted(s.children, s.status, alive, t) || t == aim
    {
      if q: nat :| q in alive && q < n && Fired(s.children[q], s.status[q]) && s.children[q].aim == t {
        assert Fired(s'.children[q], s'.status[q]) && s'.children[q].aim == t;
      }
      if q: nat :| q in alive && q < n && Fired(s'.children[q], s'.status[q]) && s'.children[q].aim == t {
        assert q == p || (Fired(s.children[q], s.status[q]) && s.children[q].aim == t);
      }
      assert Fired(s'.children[p], s'.status[p]) && s'.children[p].aim == aim;
    }
  }

  /** The shooter has fired and SIGTERM is pending at the victim, unless it is already dying. */
  lemma ShootChild(n: nat, s: State, g: Game, p: nat, q: nat)
    requires Shaped(n, s) && p < n && q < n && FireSelf(n, s, g, p) && s.children[p].pc.Shoot? && g.alive <= UpTo(n)
    requires FireChild(n, g.alive, Kicked(s.parent, q), q, s.children[q], s.status[q], s.target[q])
    ensures var s' := DoShoot(s, p);
            && s.children[p].aim in g.alive && s.children[p].aim != p && !s.status[p].shot
            && Shaped(n, s')
            && FireChild(n, g.alive, Kicked(s.parent, q), q, s'.children[q], s'.status[q], s'.target[q])
            && (HasTerm(s'.children[q]) <==> HasTerm(s.children[q]) || q == s.children[p].aim)
            && (WillNotify(s.children[q], s.status[q]) ==> WillNotify(s'.children[q], s'.status[q]))
  {
    hide Targeted, Candidates, DoShoot;
    ShootIs(n, s, g, p);
    var s', aim := DoShoot(s, p), s.children[p].aim;
    if q == p {
      assert s'.children[q] == s.children[q].(pc := SetTarget(s.children[p].pc.fake));
    } else if q == aim {
      assert s'.children[q] == s.children[q].(term := true);
    } else {
      assert s'.children[q] == s.children[q];
    }
  }

  lemma ShootIs(n: nat, s: State, g: Game, p: nat)
    requires Shaped(n, s) && p < n && FireSelf(n, s, g, p) && s.children[p].pc.Shoot? && g.alive <= UpTo(n)
    ensures var s', c := DoShoot(s, p), s.children[p];
            && c.aim in g.alive && c.aim != p && c.aim < n && !s.status[p].shot
            && s' == s.(children := s.children[p := c.(pc := SetTarget(c.pc.fake))]
                                              [c.aim := s.children[c.aim].(term := true)])
  {
    hide Targeted, Candidates;
  }

  lemma ShootChildren(n: nat, s: State, g: Game, p: nat)
    requires InRound(n, s, g) && p < n && p in g.alive && s.children[p].pc.Shoot?
    ensures var s' := DoShoot(s, p);
            Shaped(n, s') && FireChildren(n, s', g.alive) && FireHits(n, s', g.alive)
    ensures s.parent.Sleep? && SomeoneWillNotify(s, g.alive) ==> SomeoneWillNotify(DoShoot(s, p), g.alive)
    ensures s.children[p].aim in g.alive && s.children[p].aim != p
  {
    hide FireChild, HasTerm, WillNotify, Targeted, OutChildren, ScanInv, DoShoot;
    var s' := DoShoot(s, p);
    FiresSelf(n, s, g, p);
    ShootChild(n, s, g, p, p);
    ShootTargets(n, s, s', g.alive, p);
    forall q {:trigger s'.children[q]} | 0 <= q < n && q in g.alive
      ensures FireChild(n, g.alive, Kicked(s'.parent, q), q, s'.children[q], s'.status[q], s'.target[q])
      ensures HasTerm(s'.children[q]) <==> HasTerm(s.children[q]) || q == s.children[p].aim
      ensures WillNotify(s.children[q], s.status[q]) ==> WillNotify(s'.children[q], s'.status[q])
      ensures HasTerm(s.children[q]) <==> Targeted(s.children, s.status, g.alive, q)
    {
      FiresSelf(n, s, g, q);
      ShootChild(n, s, g, p, q);
      ShootParent(s, p);
    }
    if s.parent.Sleep? && SomeoneWillNotify(s, g.alive) {
      var q: nat :| q in g.alive && q < n && WillNotify(s.children[q], s.status[q]);
      assert WillNotify(s'.children[q], s'.status[q]);
    }
  }

  lemma ShootParent(s: State, p: nat)
    requires p < |s.children| && s.children[p].pc.Shoot?
    ensures var s' := DoShoot(s, p);
            && s'.parent == s.parent && s'.usr2 == s.usr2 && s'.status == s.status && s'.target == s.target
            && s'.aliveCount == s.aliveCount && s'.rounds == s.rounds && s'.totalDead == s.totalDead
            && |s'.children| == |s.children|
            && forall q {:trigger s'.children[q]} :: 0 <= q < |s.children| && q != p && q != s.children[p].aim ==>
                s'.children[q] == s.children[q]
  {
  }

  lemma ShootStep(n: nat, s: State, g: Game, p: nat)
    requires InRound(n, s, g) && p < n && p in g.alive && s.children[p].pc.Shoot?
    ensures InRound(n, DoShoot(s, p), g)
  {
    hide FireChild, FireChildren, FireHits, DoShoot, SomeoneWillNotify;
    ShootChildren(n, s, g, p);
    ShootParent(s, p);
    var s' := DoShoot(s, p);
    assert forall q {:trigger Finished(n, s', q)} :: 0 <= q < n && Finished(n, s, q) ==> Finished(n, s', q);
  }

  // ----- A dead child on its way out -----

  lemma LeaveTargets(n: nat, s: State, p: nat, c: Child, alive: set<nat>)
    requires Shaped(n, s) && p < n && p !in alive
    ensures forall t :: Targeted(s.children[p := c], s.status, alive, t) <==> Targeted(s.children, s.status, alive, t)
    ensures SomeoneWillNotify(s, alive) <==> SomeoneWillNotify(s.(children := s.children[p := c]), alive)
  {
    hide Fired, WillNotify;
    var children' := s.children[p := c];
    forall t
      ensures Targeted(children', s.status, alive, t) <==> Targeted(s.children, s.status, alive, t)
    {
      if q: nat :| q in alive && q < n && Fired(s.children[q], s.status[q]) && s.children[q].aim == t {
        assert children'[q] == s.children[q];
      }
      if q: nat :| q in alive && q < n && Fired(children'[q], s.status[q]) && children'[q].aim == t {
        assert children'[q] == s.children[q];
      }
    }
    if q: nat :| q in alive && q < n && WillNotify(s.children[q], s.status[q]) {
      assert children'[q] == s.children[q];
    }
    if q: nat :| q in alive && q < n && WillNotify(children'[q], s.status[q]) {
      assert children'[q] == s.children[q];
    }
  }

  lemma LeaveFire(n: nat, s: State, g: Game, p: nat, pc: Pc, usr2: bool)
    requires InRound(n, s, g) && p < n && p !in g.alive && Leaving(pc) && (s.usr2 ==> usr2)
    ensures InRound(n, Go(s, p, pc).(usr2 := usr2), g)
  {
    hide FireChild, HasTerm, Targeted, SomeoneWillNotify, Fired, WillNotify;
    var s' := Go(s, p, pc).(usr2 := usr2);
    LeaveTargets(n, s, p, s.children[p].(pc := pc), g.alive);
    LeaveSleep(s.children[p := s.children[p].(pc := pc)], s, s', g.alive);
    assert forall q {:trigger Finished(n, s', q)} :: 0 <= q < n && Finished(n, s, q) ==> Finished(n, s', q);
  }

  lemma LeaveSleep(children: seq<Child>, s: State, s': State, alive: set<nat>)
    requires s'.children == children && s'.status == s.status
    ensures SomeoneWillNotify(s.(children := children), alive) <==> SomeoneWillNotify(s', alive)
  {
  }

  // ----- The parent while the round is on -----

  lemma SameFinished(n: nat, s: State, s': State)
    requires Shaped(n, s) && Shaped(n, s') && s'.status == s.status && s'.target == s.target
    ensures forall q {:trigger Finished(n, s', q)} :: 0 <= q < n ==> (Finished(n, s', q) <==> Finished(n, s, q))
  {
  }

  /** The parent looks around: nobody else notices. */
  lemma LookStep(n: nat, s: State, g: Game, parent: ParentPc, usr2: bool)
    requires InRound(n, s, g) && Firing(parent)
    requires forall q {:trigger Kicked(parent, q)} :: 0 <= q < n && q in g.alive ==>
        (Kicked(parent, q) <==> Kicked(s.parent, q))
    requires ScanInv(n, s.(parent := parent, usr2 := usr2), g.alive)
    ensures InRound(n, s.(parent := parent, usr2 := usr2), g)
  {
    hide FireChild, Targeted, ScanInv, Finished, Kicked;
    SameFinished(n, s, s.(parent := parent, usr2 := usr2));
  }

  lemma SeenSame(n: nat, s: State, parent: ParentPc, usr2: bool, k: nat)
    requires Shaped(n, s) && k <= n
    ensures Seen(n, s.(parent := parent, usr2 := usr2), k) <==> Seen(n, s, k)
  {
    hide Finished;
    SameFinished(n, s, s.(parent := parent, usr2 := usr2));
    assert forall q {:trigger Finished(n, s, q)} :: 0 <= q < n ==>
        (Finished(n, s.(parent := parent, usr2 := usr2), q) <==> Finished(n, s, q));
  }

  /** What makes the parent go to sleep is a child that has still to notify it. */
  lemma WillBeWoken(n: nat, s: State, g: Game, k: nat)
    requires InRound(n, s, g) && k < n && !Kicking(s.parent) && g.alive <= UpTo(n)
    requires !s.status[k].shot || (s.target[k] < n && !s.status[s.target[k]].deadThisRound)
    ensures SomeoneWillNotify(s, g.alive)
  {
    hide Candidates, ScanInv, HasTerm;
    assert Finished(n, s, k) || k in g.alive;
    FiresSelf(n, s, g, k);
    if s.status[k].shot {
      var t := s.target[k];
      assert Fired(s.children[k], s.status[k]) && s.children[k].aim == t;
      assert Targeted(s.children, s.status, g.alive, t);
      FiresSelf(n, s, g, t);
      assert WillNotify(s.children[t], s.status[t]) by {
        Undead(s.children[t]);
      }
    } else {
      assert WillNotify(s.children[k], s.status[k]);
    }
  }

  lemma Undead(c: Child)
    ensures HasTerm(c) && !Leaving(c.pc) ==> !c.pc.Exiting? && !c.pc.Gone?
  {
  }

  lemma ScanTargets(n: nat, s: State, g: Game, k: nat)
    requires InRound(n, s, g) && k < n && s.status[k].shot
    ensures s.target[k] < n
  {
    hide Candidates, ScanInv, HasTerm, Targeted;
    assert Finished(n, s, k) || k in g.alive;
    if k in g.alive {
      FiresSelf(n, s, g, k);
    }
  }

  /** What the parent knows at each point of the scan. */
  ghost predicate ScanAt(n: nat, s: State, parent: ParentPc)
    requires Shaped(n, s)
  {
    match parent
    case ScanReady(k) => k <= n && Seen(n, s, k)
    case ScanShot(k) => k < n && Seen(n, s, k)
    case ScanTarget(k) => k < n && Seen(n, s, k) && s.status[k].shot
    case ScanLook(k) => k < n && Seen(n, s, k) && s.status[k].shot
    case ScanHit(k, t) => k < n && Seen(n, s, k) && s.status[k].shot && t == s.target[k]
    case _ => false
  }

  lemma ScanFacts(n: nat, s: State, g: Game)
    requires InRound(n, s, g) && !Kicking(s.parent) && !s.parent.Sleep?
    ensures Shaped(n, s) && g.alive <= UpTo(n) && ScanAt(n, s, s.parent)
  {
    hide FireChildren, FireHits, OutChildren, Seen;
  }

  lemma ToScan(n: nat, s: State, g: Game, parent: ParentPc, usr2: bool)
    requires InRound(n, s, g) && !Kicking(s.parent) && ScanAt(n, s, parent)
    ensures InRound(n, s.(parent := parent, usr2 := usr2), g)
  {
    hide InRound, Seen;
    RoundShaped(n, s, g);
    SeenSame(n, s, parent, usr2, parent.k);
    LookStep(n, s, g, parent, usr2);
  }

  lemma ToSleep(n: nat, s: State, g: Game, k: nat)
    requires InRound(n, s, g) && k < n && !Kicking(s.parent) && g.alive <= UpTo(n)
    requires !s.status[k].shot || (s.target[k] < n && !s.status[s.target[k]].deadThisRound)
    ensures InRound(n, s.(parent := Sleep, usr2 := s.usr2), g)
  {
    hide InRound, SomeoneWillNotify;
    var s' := s.(parent := Sleep, usr2 := s.usr2);
    WillBeWoken(n, s, g, k);
    SleepSame(s, s', g.alive);
    LookStep(n, s, g, Sleep, s.usr2);
  }

  lemma ScanStep(n: nat, s: State, g: Game)
    requires InRound(n, s, g) && !Kicking(s.parent) && Firing(s.parent)
    requires !(s.parent.ScanReady? && s.parent.k >= n) && (s.parent.Sleep? ==> s.usr2)
    ensures InRound(n, DoFire(n, s), g)
  {
    hide InRound, Seen, Kicking, ScanAt, DoFire;
    RoundShaped(n, s, g);
    if s.parent.Sleep? {
      SleepEnds(n, s);
      ToScan(n, s, g, ScanReady(0), false);
    } else {
      ScanFacts(n, s, g);
      ScanBounds(n, s);
      var k := s.parent.k;
      if s.status[k].shot {
        ScanTargets(n, s, g, k);
      }
      ScanNext(n, s);
      var parent := DoFire(n, s).parent;
      if parent.Sleep? {
        ToSleep(n, s, g, k);
      } else {
        ToScan(n, s, g, parent, s.usr2);
      }
    }
  }

  lemma SleepEnds(n: nat, s: State)
    requires Shaped(n, s) && s.parent.Sleep?
    ensures DoFire(n, s) == s.(parent := ScanReady(0), usr2 := false) && ScanAt(n, s, ScanReady(0))
  {
    SeenNone(n, s);
  }

  lemma ScanBounds(n: nat, s: State)
    requires Shaped(n, s) && ScanAt(n, s, s.parent) && !(s.parent.ScanReady? && s.parent.k >= n)
    ensures s.parent.k < n
  {
    hide Seen;
  }

  /** One access of `round_over`: what makes it give up, and what it knows when it goes on. */
  lemma ScanNext(n: nat, s: State)
    requires Shaped(n, s) && ScanAt(n, s, s.parent) && s.parent.k < n
    requires s.status[s.parent.k].shot ==> s.target[s.parent.k] < n
    ensures var k, s' := s.parent.k, DoFire(n, s);
            && s' == s.(parent := s'.parent, usr2 := s.usr2)
            && if s'.parent.Sleep? then !s.status[k].shot || !s.status[s.target[k]].deadThisRound
               else ScanAt(n, s, s'.parent)
  {
    hide Seen;
    var k := s.parent.k;
    if s.parent.ScanHit? && s.status[s.target[k]].deadThisRound {
      SeenNext(n, s, s, k);
    }
  }

  lemma RoundShaped(n: nat, s: State, g: Game)
    requires InRound(n, s, g)
    ensures Shaped(n, s)
  {
    hide FireInv;
  }

  lemma SleepSame(s: State, s': State, alive: set<nat>)
    requires s'.children == s.children && s'.status == s.status
    ensures SomeoneWillNotify(s', alive) <==> SomeoneWillNotify(s, alive)
  {
  }

  lemma SeenNone(n: nat, s: State)
    requires Shaped(n, s)
    ensures Seen(n, s, 0)
  {
  }

  lemma SeenNext(n: nat, s: State, s': State, k: nat)
    requires Shaped(n, s) && Shaped(n, s') && k < n && Seen(n, s, k) && s'.status == s.status && s'.target == s.target
    requires s.status[k].shot && s.target[k] < n && s.status[s.target[k]].deadThisRound
    ensures Seen(n, s', k + 1)
  {
    SameFinished(n, s, s');
  }

  lemma KickChild(n: nat, s: State, g: Game, k: nat)
    requires InRound(n, s, g) && s.parent == KickSend(k) && k < n && k in g.alive
    ensures var s' := s.(parent := Kick(k + 1), children := s.children[k := s.children[k].(usr1 := true)]);
            FireChildren(n, s', g.alive) && FireHits(n, s', g.alive)
  {
    hide Candidates, OutChildren, ScanInv, HasTerm, Targeted;
    var s' := s.(parent := Kick(k + 1), children := s.children[k := s.children[k].(usr1 := true)]);
    FiresSelf(n, s, g, k);
    UsrHarmless(n, s, g.alive, k);
    assert FireChildren(n, s', g.alive);
  }

  lemma UsrHarmless(n: nat, s: State, alive: set<nat>, k: nat)
    requires Shaped(n, s) && k < n
    ensures var c := s.children[k].(usr1 := true);
            && (HasTerm(c) <==> HasTerm(s.children[k]))
            && forall t :: Targeted(s.children[k := c], s.status, alive, t) <==> Targeted(s.children, s.status, alive, t)
  {
    var children' := s.children[k := s.children[k].(usr1 := true)];
    forall t
      ensures Targeted(children', s.status, alive, t) <==> Targeted(s.children, s.status, alive, t)
    {
      if q: nat :| q in alive && q < n && Fired(s.children[q], s.status[q]) && s.children[q].aim == t {
        assert Fired(children'[q], s.status[q]) && children'[q].aim == t;
      }
      if q: nat :| q in alive && q < n && Fired(children'[q], s.status[q]) && children'[q].aim == t {
        assert Fired(s.children[q], s.status[q]) && s.children[q].aim == t;
      }
    }
  }

  lemma KickStep(n: nat, s: State, g: Game)
    requires InRound(n, s, g) && Kicking(s.parent)
    ensures InRound(n, DoFire(n, s), g)
  {
    hide InRound, ScanInv;
    KickFacts(n, s, g);
    var s' := DoFire(n, s);
    var k := s.parent.k;
    if s.parent.KickSend? {
      KickSent(n, s, g);
    } else {
      if k < n && k in g.alive {
        FiresSelf(n, s, g, k);
        NotDeadYet(n, s, g, k);
      }
      KickScan(n, s, g.alive, s'.parent);
      LookStep(n, s, g, s'.parent, s.usr2);
    }
  }

  lemma KickFacts(n: nat, s: State, g: Game)
    requires InRound(n, s, g) && Kicking(s.parent)
    ensures Shaped(n, s) && s.parent.k <= n
    ensures s.parent.KickSend? ==> s.parent.k < n && s.parent.k in g.alive
    ensures forall q {:trigger s.status[q]} :: 0 <= q < n && q !in g.alive ==> s.status[q].dead
  {
    hide FireChildren, FireHits, OutChildren;
  }

  lemma KickScan(n: nat, s: State, alive: set<nat>, parent: ParentPc)
    requires Shaped(n, s)
    requires parent == ScanReady(0) || (parent.Kick? && parent.k <= n) ||
             (parent.KickSend? && parent.k < n && parent.k in alive)
    ensures ScanInv(n, s.(parent := parent, usr2 := s.usr2), alive)
  {
    SeenNone(n, s.(parent := parent, usr2 := s.usr2));
  }

  lemma KickSent(n: nat, s: State, g: Game)
    requires InRound(n, s, g) && s.parent.KickSend?
    ensures Shaped(n, s) && s.parent.k < n
    ensures InRound(n, s.(parent := Kick(s.parent.k + 1),
                          children := s.children[s.parent.k := s.children[s.parent.k].(usr1 := true)]), g)
  {
    hide FireChildren, FireHits, Finished, SomeoneWillNotify;
    var k := s.parent.k;
    KickChild(n, s, g, k);
    SameFinished(n, s, s.(parent := Kick(k + 1), children := s.children[k := s.children[k].(usr1 := true)]));
  }

  lemma NotDeadYet(n: nat, s: State, g: Game, k: nat)
    requires Shaped(n, s) && k < n && FireSelf(n, s, g, k)
    ensures !s.status[k].dead
  {
    hide Candidates, Targeted;
  }

  // ----- The end of a round -----

  ghost function AimOf(target: seq<nat>): nat -> nat {
    (q: nat) => if q < |target| then target[q] else 0
  }

  /** Once `round_over` has passed every child: what each living child looks like. */
  lemma OverChild(n: nat, s: State, g: Game, q: nat)
    requires InRound(n, s, g) && s.parent.ScanReady? && s.parent.k == n && q < n && q in g.alive && g.alive <= UpTo(n)
    ensures Finished(n, s, q) && s.target[q] in g.alive && s.target[q] != q && s.children[q].aim == s.target[q]
    ensures Fired(s.children[q], s.status[q])
    ensures s.status[q].deadThisRound ==> HasTerm(s.children[q]) && Leaving(s.children[q].pc)
    ensures !HasTerm(s.children[q]) ==> MarkChild(false, s.children[q], s.status[q])
  {
    hide Targeted, Candidates, OutChildren;
    FiresSelf(n, s, g, q);
    assert Finished(n, s, q);
  }

  lemma OverHits(n: nat, s: State, g: Game)
    requires InRound(n, s, g) && s.parent.ScanReady? && s.parent.k == n && g.alive <= UpTo(n)
    ensures Aimed(g.alive, AimOf(s.target))
    ensures forall t: nat {:trigger s.status[t]} :: t in g.alive ==>
        (s.status[t].deadThisRound <==> Hit(g.alive, AimOf(s.target), t))
    ensures forall t: nat {:trigger s.children[t]} :: t in g.alive ==>
        (HasTerm(s.children[t]) <==> s.status[t].deadThisRound)
  {
    hide HasTerm, Fired, FireChild, OutChildren, ScanInv;
    var aim := AimOf(s.target);
    forall q: nat {:trigger aim(q)} | q in g.alive
      ensures aim(q) in g.alive && aim(q) != q
    {
      OverChild(n, s, g, q);
    }
    forall t: nat | t in g.alive
      ensures s.status[t].deadThisRound <==> Hit(g.alive, aim, t)
      ensures HasTerm(s.children[t]) <==> s.status[t].deadThisRound
    {
      OverChild(n, s, g, t);
      FiresSelf(n, s, g, t);
      if Targeted(s.children, s.status, g.alive, t) {
        var q: nat :| q in g.alive && q < n && Fired(s.children[q], s.status[q]) && s.children[q].aim == t;
        OverChild(n, s, g, q);
        assert aim(q) == t;
      }
      if q: nat :| q in g.alive && aim(q) == t {
        OverChild(n, s, g, q);
      }
    }
  }

  lemma OverChildren(n: nat, s: State, g: Game)
    requires InRound(n, s, g) && s.parent.ScanReady? && s.parent.k == n && g.alive <= UpTo(n)
    ensures var s' := s.(parent := MarkAsk(0), totalDead := 0);
            var alive := Living(s, g.alive);
            && MarkChildren(n, s'.children, s'.status, alive, 0)
            && MarkDead(n, s'.status, alive, 0)
            && OutChildren(n, s', alive)
  {
    hide HasTerm, Fired, Hit, Aimed, Finished, FireChildren, FireHits;
    var s' := s.(parent := MarkAsk(0), totalDead := 0);
    var alive := Living(s, g.alive);
    OverHits(n, s, g);
    SameFinished(n, s, s');
    forall q {:trigger s'.children[q]} | 0 <= q < n
      ensures q in alive ==> MarkChild(false, s'.children[q], s'.status[q])
      ensures q !in alive ==> Leaving(s'.children[q].pc) && s'.status[q].deadThisRound
    {
      if q in g.alive {
        OverChild(n, s, g, q);
      }
    }
    forall q {:trigger Finished(n, s', q)} | 0 <= q < n
      ensures Finished(n, s', q)
    {
      assert Finished(n, s, q);
    }
  }

  /** `round_over` has returned 1: everybody alive has fired once, exactly the targets are dead, nobody
      who survived has a signal pending, and that is one round of the atomic game. */
  lemma RoundEnd(n: nat, s: State, g: Game)
    requires InRound(n, s, g) && s.parent.ScanReady? && s.parent.k >= n
    ensures var g' := Game(Living(s, g.alive), g.rounds + 1);
            Round(g, g') && Marks(n, s.(parent := MarkAsk(0), totalDead := 0), g')
  {
    hide InRound, MarkInv, Living, Round, Fires, AimOf, MarkChildren, MarkDead, OutChildren;
    var g' := Game(Living(s, g.alive), g.rounds + 1);
    var s' := s.(parent := MarkAsk(0), totalDead := 0);
    OverFacts(n, s, g);
    OverIsRound(n, s, g);
    OverChildren(n, s, g);
    RoundKills(g, g');
    MarkBegins(n, s', g');
  }

  lemma MarkBegins(n: nat, s: State, g: Game)
    requires Shaped(n, s) && s.parent == MarkAsk(0) && s.totalDead == 0 && s.rounds == g.rounds
    requires MarkChildren(n, s.children, s.status, g.alive, 0) && MarkDead(n, s.status, g.alive, 0)
    requires OutChildren(n, s, g.alive)
    ensures MarkInv(n, s, g)
  {
    hide MarkChildren, MarkDead, OutChildren;
    assert Dead(g.alive, 0) == {};
  }

  lemma OverFacts(n: nat, s: State, g: Game)
    requires InRound(n, s, g)
    ensures Shaped(n, s) && g.alive <= UpTo(n)
    ensures g.rounds + |g.alive| <= n && |g.alive| >= 2 && s.rounds == g.rounds + 1
    ensures s.parent.ScanReady? ==> s.parent.k <= n
  {
    hide FireChildren, FireHits, OutChildren;
  }

  lemma OverRound(n: nat, s: State, g: Game)
    requires Shaped(n, s) && g.alive <= UpTo(n) && |g.alive| >= 2
    requires Aimed(g.alive, AimOf(s.target))
    requires forall t: nat {:trigger s.status[t]} :: t in g.alive ==>
        (s.status[t].deadThisRound <==> Hit(g.alive, AimOf(s.target), t))
    ensures var g' := Game(Living(s, g.alive), g.rounds + 1); Round(g, g') && Fires(g, AimOf(s.target), g')
  {
    hide Hit, Aimed, AimOf;
    assert Fires(g, AimOf(s.target), Game(Living(s, g.alive), g.rounds + 1));
  }

  lemma OverIsRound(n: nat, s: State, g: Game)
    requires InRound(n, s, g) && s.parent.ScanReady? && s.parent.k == n && g.alive <= UpTo(n) && |g.alive| >= 2
    ensures var g' := Game(Living(s, g.alive), g.rounds + 1); Round(g, g') && Fires(g, AimOf(s.target), g')
  {
    hide HasTerm, Hit, Aimed, Living, Round, Fires, AimOf, FireChildren, FireHits, OutChildren, ScanInv;
    OverHits(n, s, g);
    OverRound(n, s, g);
  }

  // ----- Preparing a round -----

  ghost predicate Marks(n: nat, s: State, g: Game) {
    Base(n, s, g) && Marking(s.parent) && MarkInv(n, s, g)
  }

  lemma MarkChildStep(n: nat, s: State, g: Game, p: nat, takeTerm: bool, random: nat)
    requires Marks(n, s, g) && p < n && ChildReady(s.children[p], takeTerm)
    ensures var pc := s.children[p].pc;
            pc.BootNotify? || (pc.NotifyShot? && !pc.fake) || pc.NotifyDead? || pc.Exiting?
  {
    assert s.children[p] == s.children[p];
  }

  lemma MarkQuiet(n: nat, s: State, g: Game, p: nat, pc: Pc, usr2: bool)
    requires Marks(n, s, g) && p < n
    requires if p in g.alive then Idle(pc) else Leaving(pc)
    ensures Marks(n, Go(s, p, pc).(usr2 := usr2), g)
  {
    hide OutChildren, MarkDead, MarkChildren, MarkAt, Idle, Leaving;
    var s' := Go(s, p, pc).(usr2 := usr2);
    OutLeave(n, s, g.alive, p, pc, usr2);
    MarkChildrenKept(n, s.children, s.status, g.alive, Prepared(n, s.parent), p, pc);
    MarkAtKept(n, s, s', g.alive);
  }

  lemma MarkAtKept(n: nat, s: State, s': State, alive: set<nat>)
    requires Shaped(n, s) && Shaped(n, s') && MarkAt(n, s, alive)
    requires s'.parent == s.parent && s'.status == s.status && s'.totalDead == s.totalDead
    ensures MarkAt(n, s', alive)
  {
    hide Dead;
  }

  lemma OutLeave(n: nat, s: State, alive: set<nat>, p: nat, pc: Pc, usr2: bool)
    requires Shaped(n, s) && p < n && OutChildren(n, s, alive) && (p !in alive ==> Leaving(pc))
    ensures OutChildren(n, Go(s, p, pc).(usr2 := usr2), alive)
  {
    hide Finished;
    SameFinished(n, s, Go(s, p, pc).(usr2 := usr2));
  }

  lemma MarkChildrenKept(n: nat, children: seq<Child>, status: seq<Status>, alive: set<nat>, prepared: nat, p: nat, pc: Pc)
    requires |children| == |status| == n && p < n && (p in alive ==> Idle(pc))
    requires MarkChildren(n, children, status, alive, prepared)
    ensures MarkChildren(n, children[p := children[p].(pc := pc)], status, alive, prepared)
  {
  }

  lemma DeadNext(alive: set<nat>, k: nat)
    ensures |Dead(alive, k + 1)| == |Dead(alive, k)| + (if k in alive then 0 else 1)
  {
    if k in alive {
      assert Dead(alive, k + 1) == Dead(alive, k);
    } else {
      assert Dead(alive, k + 1) == Dead(alive, k) + {k};
    }
  }

  lemma DeadAll(n: nat, alive: set<nat>)
    requires alive <= UpTo(n)
    ensures |Dead(alive, n)| == n - |alive|
  {
    assert UpTo(n) == Dead(alive, n) + alive;
  }

  /** Marking and unmarking: nobody else's bits that matter change. */
  lemma MarkFinished(n: nat, s: State, s': State, g: Game, k: nat)
    requires Shaped(n, s) && Shaped(n, s') && k < n && OutChildren(n, s, g.alive)
    requires s'.children == s.children && s'.target == s.target && s'.status == s.status[k := s'.status[k]]
    requires k in g.alive ==> !s.status[k].deadThisRound
    requires k !in g.alive ==> s'.status[k] == s.status[k].(dead := true)
    ensures OutChildren(n, s', g.alive)
  {
    forall q {:trigger Finished(n, s', q)} | 0 <= q < n && q !in g.alive
      ensures Finished(n, s', q)
    {
      assert Finished(n, s, q);
    }
  }

  lemma MarkSelf(n: nat, s: State, g: Game, k: nat)
    requires Marks(n, s, g) && k < n
    ensures if k in g.alive then MarkChild(k < Prepared(n, s.parent), s.children[k], s.status[k])
            else Leaving(s.children[k].pc) && s.status[k].deadThisRound
  {
    hide Finished, MarkChild, MarkAt, MarkDead;
    assert s.children[k] == s.children[k] && s.status[k] == s.status[k];
  }

  lemma MarkNext(n: nat, s: State, s': State, g: Game, k: nat, prepared: nat, prepared': nat)
    requires Shaped(n, s) && Shaped(n, s') && k < n && prepared <= prepared' <= k + 1
    requires s'.children == s.children && s'.status == s.status[k := s'.status[k]] && prepared >= k
    requires MarkChildren(n, s.children, s.status, g.alive, prepared) && MarkDead(n, s.status, g.alive, prepared)
    requires k in g.alive ==> MarkChild(k < prepared', s'.children[k], s'.status[k])
    requires k !in g.alive && k < prepared' ==> s'.status[k].dead
    ensures MarkChildren(n, s'.children, s'.status, g.alive, prepared') && MarkDead(n, s'.status, g.alive, prepared')
  {
    hide MarkChild;
  }

  lemma MarkWordStep(n: nat, s: State, g: Game)
    requires Marks(n, s, g) && (s.parent.MarkWrite? || s.parent.MarkReady?)
    ensures Marks(n, DoMark(n, s), g)
  {
    hide OutChildren, MarkChildren, MarkDead, Finished, Idle, Dead;
    var s' := DoMark(n, s);
    var k := s.parent.k;
    MarkSelf(n, s, g, k);
    MarkFinished(n, s, s', g, k);
    DeadNext(g.alive, k);
    MarkNext(n, s, s', g, k, k, Prepared(n, s'.parent));
  }

  lemma MarkLookStep(n: nat, s: State, g: Game)
    requires Marks(n, s, g) && (s.parent.MarkAsk? || s.parent.MarkRead? || s.parent.MarkCount?)
    ensures Marks(n, DoMark(n, s), g)
  {
    hide OutChildren, MarkChildren, MarkDead, Finished, Idle, Dead;
    var s' := DoMark(n, s);
    var k := s.parent.k;
    OutSame(n, s, s', g.alive);
    if k < n {
      MarkSelf(n, s, g, k);
      DeadNext(g.alive, k);
      assert s.status[k := s.status[k]] == s.status;
      MarkNext(n, s, s', g, k, k, Prepared(n, s'.parent));
    }
  }

  lemma OutSame(n: nat, s: State, s': State, alive: set<nat>)
    requires Shaped(n, s) && Shaped(n, s') && OutChildren(n, s, alive)
    requires s'.children == s.children && s'.status == s.status && s'.target == s.target
    ensures OutChildren(n, s', alive)
  {
    hide Finished;
    SameFinished(n, s, s');
  }

  lemma TallyStep(n: nat, s: State, g: Game)
    requires Marks(n, s, g) && s.parent.Tally?
    ensures Marks(n, DoMark(n, s), g)
  {
    hide OutChildren, MarkChildren, MarkDead, Dead;
    OutSame(n, s, DoMark(n, s), g.alive);
    DeadAll(n, g.alive);
  }

  lemma CountRoundStep(n: nat, s: State, g: Game)
    requires Marks(n, s, g) && s.parent.CountRound?
    ensures Marks(n, DoMark(n, s), g)
  {
    hide OutChildren, MarkChildren, MarkDead, Dead;
    OutSame(n, s, DoMark(n, s), g.alive);
  }

  lemma FireStartsChildren(n: nat, s: State, s': State, alive: set<nat>)
    requires Shaped(n, s) && Shaped(n, s') && s'.parent == Kick(0)
    requires s'.children == s.children && s'.status == s.status
    requires MarkChildren(n, s.children, s.status, alive, n)
    ensures FireChildren(n, s', alive) && FireHits(n, s', alive)
  {
    hide Candidates;
    forall q {:trigger s'.children[q]} | 0 <= q < n && q in alive
      ensures FireChild(n, alive, Kicked(s'.parent, q), q, s'.children[q], s'.status[q], s'.target[q])
      ensures !HasTerm(s'.children[q]) && !Fired(s'.children[q], s'.status[q])
    {
      assert MarkChild(true, s.children[q], s.status[q]);
    }
  }

  lemma FireStarts(n: nat, s: State, g: Game)
    requires Marks(n, s, g) && s.parent.SetAlive?
    ensures InRound(n, DoMark(n, s), g)
  {
    hide OutChildren, FireChildren, FireHits, MarkChildren, Dead;
    var s' := DoMark(n, s);
    OutSame(n, s, s', g.alive);
    DeadAll(n, g.alive);
    FireStartsChildren(n, s, s', g.alive);
  }

  lemma GameOver(n: nat, s: State, g: Game)
    requires Marks(n, s, g) && s.parent.KillAll?
    ensures Inv(n, DoParent(n, s), g)
  {
    hide MarkInv, MarkChild, BootInv, FireInv;
    forall q {:trigger s.status[q]} | 0 <= q < n
      ensures q in g.alive <==> !s.status[q].deadThisRound
    {
      MarkSelf(n, s, g, q);
      MarkedAlive(q in g.alive, s.children[q], s.status[q]);
    }
    GameOverAlive(n, s, g);
  }

  lemma MarkedAlive(prepared: bool, c: Child, w: Status)
    ensures MarkChild(prepared, c, w) || MarkChild(true, c, w) || MarkChild(false, c, w) ==> !w.deadThisRound
  {
  }

  lemma GameOverAlive(n: nat, s: State, g: Game)
    requires Marks(n, s, g) && s.parent.KillAll?
    ensures |g.alive| <= 1 && s.rounds == g.rounds
  {
    hide OutChildren, MarkChildren, MarkDead;
  }

  // ----- Booting -----

  ghost predicate Boots(n: nat, s: State, g: Game) {
    Base(n, s, g) && Booting(s.parent) && BootInv(n, s, g)
  }

  lemma BootChildStep(n: nat, s: State, g: Game, p: nat, takeTerm: bool, random: nat)
    requires Boots(n, s, g) && p < n && ChildReady(s.children[p], takeTerm)
    ensures Boots(n, DoChild(n, s, p, takeTerm, random), g)
  {
    hide DoPickAt, DoShoot, DoWait;
    var s' := DoChild(n, s, p, takeTerm, random);
    assert s.children[p].pc.BootReady? || s.children[p].pc.BootNotify?;
    if s.parent.BootSleep? && !s'.usr2 {
      var q: nat :| q < n && (s.children[q].pc.BootReady? || s.children[q].pc.BootNotify?);
      assert s'.children[q].pc.BootReady? || s'.children[q].pc.BootNotify?;
    }
  }

  lemma BootParentStep(n: nat, s: State, g: Game)
    requires Boots(n, s, g) && (s.parent.BootSleep? ==> s.usr2) && !(s.parent.BootScan? && s.parent.k >= n)
    ensures Boots(n, DoBoot(n, s), g)
  {
    var s' := DoBoot(n, s);
    if s'.parent.BootSleep? {
      assert s'.children[s.parent.k].pc.BootReady?;
    }
  }

  lemma BootEnd(n: nat, s: State, g: Game)
    requires Boots(n, s, g) && s.parent.BootScan? && s.parent.k >= n
    ensures Marks(n, DoBoot(n, s), g)
  {
    var s' := DoBoot(n, s);
    assert Dead(g.alive, 0) == {};
    forall q {:trigger s'.children[q]} | 0 <= q < n && q in g.alive
      ensures MarkChild(q < 0, s'.children[q], s'.status[q])
    {
      assert s.status[q] == READY;
    }
  }
}
