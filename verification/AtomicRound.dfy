/** The game both programs of gunslingers play, with a whole round as one atomic event.

    Every living player aims at another living player, all guns fire at once, and the players that
    were aimed at leave the game.  The two concurrent programs (`Pist2`, `Pistolos`) are proved to
    refine this machine. */
module AtomicRound {
  import opened FiniteSets

  /** `alive`: the players not yet dead; `rounds`: the rounds completed so far. */
  datatype Game = Game(alive: set<nat>, rounds: nat)

  /** Every living player has chosen one living player other than himself. */
  ghost predicate Aimed(alive: set<nat>, aim: nat -> nat) {
    forall p {:trigger aim(p)} :: p in alive ==> aim(p) in alive && aim(p) != p
  }

  ghost predicate Hit(alive: set<nat>, aim: nat -> nat, victim: nat) {
    exists p {:trigger aim(p)} :: p in alive && aim(p) == victim
  }

  /** `g'` is `g` after all the guns have fired: the hit, and only the hit, are gone. */
  ghost predicate Fires(g: Game, aim: nat -> nat, g': Game) {
    && Aimed(g.alive, aim)
    && g'.alive <= g.alive
    && (forall p :: p in g.alive ==> (p in g'.alive <==> !Hit(g.alive, aim, p)))
    && g'.rounds == g.rounds + 1
  }

  ghost predicate Round(g: Game, g': Game) {
    |g.alive| >= 2 && exists aim :: Fires(g, aim, g')
  }

  /** A play is a sequence of games in which consecutive games are equal or one round apart. */
  ghost predicate Play(gs: seq<Game>) {
    |gs| > 0 && forall i :: 0 < i < |gs| ==> gs[i] == gs[i - 1] || Round(gs[i - 1], gs[i])
  }

  /** Each round kills somebody and nobody comes back. */
  lemma RoundKills(g: Game, g': Game)
    requires Round(g, g')
    ensures g'.alive < g.alive && |g'.alive| < |g.alive|
  {
    var aim :| Fires(g, aim, g');
    var p: nat :| p in g.alive;
    assert Hit(g.alive, aim, aim(p));
    SubsetSize(g'.alive, g.alive);
  }

  /** In a duel both guns hit: nobody survives. */
  lemma DuelKillsBoth(g: Game, g': Game)
    requires Round(g, g') && |g.alive| == 2
    ensures g'.alive == {}
  {
    var aim :| Fires(g, aim, g');
    var p: nat :| p in g.alive;
    var q := aim(p);
    Pair(g.alive, p, q);
    assert aim(q) in g.alive && aim(q) != q;
    assert Hit(g.alive, aim, p) && Hit(g.alive, aim, q);
  }

  lemma Pair(s: set<nat>, p: nat, q: nat)
    requires |s| == 2 && p in s && q in s && p != q
    ensures s == {p, q}
  {
    SubsetSize({p, q}, s);
  }

  /** Only the aims of the living matter. */
  lemma SameAim(g: Game, aim: nat -> nat, aim': nat -> nat, g': Game)
    requires Fires(g, aim, g') && forall p {:trigger aim'(p)} :: p in g.alive ==> aim'(p) == aim(p)
    ensures Fires(g, aim', g')
  {
    forall v
      ensures Hit(g.alive, aim, v) <==> Hit(g.alive, aim', v)
    {
      if p :| p in g.alive && aim(p) == v {
        assert aim'(p) == v;
      }
    }
    forall p {:trigger aim'(p)} | p in g.alive
      ensures aim'(p) in g.alive && aim'(p) != p
    {
      assert aim(p) in g.alive;
    }
  }

  /** The number of rounds is bounded by the deaths they cause. */
  lemma {:induction false} PlayIsBounded(gs: seq<Game>)
    requires Play(gs)
    ensures gs[|gs| - 1].alive <= gs[0].alive
    ensures gs[|gs| - 1].rounds + |gs[|gs| - 1].alive| <= gs[0].rounds + |gs[0].alive|
  {
    if |gs| > 1 {
      PlayIsBounded(gs[..|gs| - 1]);
      if gs[|gs| - 1] != gs[|gs| - 2] {
        RoundKills(gs[|gs| - 2], gs[|gs| - 1]);
      }
    }
  }
}
