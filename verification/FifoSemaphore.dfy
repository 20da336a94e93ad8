/** A counting semaphore with first-in first-out waiting, with whole operations as atomic events. */
module FifoSemaphore {
  import opened FiniteSets

  /** `inside`: the processes that hold one of the permits; `waiting`: those that wait, oldest first. */
  datatype Sem = Sem(inside: set<nat>, waiting: seq<nat>)

  ghost predicate Sound(n: nat, num: nat, m: Sem) {
    && m.inside <= UpTo(n) && |m.inside| <= num
    && (m.waiting != [] ==> |m.inside| == num)
    && (forall i {:trigger m.waiting[i]} :: 0 <= i < |m.waiting| ==> m.waiting[i] < n && m.waiting[i] !in m.inside)
    && (forall i, j {:trigger m.waiting[i], m.waiting[j]} :: 0 <= i < j < |m.waiting| ==> m.waiting[i] != m.waiting[j])
  }

  ghost predicate Free(m: Sem, p: nat) {
    p !in m.inside && p !in m.waiting
  }

  /** `p` takes a permit, or waits for one. */
  ghost function Take(num: nat, m: Sem, p: nat): Sem {
    if |m.inside| < num then m.(inside := m.inside + {p}) else m.(waiting := m.waiting + [p])
  }

  /** `p` gives its permit back, or rather to the process that has waited longest. */
  ghost function Give(m: Sem, p: nat): Sem {
    if m.waiting == [] then m.(inside := m.inside - {p})
    else Sem(m.inside - {p} + {m.waiting[0]}, m.waiting[1..])
  }

  ghost predicate Event(num: nat, m: Sem, m': Sem) {
    exists p {:trigger Free(m, p)} :: (Free(m, p) && m' == Take(num, m, p)) || (p in m.inside && m' == Give(m, p))
  }

  ghost predicate History(num: nat, ms: seq<Sem>) {
    |ms| > 0 && ms[0] == Sem({}, []) && forall i :: 0 < i < |ms| ==> ms[i] == ms[i - 1] || Event(num, ms[i - 1], ms[i])
  }

  lemma TakeSound(n: nat, num: nat, m: Sem, p: nat)
    requires Sound(n, num, m) && Free(m, p) && p < n
    ensures Sound(n, num, Take(num, m, p))
    ensures var m' := Take(num, m, p); |m'.inside| + |m'.waiting| == |m.inside| + |m.waiting| + 1
    ensures m.waiting == [] || |m.inside| == num
  {
  }

  lemma GiveSound(n: nat, num: nat, m: Sem, p: nat)
    requires Sound(n, num, m) && p in m.inside
    ensures Sound(n, num, Give(m, p)) && Free(Give(m, p), p)
    ensures var m' := Give(m, p); |m'.inside| + |m'.waiting| == |m.inside| + |m.waiting| - 1
  {
    if m.waiting != [] {
      assert m.waiting[0] !in m.inside;
    }
  }

  /** The holders and the waiters. */
  ghost function Everyone(m: Sem): set<nat> {
    m.inside + (set i | 0 <= i < |m.waiting| :: m.waiting[i])
  }

  lemma {:induction false} WaitingSize(m: Sem)
    requires forall i, j {:trigger m.waiting[i], m.waiting[j]} :: 0 <= i < j < |m.waiting| ==> m.waiting[i] != m.waiting[j]
    ensures |set i | 0 <= i < |m.waiting| :: m.waiting[i]| == |m.waiting|
    decreases |m.waiting|
  {
    var last := |m.waiting| - 1;
    if m.waiting != [] {
      var shorter := m.(waiting := m.waiting[..last]);
      WaitingSize(shorter);
      assert (set i | 0 <= i < |m.waiting| :: m.waiting[i]) ==
             (set i | 0 <= i < |shorter.waiting| :: shorter.waiting[i]) + {m.waiting[last]};
    }
  }

  /** The holders and the waiters together are no more than the processes. */
  lemma AtMostAll(n: nat, num: nat, m: Sem)
    requires Sound(n, num, m)
    ensures |m.inside| + |m.waiting| == |Everyone(m)| <= n && Everyone(m) <= UpTo(n)
  {
    WaitingSize(m);
    assert m.inside !! (set i | 0 <= i < |m.waiting| :: m.waiting[i]);
    SubsetSize(Everyone(m), UpTo(n));
  }
}
