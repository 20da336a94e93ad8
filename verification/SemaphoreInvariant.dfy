/** What every step of `CustomSemaphore` keeps, and the atomic semaphore it refines. */
module SemaphoreInvariant {
  import opened FiniteSets
  import opened Options
  import opened PidQueue
  import opened CustomSemaphore
  import opened FifoSemaphore

  /** `holder`: who has the spinlock; `granted`: who has been given a permit and not yet the signal. */
  datatype Phase = Phase(holder: Option<nat>, granted: Option<nat>, sem: Sem)

  ghost function Start(): Phase {
    Phase(None, None, Sem({}, []))
  }

  /** The atomic semaphore moves when the counter is written. */
  ghost function Follow(num: nat, h: Phase, s: State, p: nat): Phase
    requires p < |s.procs|
  {
    match s.procs[p].pc
    case Idle => h.(holder := Some(p))
    case Critical => h.(holder := Some(p))
    case DecWrite => h.(sem := Take(num, h.sem, p))
    case IncWrite =>
      h.(sem := Give(h.sem, p), granted := if h.sem.waiting == [] then None else Some(h.sem.waiting[0]))
    case Kill => h.(granted := None)
    case ReleaseWait => h.(holder := None)
    case ReleaseGo => h.(holder := None)
    case ReleaseDone => h.(holder := None)
    case _ => h
  }

  predicate Holding(pc: Pc) {
    !pc.Idle? && !pc.Critical? && !pc.Suspend?
  }

  /** Before the decrement or after the increment. */
  predicate Outside(pc: Pc) {
    || pc.Idle? || pc.DecRead? || pc.DecWrite? || Waking(pc)
    || pc.PopFirst? || pc.PopSize? || pc.ReleaseDone?
  }

  predicate Queueing(pc: Pc) {
    pc.PushCheck? || pc.PushItem? || pc.PushSize? || pc.ReleaseWait? || pc.Aborted?
  }

  /** A permit has been given away, and the signal for it not been sent. */
  predicate Waking(pc: Pc) {
    pc.ReadFront? || pc.Kill?
  }

  /** A queued process has no signal pending; one that was given a permit has it, from the moment of
      the `kill` on until it resumes. */
  ghost predicate Place(h: Phase, p: nat, c: Proc, pending: bool, count: int) {
    && (Holding(c.pc) <==> h.holder == Some(p))
    && (Outside(c.pc) ==> Free(h.sem, p) && !pending)
    && (Queueing(c.pc) ==> p in h.sem.waiting && p !in h.sem.inside && !pending)
    && (c.pc.Suspend? && p !in h.sem.inside ==> p in h.sem.waiting && !pending)
    && (c.pc.Suspend? && p in h.sem.inside ==> (pending <==> h.granted != Some(p)))
    && (!Outside(c.pc) && !Queueing(c.pc) && !c.pc.Suspend? ==> p in h.sem.inside && !pending)
    && (c.pc.DecWrite? || c.pc.IncWrite? ==> c.seen == count)
    && (Waking(c.pc) <==> h.granted.Some? && h.holder == Some(p))
    && (c.pc.Kill? ==> h.granted.Some? && c.seen == h.granted.value)
    && (h.granted == Some(p) ==> c.pc.Suspend?)
    && (!c.pc.Idle? ==> c.left > 0)
  }

  ghost predicate Places(n: nat, s: State, h: Phase)
    requires |s.procs| == |s.pending| == n
  {
    forall p {:trigger s.procs[p]} :: 0 <= p < n ==> Place(h, p, s.procs[p], s.pending[p], s.count)
  }

  /** The concrete queue shows the atomic one, apart from what its current user has half done. */
  ghost predicate Queued(r: Ring, h: Phase, pc: Pc) {
    && Valid(r)
    && match pc
       case PushCheck => h.holder.Some? && h.sem.waiting != [] && Contents(r) + [h.holder.value] == h.sem.waiting
       case Aborted =>
         && h.holder.Some? && h.sem.waiting != [] && r.size == |r.items| && Contents(r) + [h.holder.value] == h.sem.waiting
       case PushItem =>
         && h.holder.Some? && h.sem.waiting != [] && r.size < |r.items| && Contents(r) + [h.holder.value] == h.sem.waiting
       case PushSize =>
         && h.holder.Some? && h.sem.waiting != [] && r.size < |r.items| && Contents(r) + [h.holder.value] == h.sem.waiting
         && r.items[Slot(r.first, r.size, |r.items|)] == h.holder.value
       case ReadFront => h.granted.Some? && r.size > 0 && Contents(r) == [h.granted.value] + h.sem.waiting
       case Kill => h.granted.Some? && r.size > 0 && Contents(r) == [h.granted.value] + h.sem.waiting
       case PopFirst => r.size > 0 && Contents(r)[1..] == h.sem.waiting
       case PopSize => r.size > 0 && Contents(r)[..r.size - 1] == h.sem.waiting
       case _ => Contents(r) == h.sem.waiting
  }

  ghost predicate QueueInv(n: nat, s: State, h: Phase)
    requires |s.procs| == n
  {
    match h.holder
    case None => Queued(s.ring, h, Idle)
    case Some(p) => p < n && (Waking(s.procs[p].pc) ==> h.granted.Some?) && Queued(s.ring, h, s.procs[p].pc)
  }

  ghost predicate Inv(n: nat, num: nat, capacity: nat, s: State, h: Phase) {
    && |s.procs| == |s.pending| == n && |s.ring.items| == capacity > 0
    && Sound(n, num, h.sem)
    && s.count == num - |h.sem.inside| - |h.sem.waiting|
    && (s.lock <==> h.holder.Some?)
    && (h.granted.Some? ==> h.granted.value in h.sem.inside && h.holder.Some?)
    && Places(n, s, h)
    && QueueInv(n, s, h)
  }

  lemma InitInv(n: nat, num: nat, capacity: nat, s: State)
    requires Init(n, num, capacity, s)
    ensures Inv(n, num, capacity, s, Start())
  {
  }

  /** The part of the invariant about one process, and what it says if that process has the lock. */
  lemma SelfPlace(n: nat, num: nat, capacity: nat, s: State, h: Phase, p: nat)
    requires Inv(n, num, capacity, s, h) && p < n
    ensures Place(h, p, s.procs[p], s.pending[p], s.count)
    ensures Holding(s.procs[p].pc) ==> h.holder == Some(p) && Queued(s.ring, h, s.procs[p].pc)
    ensures h.holder.None? ==> Queued(s.ring, h, Idle)
  {
    hide Sound, Place, Queued;
    assert s.procs[p] == s.procs[p];
    PlaceHolding(h, p, s.procs[p], s.pending[p], s.count);
  }

  lemma PlaceHolding(h: Phase, p: nat, c: Proc, pending: bool, count: int)
    ensures Place(h, p, c, pending, count) ==> (Holding(c.pc) <==> h.holder == Some(p))
  {
  }

  // ----- Others do not notice -----

  /** What another process's place depends on. */
  ghost predicate SameFor(h: Phase, h': Phase, q: nat) {
    && (h.holder == Some(q) <==> h'.holder == Some(q))
    && (q in h.sem.inside <==> q in h'.sem.inside)
    && (q in h.sem.waiting <==> q in h'.sem.waiting)
    && (h.granted == Some(q) <==> h'.granted == Some(q))
  }

  lemma OtherPlace(h: Phase, h': Phase, q: nat, c: Proc, pending: bool, count: int, count': int)
    requires Place(h, q, c, pending, count) && SameFor(h, h', q)
    requires count' == count || (h.holder.Some? && h.holder != Some(q))
    requires h.holder != Some(q)
    ensures Place(h', q, c, pending, count')
  {
  }

  /** One process moves, nobody else's signal or place changes. */
  lemma Kept(n: nat, num: nat, capacity: nat, s: State, s': State, h: Phase, h': Phase, p: nat)
    requires Inv(n, num, capacity, s, h) && p < n
    requires |s'.procs| == |s'.pending| == n && |s'.ring.items| == capacity
    requires s'.procs == s.procs[p := s'.procs[p]] && s'.pending == s.pending[p := s'.pending[p]]
    requires forall q {:trigger SameFor(h, h', q)} :: 0 <= q < n && q != p ==> SameFor(h, h', q) && h.holder != Some(q)
    requires s'.count == s.count || h.holder == Some(p)
    requires Sound(n, num, h'.sem) && s'.count == num - |h'.sem.inside| - |h'.sem.waiting|
    requires s'.lock <==> h'.holder.Some?
    requires h'.granted.Some? ==> h'.granted.value in h'.sem.inside && h'.holder.Some?
    requires Place(h', p, s'.procs[p], s'.pending[p], s'.count)
    requires h'.holder == None || h'.holder == Some(p)
    requires Queued(s'.ring, h', if h'.holder.Some? then s'.procs[p].pc else Idle)
    requires Waking(s'.procs[p].pc) ==> h'.granted.Some?
    ensures Inv(n, num, capacity, s', h')
  {
    hide Sound, Place, Queued, SameFor;
    forall q {:trigger s'.procs[q]} | 0 <= q < n
      ensures Place(h', q, s'.procs[q], s'.pending[q], s'.count)
    {
      if q != p {
        assert s.procs[q] == s'.procs[q];
        assert SameFor(h, h', q) && h.holder != Some(q);
        OtherPlace(h, h', q, s.procs[q], s.pending[q], s.count, s'.count);
      }
    }
  }

  // ----- One lemma a program point -----

  /** Taking the spinlock. */
  lemma AcquireStep(n: nat, num: nat, capacity: nat, s: State, h: Phase, p: nat)
    requires Inv(n, num, capacity, s, h) && Enabled(s, p) && (s.procs[p].pc.Idle? || s.procs[p].pc.Critical?)
    ensures Inv(n, num, capacity, Do(s, p), Follow(num, h, s, p))
  {
    hide Inv, Sound;
    Known(n, num, capacity, s, h, p);
    Kept(n, num, capacity, s, Do(s, p), h, Follow(num, h, s, p), p);
  }

  /** The invariant without its quantifiers. */
  lemma Known(n: nat, num: nat, capacity: nat, s: State, h: Phase, p: nat)
    requires Inv(n, num, capacity, s, h) && p < |s.procs|
    ensures |s.procs| == |s.pending| == n && |s.ring.items| == capacity > 0
    ensures Sound(n, num, h.sem) && s.count == num - |h.sem.inside| - |h.sem.waiting|
    ensures s.lock <==> h.holder.Some?
    ensures h.granted.Some? ==> h.granted.value in h.sem.inside && h.holder.Some?
    ensures Place(h, p, s.procs[p], s.pending[p], s.count) && (!s.procs[p].pc.Suspend? ==> !s.pending[p])
    ensures Holding(s.procs[p].pc) ==> h.holder == Some(p) && Queued(s.ring, h, s.procs[p].pc)
    ensures h.holder.None? ==> Queued(s.ring, h, Idle)
    ensures Valid(s.ring)
    ensures h.granted.Some? && h.holder == Some(p) ==> Waking(s.procs[p].pc)
  {
    SelfPlace(n, num, capacity, s, h, p);
    hide Sound, Place, Places;
  }

  /** Giving the spinlock back. */
  lemma ReleaseStep(n: nat, num: nat, capacity: nat, s: State, h: Phase, p: nat)
    requires Inv(n, num, capacity, s, h) && Enabled(s, p)
    requires s.procs[p].pc.ReleaseWait? || s.procs[p].pc.ReleaseGo? || s.procs[p].pc.ReleaseDone?
    ensures Valid(s.ring) && Inv(n, num, capacity, Do(s, p), Follow(num, h, s, p))
  {
    hide Inv, Sound;
    Known(n, num, capacity, s, h, p);
    Kept(n, num, capacity, s, Do(s, p), h, Follow(num, h, s, p), p);
  }

  lemma ReadStep(n: nat, num: nat, capacity: nat, s: State, h: Phase, p: nat)
    requires Inv(n, num, capacity, s, h) && Enabled(s, p) && (s.procs[p].pc.DecRead? || s.procs[p].pc.IncRead?)
    ensures Valid(s.ring) && Inv(n, num, capacity, Do(s, p), Follow(num, h, s, p))
  {
    hide Inv, Sound;
    Known(n, num, capacity, s, h, p);
    Kept(n, num, capacity, s, Do(s, p), h, Follow(num, h, s, p), p);
  }

  lemma ResumeStep(n: nat, num: nat, capacity: nat, s: State, h: Phase, p: nat)
    requires Inv(n, num, capacity, s, h) && Enabled(s, p) && s.procs[p].pc.Suspend?
    ensures Valid(s.ring) && Inv(n, num, capacity, Do(s, p), Follow(num, h, s, p))
  {
    hide Sound, Queued;
    Known(n, num, capacity, s, h, p);
    var s' := Do(s, p);
    forall q {:trigger s'.procs[q]} | 0 <= q < n
      ensures Place(h, q, s'.procs[q], s'.pending[q], s'.count)
    {
      assert s.procs[q] == s.procs[q];
    }
  }

  lemma DecStep(n: nat, num: nat, capacity: nat, s: State, h: Phase, p: nat)
    requires Inv(n, num, capacity, s, h) && Enabled(s, p) && s.procs[p].pc.DecWrite?
    ensures Valid(s.ring) && Inv(n, num, capacity, Do(s, p), Follow(num, h, s, p))
  {
    hide Inv, Sound;
    Known(n, num, capacity, s, h, p);
    TakeSound(n, num, h.sem, p);
    Kept(n, num, capacity, s, Do(s, p), h, Follow(num, h, s, p), p);
  }

  lemma PushCheckStep(n: nat, num: nat, capacity: nat, s: State, h: Phase, p: nat)
    requires Inv(n, num, capacity, s, h) && Enabled(s, p) && s.procs[p].pc.PushCheck?
    ensures Valid(s.ring) && Inv(n, num, capacity, Do(s, p), Follow(num, h, s, p))
  {
    hide Inv, Sound;
    Known(n, num, capacity, s, h, p);
    Kept(n, num, capacity, s, Do(s, p), h, Follow(num, h, s, p), p);
  }

  lemma PushItemStep(n: nat, num: nat, capacity: nat, s: State, h: Phase, p: nat)
    requires Inv(n, num, capacity, s, h) && Enabled(s, p) && s.procs[p].pc.PushItem?
    ensures Valid(s.ring) && Inv(n, num, capacity, Do(s, p), Follow(num, h, s, p))
  {
    hide Inv, Sound;
    Known(n, num, capacity, s, h, p);
    StoreKeeps(s.ring, p);
    Kept(n, num, capacity, s, Do(s, p), h, Follow(num, h, s, p), p);
  }

  /** The assertion of `queue_push` holds if the queue has room for everybody that can have to wait. */
  lemma NobodyAborts(n: nat, num: nat, capacity: nat, s: State, h: Phase, p: nat)
    requires Inv(n, num, capacity, s, h) && p < n && |Clients(s.procs)| <= num + capacity
    ensures |s.procs| == n && !s.procs[p].pc.Aborted?
  {
    hide Inv, Sound, Place, Clients, Everyone;
    InvShape(n, num, capacity, s, h);
    Known(n, num, capacity, s, h, p);
    AtMostAll(n, num, h.sem);
    Full(n, num, h.sem);
    AllClients(n, num, capacity, s, h);
    SubsetSize(Everyone(h.sem), Clients(s.procs));
  }

  lemma InvShape(n: nat, num: nat, capacity: nat, s: State, h: Phase)
    requires Inv(n, num, capacity, s, h)
    ensures |s.procs| == |s.pending| == n
  {
  }

  lemma Full(n: nat, num: nat, m: Sem)
    requires Sound(n, num, m)
    ensures m.waiting != [] ==> |m.inside| == num
  {
  }

  /** Who holds a permit or waits for one has not yet been through as often as it wants. */
  lemma AllClients(n: nat, num: nat, capacity: nat, s: State, h: Phase)
    requires Inv(n, num, capacity, s, h)
    ensures Everyone(h.sem) <= Clients(s.procs)
  {
    hide QueueInv, Place;
    forall p: nat | p in Everyone(h.sem)
      ensures p in Clients(s.procs)
    {
      assert s.procs[p] == s.procs[p];
      PlaceClient(h, p, s.procs[p], s.pending[p], s.count);
    }
  }

  lemma PlaceClient(h: Phase, p: nat, c: Proc, pending: bool, count: int)
    requires Place(h, p, c, pending, count) && p in Everyone(h.sem)
    ensures c.left > 0
  {
  }

  lemma PushSizeStep(n: nat, num: nat, capacity: nat, s: State, h: Phase, p: nat)
    requires Inv(n, num, capacity, s, h) && Enabled(s, p) && s.procs[p].pc.PushSize?
    ensures Valid(s.ring) && Inv(n, num, capacity, Do(s, p), Follow(num, h, s, p))
  {
    hide Inv, Sound;
    Known(n, num, capacity, s, h, p);
    LengthenAppends(s.ring);
    Kept(n, num, capacity, s, Do(s, p), h, Follow(num, h, s, p), p);
  }

  lemma PopStep(n: nat, num: nat, capacity: nat, s: State, h: Phase, p: nat)
    requires Inv(n, num, capacity, s, h) && Enabled(s, p) && (s.procs[p].pc.PopFirst? || s.procs[p].pc.PopSize?)
    ensures Valid(s.ring) && Inv(n, num, capacity, Do(s, p), Follow(num, h, s, p))
  {
    hide Inv, Sound;
    Known(n, num, capacity, s, h, p);
    AdvanceDrops(s.ring);
    ShortenDrops(s.ring);
    Kept(n, num, capacity, s, Do(s, p), h, Follow(num, h, s, p), p);
  }

  lemma IncPlaces(n: nat, num: nat, capacity: nat, s: State, h: Phase, p: nat)
    requires Inv(n, num, capacity, s, h) && Enabled(s, p) && s.procs[p].pc.IncWrite?
    ensures Valid(s.ring) && |Do(s, p).procs| == |Do(s, p).pending| == n
    ensures Places(n, Do(s, p), Follow(num, h, s, p))
  {
    Known(n, num, capacity, s, h, p);
    hide Sound, Place, QueueInv, Queued;
    HandSelf(n, num, h, p, s.procs[p], s.count);
    var s' := Do(s, p);
    var h' := Follow(num, h, s, p);
    forall q {:trigger s'.procs[q]} | 0 <= q < n
      ensures Place(h', q, s'.procs[q], s'.pending[q], s'.count)
    {
      if q != p {
        assert s.procs[q] == s.procs[q];
        HandPlace(n, num, h, p, q, s.procs[q], s.pending[q], s.count, s'.count);
      }
    }
  }

  lemma IncQueue(r: Ring, h: Phase, p: nat)
    requires Queued(r, h, IncWrite)
    ensures var granted := if h.sem.waiting == [] then None else Some(h.sem.waiting[0]);
            Queued(r, h.(sem := Give(h.sem, p), granted := granted), if h.sem.waiting == [] then ReleaseDone else ReadFront)
  {
    assert h.sem.waiting != [] ==> h.sem.waiting == [h.sem.waiting[0]] + h.sem.waiting[1..];
  }

  /** A permit goes back, or to the head of the queue, who is in `sigsuspend` or about to be. */
  lemma IncStep(n: nat, num: nat, capacity: nat, s: State, h: Phase, p: nat)
    requires Inv(n, num, capacity, s, h) && Enabled(s, p) && s.procs[p].pc.IncWrite?
    ensures Valid(s.ring) && Inv(n, num, capacity, Do(s, p), Follow(num, h, s, p))
  {
    hide Sound, Place, Places, Queued;
    Known(n, num, capacity, s, h, p);
    HandSelf(n, num, h, p, s.procs[p], s.count);
    IncPlaces(n, num, capacity, s, h, p);
    IncQueue(s.ring, h, p);
    GiveSound(n, num, h.sem, p);
    Handed(n, num, h.sem);
  }

  lemma Handed(n: nat, num: nat, m: Sem)
    requires Sound(n, num, m)
    ensures |m.inside| <= num
    ensures m.waiting != [] ==> m.waiting[0] < n && m.waiting[0] !in m.inside && |m.inside| == num
  {
  }

  lemma Handing(n: nat, num: nat, m: Sem, p: nat, q: nat)
    requires Sound(n, num, m) && p in m.inside && q != p
    ensures q in Give(m, p).inside <==> q in m.inside || (m.waiting != [] && q == m.waiting[0])
    ensures q in Give(m, p).waiting <==> q in m.waiting && q != m.waiting[0]
  {
    if q in m.waiting && q != m.waiting[0] {
      var i :| 0 <= i < |m.waiting| && m.waiting[i] == q;
      assert m.waiting[1..][i - 1] == q;
    }
  }

  lemma HandPlace(n: nat, num: nat, h: Phase, p: nat, q: nat, c: Proc, pending: bool, count: int, count': int)
    requires Sound(n, num, h.sem) && p in h.sem.inside && q != p && h.holder == Some(p) && h.granted.None?
    requires Place(h, q, c, pending, count)
    ensures Place(h.(sem := Give(h.sem, p), granted := if h.sem.waiting == [] then None else Some(h.sem.waiting[0])),
                  q, c, pending, count')
  {
    hide Sound;
    Handed(n, num, h.sem);
    Handing(n, num, h.sem, p, q);
  }

  lemma HandSelf(n: nat, num: nat, h: Phase, p: nat, c: Proc, count: int)
    requires Sound(n, num, h.sem) && c.pc.IncWrite? && Place(h, p, c, false, count) && h.holder == Some(p)
    requires count == num - |h.sem.inside| - |h.sem.waiting|
    ensures p in h.sem.inside && c.seen == count
    ensures var pc := if count + 1 <= 0 then ReadFront else ReleaseDone;
            Place(h.(sem := Give(h.sem, p), granted := if h.sem.waiting == [] then None else Some(h.sem.waiting[0])),
                  p, c.(pc := pc), false, count + 1)
    ensures count + 1 <= 0 <==> h.sem.waiting != []
  {
    hide Sound, Give;
    GiveSound(n, num, h.sem, p);
    Handed(n, num, h.sem);
  }

  lemma ReadFrontStep(n: nat, num: nat, capacity: nat, s: State, h: Phase, p: nat)
    requires Inv(n, num, capacity, s, h) && Enabled(s, p) && s.procs[p].pc.ReadFront?
    ensures Valid(s.ring) && Inv(n, num, capacity, Do(s, p), Follow(num, h, s, p))
  {
    hide Inv, Sound;
    Known(n, num, capacity, s, h, p);
    assert Contents(s.ring)[0] == s.ring.items[s.ring.first];
    Kept(n, num, capacity, s, Do(s, p), h, Follow(num, h, s, p), p);
  }

  lemma KillStep(n: nat, num: nat, capacity: nat, s: State, h: Phase, p: nat)
    requires Inv(n, num, capacity, s, h) && Enabled(s, p) && s.procs[p].pc.Kill?
    ensures Valid(s.ring) && h.granted == Some(s.procs[p].seen)
    ensures Inv(n, num, capacity, Do(s, p), Follow(num, h, s, p))
  {
    Known(n, num, capacity, s, h, p);
    hide Sound;
    var front := h.granted.value;
    InsideBound(n, num, h.sem, front);
    assert s.procs[front] == s.procs[front];
    var s' := Do(s, p);
    forall q {:trigger s'.procs[q]} | 0 <= q < n
      ensures Place(Follow(num, h, s, p), q, s'.procs[q], s'.pending[q], s'.count)
    {
      assert s.procs[q] == s.procs[q];
    }
  }

  lemma InsideBound(n: nat, num: nat, m: Sem, p: nat)
    requires Sound(n, num, m) && p in m.inside
    ensures p < n
  {
  }

  /** Every step keeps the invariant, and is an event of the atomic semaphore or invisible to it. */
  lemma StepInv(n: nat, num: nat, capacity: nat, s: State, h: Phase, p: nat)
    requires Inv(n, num, capacity, s, h) && Enabled(s, p)
    ensures Valid(s.ring) && Inv(n, num, capacity, Do(s, p), Follow(num, h, s, p))
    ensures var m, m' := h.sem, Follow(num, h, s, p).sem; m' == m || Event(num, m, m')
  {
    hide Inv, Do, Sound, Queued, Place;
    Known(n, num, capacity, s, h, p);
    match s.procs[p].pc
    case Idle => AcquireStep(n, num, capacity, s, h, p);
    case Critical => AcquireStep(n, num, capacity, s, h, p);
    case DecRead => ReadStep(n, num, capacity, s, h, p);
    case IncRead => ReadStep(n, num, capacity, s, h, p);
    case DecWrite => DecStep(n, num, capacity, s, h, p); EventOf(num, h, p, s.procs[p], s.pending[p], s.count);
    case IncWrite => IncStep(n, num, capacity, s, h, p); EventOf(num, h, p, s.procs[p], s.pending[p], s.count);
    case PushCheck => PushCheckStep(n, num, capacity, s, h, p);
    case PushItem => PushItemStep(n, num, capacity, s, h, p);
    case PushSize => PushSizeStep(n, num, capacity, s, h, p);
    case ReleaseWait => ReleaseStep(n, num, capacity, s, h, p);
    case ReleaseGo => ReleaseStep(n, num, capacity, s, h, p);
    case ReleaseDone => ReleaseStep(n, num, capacity, s, h, p);
    case Suspend => ResumeStep(n, num, capacity, s, h, p);
    case ReadFront => ReadFrontStep(n, num, capacity, s, h, p);
    case Kill => KillStep(n, num, capacity, s, h, p);
    case PopFirst => PopStep(n, num, capacity, s, h, p);
    case PopSize => PopStep(n, num, capacity, s, h, p);
  }

  lemma EventOf(num: nat, h: Phase, p: nat, c: Proc, pending: bool, count: int)
    requires Place(h, p, c, pending, count)
    ensures c.pc.DecWrite? ==> Event(num, h.sem, Take(num, h.sem, p))
    ensures c.pc.IncWrite? ==> Event(num, h.sem, Give(h.sem, p))
  {
    assert Free(h.sem, p) || !Free(h.sem, p);
  }
}
