/** Conservation of semaphore counts, in every reachable state. */
module KernelCounts {
  import opened Rings
  import opened Placement
  import opened Kernel
  import opened KernelInvariants
  import opened KernelSems
  import opened KernelTheorems

  /** Everything that was ever put in. */
  function Supply(sem: Sem): nat {
    sem.init + sem.posts + sem.extra
  }

  /** Until 2^32 units have been put in, the count is exactly what was put in less what was taken out. */
  predicate Exact(s: State, q: nat)
    requires Shaped(s)
  {
    q in s.sems && Supply(s.sems[q]) < UINT32 ==> s.sems[q].count == Net(s.sems[q]) - Pending(s, q)
  }

  lemma SupplyGrows(s: State, e: Event, q: nat)
    requires Enabled(s, e) && q in s.sems && !Renews(e, q)
    ensures q in SemsAfter(s, e) && Supply(s.sems[q]) <= Supply(SemsAfter(s, e)[q])
  {
  }

  lemma ExactStep(s: State, e: Event, q: nat, r: State)
    requires Sems(s) && Exact(s, q) && Enabled(s, e) && q in s.sems && !Renews(e, q)
    requires Fits(s.own, EffectOf(s, e)) && SemParts(s, e, r)
    ensures Exact(r, q)
  {
    KnownSemStep(s, e, q, r);
    SupplyGrows(s, e, q);
    TakesOnlyUnits(s, e, q);
    NotOwed(r, q);
    ExactBalance(s.sems[q], r.sems[q], Delta(s, e, q), Pending(s, q), Pending(r, q));
  }

  /** The arithmetic: below 2^32 units nothing wraps. */
  lemma ExactBalance(was: Sem, sem: Sem, d: int, pending: int, after: int)
    requires Supply(was) <= Supply(sem) < UINT32 ==> was.count == Net(was) - pending
    requires Together(was, sem, d, pending, after)
    requires Supply(was) <= Supply(sem) && -1 <= d <= 1 && (d == -1 ==> was.count > 0) && after >= 0
    ensures Supply(sem) < UINT32 ==> sem.count == Net(sem) - after
  {
  }

  /** The count goes down only from above 0. */
  lemma TakesOnlyUnits(s: State, e: Event, q: nat)
    requires Enabled(s, e) && q in s.sems && s.sems[q].count < UINT32
    ensures Delta(s, e, q) == -1 ==> s.sems[q].count > 0
    ensures -1 <= Delta(s, e, q) <= 1
  {
  }

  lemma NotOwed(s: State, q: nat)
    requires Shaped(s)
    ensures Pending(s, q) >= 0
  {
  }

  lemma ExactNew(s: State, e: Event, q: nat)
    requires Sems(s) && Enabled(s, e) && (q !in s.sems || Renews(e, q))
    ensures Exact(After(s, e), q)
  {
    NewSemOk(s, e, q);
  }

  lemma TraceSems(states: seq<State>, es: seq<Event>, k: nat)
    requires Trace(states, es) == true && k <= |es|
    ensures Sems(states[k]) == true
  {
    TraceInv(states, es, k);
  }

  lemma {:induction false} TraceExact(states: seq<State>, es: seq<Event>, q: nat, k: nat)
    requires Trace(states, es) == true && k <= |es|
    ensures Shaped(states[k]) && Exact(states[k], q) == true
  {
    if k > 0 {
      TraceExact(states, es, q, k - 1);
      TraceSems(states, es, k - 1);
      TraceStep(states, es, k - 1, k);
      ExactKept(states[k - 1], es[k - 1], q);
    }
  }

  lemma ExactKept(s: State, e: Event, q: nat)
    requires Sems(s) == true && Exact(s, q) && Enabled(s, e)
    ensures Shaped(After(s, e)) && Exact(After(s, e), q) == true
  {
    SemPartsAfter(s, e);
    if q in s.sems && !Renews(e, q) { ExactStep(s, e, q, After(s, e)); } else { ExactNew(s, e, q); }
  }

  /** Conservation: whenever no core is waking its waiters, a semaphore's count and its grants account for its initial
      value, its posts and the wakes beyond one per post, all since it was last initialised; modulo the width of the
      count in general, exactly until 2^32 units have been put in. With nr honoured only a destroy makes such extra
      wakes, and until then the law is the textbook one. */
  lemma Conservation(s: State, q: nat)
    requires Reachable(s) && q in s.sems && NobodyWakes(s, q)
    ensures var sem := s.sems[q];
      && sem.count == (sem.init + sem.posts + sem.extra - sem.grants) % UINT32
      && (sem.init + sem.posts + sem.extra < UINT32 ==> sem.count + sem.grants == sem.init + sem.posts + sem.extra)
      && (s.bounded && !sem.doomed ==> sem.extra == 0)
  {
    ReachableInv(s);
    assert SemOk(s, q);
    NothingOwed(s, q);
    ReachableExact(s, q);
  }

  lemma ReachableExact(s: State, q: nat)
    requires Reachable(s)
    ensures Exact(s, q)
  {
    var states, es :| Trace(states, es) && states[|es|] == s;
    TraceExact(states, es, q, |es|);
  }

  /** Tasks wait only while the count is 0, whichever variant runs. */
  lemma WaitersMeanEmpty(s: State, q: nat)
    requires Reachable(s) && q in s.sems && Waiters(s, q) != []
    ensures s.sems[q].count == 0
  {
    ReachableInv(s);
    assert SemOk(s, q);
  }

  /** The units a semaphore has left, by its history. */
  function UnitsLeft(sem: Sem): nat {
    (sem.init + sem.posts + sem.extra - sem.grants) % UINT32
  }

  /** sem_trywait, told by the history of the semaphore: it takes a unit when between 1 and 2^31 are left. When none is
      left it rightly answers EAGAIN; when more than 2^31 are left it answers EAGAIN as well and takes nothing, as the
      difference it tests is read as a negative number. */
  lemma TryWaitAnswers(s: State, c: Core, q: nat, r: State)
    requires Reachable(s) && Enabled(s, SemTryWait(c, q)) && r == After(s, SemTryWait(c, q))
    ensures First(s, Running(c)) in r.tasks && q in r.sems
    ensures if 1 <= UnitsLeft(s.sems[q]) <= UINT32 / 2
      then r.tasks[First(s, Running(c))].ret == 0 && r.sems[q].grants == s.sems[q].grants + 1
           && UnitsLeft(r.sems[q]) == UnitsLeft(s.sems[q]) - 1
      else r.tasks[First(s, Running(c))].ret == EAGAIN && r.sems[q] == s.sems[q]
  {
    Conservation(s, q);
    TryMeans(s.sems[q]);
    if TryGrants(s.sems[q]) { OneLess(s.sems[q].init + s.sems[q].posts + s.sems[q].extra - s.sems[q].grants); }
  }

  lemma OneLess(n: int)
    requires n % UINT32 >= 1
    ensures (n - 1) % UINT32 == n % UINT32 - 1
  {
  }

  /** The signed test of sem_trywait. */
  lemma TryMeans(sem: Sem)
    requires sem.count < UINT32
    ensures TryGrants(sem) <==> 1 <= sem.count <= UINT32 / 2
    ensures TryGrants(sem) ==> Granted(sem).count == sem.count - 1
  {
  }
}
