/** The history of a semaphore told by the events of a run alone: how often it was posted to since it was last
    initialised, how often somebody got a unit, and by how much that can be too often. */
module KernelHistory {
  import opened Rings
  import opened Placement
  import opened Kernel
  import opened KernelSems
  import opened KernelTheorems
  import opened KernelCounts
  import opened KernelLaw

  /** The event is a sem_post. */
  function Puts(e: Event, q: nat): nat {
    if e.SemPost? && e.sem == q then 1 else 0
  }

  /** Somebody gets a unit: a sem_wait goes on at once, a sem_trywait answers 0, or a task that waits is woken. */
  function Gets(s: State, e: Event, q: nat): nat
    requires Enabled(s, e)
  {
    if || (e.SemWait? && e.sem == q && PhaseAfter(s, e) == Leaving)
       || (e.SemTryWait? && e.sem == q && TasksAfter(s, e)[First(s, Running(e.core))].ret == 0)
       || (EffectOf(s, e).Shift? && EffectOf(s, e).from == Wait(SemQ(q)))
    then 1 else 0
  }

  /** The posts of a run, from the last initialisation on. */
  function PutsSince(es: seq<Event>, q: nat): nat {
    if es == [] then 0 else (if Renewed(es[1..], q) then 0 else Puts(es[0], q)) + PutsSince(es[1..], q)
  }

  /** The units given, from there on. */
  function GetsSince(s: State, es: seq<Event>, q: nat): nat
    requires Runs(s, es)
    decreases es
  {
    if es == [] then 0 else
      (if Renewed(es[1..], q) then 0 else Gets(s, es[0], q)) + GetsSince(After(s, es[0]), es[1..], q)
  }

  /** The waiters that posts find beyond the first, and that destroys find, from there on. */
  function CrowdSince(s: State, es: seq<Event>, q: nat): nat
    requires Runs(s, es)
    decreases es
  {
    if es == [] then 0 else
      (if Renewed(es[1..], q) then 0 else Crowd(s, es[0], q)) + CrowdSince(After(s, es[0]), es[1..], q)
  }

  function Init(e: Event, q: nat): nat {
    if Renews(e, q) then e.init else 0
  }

  /** The value of that initialisation. */
  function InitSince(es: seq<Event>, q: nat): nat {
    if es == [] then 0 else (if Renewed(es[1..], q) then 0 else Init(es[0], q)) + InitSince(es[1..], q)
  }

  // ---------------------------------------------------------------- one event

  lemma TryGetsOne(s: State, e: Event, q: nat)
    requires Enabled(s, e) && e.SemTryWait? && e.sem == q
    ensures Gets(s, e, q) == if TryGrants(s.sems[q]) then 1 else 0
  {
  }

  lemma GetsCounted(s: State, e: Event, q: nat)
    requires Shaped(s) && Enabled(s, e) && q in s.sems && !Renews(e, q)
    ensures q in SemsAfter(s, e) && SemsAfter(s, e)[q].grants == s.sems[q].grants + Gets(s, e, q)
  {
    if e.SemTryWait? && e.sem == q { TryGetsOne(s, e, q); }
  }

  lemma PutsCounted(s: State, e: Event, q: nat)
    requires Shaped(s) && Enabled(s, e) && q in s.sems && !Renews(e, q)
    ensures q in SemsAfter(s, e) && SemsAfter(s, e)[q].posts == s.sems[q].posts + Puts(e, q)
    ensures SemsAfter(s, e)[q].init == s.sems[q].init
  {
  }

  lemma RenewsAnew(s: State, e: Event, q: nat)
    requires Enabled(s, e) && Renews(e, q)
    ensures q in SemsAfter(s, e) && SemsAfter(s, e)[q] == Sem(e.init, e.init, 0, 0, 0, false)
    ensures Puts(e, q) == 0 && Gets(s, e, q) == 0 && Crowd(s, e, q) == 0
  {
  }

  lemma StillUnknown(s: State, e: Event, q: nat)
    requires Sems(s) && Enabled(s, e) && q !in s.sems && !Renews(e, q)
    ensures q !in SemsAfter(s, e)
  {
    assert PosterOk(s, e.core);
  }

  // ---------------------------------------------------------------- runs

  /** What a run adds to what the semaphore's history was. */
  predicate Told(was: Sem, sem: Sem, renewed: bool, init: nat, puts: nat, gets: nat) {
    && sem.init == (if renewed then init else was.init) && (!renewed ==> init == 0)
    && sem.posts == (if renewed then 0 else was.posts) + puts
    && sem.grants == (if renewed then 0 else was.grants) + gets
  }

  lemma ToldStep(s: State, e: Event, q: nat, r: State)
    requires Shaped(s) && Enabled(s, e) && q in s.sems && r == After(s, e)
    ensures q in r.sems && Told(s.sems[q], r.sems[q], Renews(e, q), Init(e, q), Puts(e, q), Gets(s, e, q)) == true
  {
    if Renews(e, q) {
      RenewsAnew(s, e, q);
    } else {
      PutsCounted(s, e, q);
      GetsCounted(s, e, q);
    }
  }

  lemma ToldTwice(was: Sem, mid: Sem, sem: Sem, a: bool, i: nat, p: nat, g: nat, b: bool, j: nat, u: nat, h: nat)
    requires Told(was, mid, a, i, p, g) && Told(mid, sem, b, j, u, h)
    ensures Told(was, sem, a || b, (if b then 0 else i) + j, (if b then 0 else p) + u, (if b then 0 else g) + h) == true
  {
  }

  /** The same of a whole run. */
  ghost predicate ToldBy(was: Sem, sem: Sem, s: State, es: seq<Event>, q: nat)
    requires Runs(s, es)
  {
    Told(was, sem, Renewed(es, q), InitSince(es, q), PutsSince(es, q), GetsSince(s, es, q))
  }

  lemma ToldMore(was: Sem, mid: Sem, sem: Sem, s: State, es: seq<Event>, q: nat, r: State)
    requires es != [] && Runs(s, es) && r == After(s, es[0])
    requires Told(was, mid, Renews(es[0], q), Init(es[0], q), Puts(es[0], q), Gets(s, es[0], q)) == true
    requires ToldBy(mid, sem, r, es[1..], q) == true
    ensures ToldBy(was, sem, s, es, q) == true
  {
    ToldTwice(was, mid, sem, Renews(es[0], q), Init(es[0], q), Puts(es[0], q), Gets(s, es[0], q),
              Renewed(es[1..], q), InitSince(es[1..], q), PutsSince(es[1..], q), GetsSince(r, es[1..], q));
  }

  lemma {:induction false} KnownRun(s: State, es: seq<Event>, q: nat, end: State)
    requires Inv(s) == true && Runs(s, es) && q in s.sems && end == End(s, es)
    ensures q in end.sems && ToldBy(s.sems[q], end.sems[q], s, es, q) == true
    decreases es
  {
    if es != [] {
      var r := After(s, es[0]);
      StepInv(s, es[0]);
      ToldStep(s, es[0], q, r);
      KnownRun(r, es[1..], q, end);
      ToldMore(s.sems[q], r.sems[q], end.sems[q], s, es, q, r);
    }
  }

  /** A semaphore that the run is the first to initialise: whatever its history was before, none counts. */
  lemma {:induction false} NewRun(s: State, es: seq<Event>, q: nat, end: State, was: Sem)
    requires Inv(s) == true && Runs(s, es) && q !in s.sems && end == End(s, es) && q in end.sems
    requires was == Sem(0, 0, 0, 0, 0, false)
    ensures Renewed(es, q) && ToldBy(was, end.sems[q], s, es, q) == true
    decreases es
  {
    var r := After(s, es[0]);
    StepInv(s, es[0]);
    if Renews(es[0], q) {
      RenewsAnew(s, es[0], q);
      KnownRun(r, es[1..], q, end);
      ToldMore(was, r.sems[q], end.sems[q], s, es, q, r);
    } else {
      NothingYet(s, es[0], q);
      NewRun(r, es[1..], q, end, was);
      ToldMore(was, was, end.sems[q], s, es, q, r);
    }
  }

  lemma NothingYet(s: State, e: Event, q: nat)
    requires Sems(s) && Enabled(s, e) && q !in s.sems && !Renews(e, q)
    ensures q !in SemsAfter(s, e) && Init(e, q) == 0 && Puts(e, q) == 0 && Gets(s, e, q) == 0
  {
    assert SemOk(s, q);
    StillUnknown(s, e, q);
    NobodyServed(s, e, q);
  }

  lemma NobodyServed(s: State, e: Event, q: nat)
    requires Enabled(s, e) && q !in s.sems && Waiters(s, q) == []
    ensures Gets(s, e, q) == 0
  {
  }

  /** The surplus of wakes, exactly. */
  lemma {:induction false} SurplusSum(s: State, es: seq<Event>, q: nat, end: State)
    requires Inv(s) == true && Runs(s, es) && !s.bounded && end == End(s, es)
    ensures Inv(end) == true && Surplus(end, q) == (if Renewed(es, q) then 0 else Surplus(s, q)) + CrowdSince(s, es, q)
    decreases es
  {
    if es != [] {
      var e, r := es[0], After(s, es[0]);
      StepInv(s, e);
      SurplusStep(s, e, q);
      if Renews(e, q) { RenewsAnew(s, e, q); }
      SurplusSum(r, es[1..], q, end);
    }
  }

  /** The history of a semaphore is that of the run: its initial value is that of the last sem_init, and its posts and
      grants are as many as the run has had since. */
  lemma HistoryTold(s: State, es: seq<Event>, q: nat, end: State)
    requires Initial(s) && Runs(s, es) && end == End(s, es) && q in end.sems
    ensures Renewed(es, q) && end.sems[q].init == InitSince(es, q)
    ensures end.sems[q].posts == PutsSince(es, q) && end.sems[q].grants == GetsSince(s, es, q)
  {
    InitialInv(s);
    NewRun(s, es, q, end, Sem(0, 0, 0, 0, 0, false));
  }

  /** The count is what was put in less what was given, modulo its width; exactly so until 2^32 units were put in. */
  predicate Adds(count: nat, all: nat, given: nat) {
    count == (all - given) % UINT32 && (all < UINT32 ==> count + given == all)
  }

  /** So much for the events of a run, with this many wakes beyond one per post. */
  predicate LawOf(count: nat, s: State, es: seq<Event>, q: nat, crowd: nat)
    requires Runs(s, es)
  {
    Adds(count, InitSince(es, q) + PutsSince(es, q) + crowd, GetsSince(s, es, q))
  }

  lemma LawTold(sem: Sem, s: State, es: seq<Event>, q: nat, crowd: nat)
    requires Runs(s, es) && AddsUp(sem) == true
    requires sem.init == InitSince(es, q) && sem.posts == PutsSince(es, q) && sem.extra == crowd
    requires sem.grants == GetsSince(s, es, q)
    ensures LawOf(sem.count, s, es, q, crowd) == true
  {
  }

  predicate AddsUp(sem: Sem) {
    Adds(sem.count, sem.init + sem.posts + sem.extra, sem.grants)
  }

  /** The law in full, for the code as written and told by the events alone: units given are units put in, and one more
      for every waiter that a post finds beyond the first or that a destroy finds. */
  lemma LawInFull(s: State, es: seq<Event>, q: nat, end: State)
    requires Initial(s) && !s.bounded && Runs(s, es) && end == End(s, es) && q in end.sems && NobodyWakes(end, q)
    ensures Renewed(es, q)
    ensures LawOf(end.sems[q].count, s, es, q, CrowdSince(s, es, q)) == true
  {
    HistoryTold(s, es, q, end);
    ExtraTold(s, es, q, end);
    ReachedAdds(s, es, q, end);
    LawTold(end.sems[q], s, es, q, CrowdSince(s, es, q));
  }

  lemma ReachedAdds(s: State, es: seq<Event>, q: nat, end: State)
    requires Initial(s) && Runs(s, es) && end == End(s, es) && q in end.sems && NobodyWakes(end, q)
    ensures AddsUp(end.sems[q]) == true && (end.bounded && !end.sems[q].doomed ==> end.sems[q].extra == 0)
  {
    InitialReachable(s);
    ReachableRun(s, es);
    Conserves(end, q);
  }

  lemma Conserves(s: State, q: nat)
    requires Reachable(s) && q in s.sems && NobodyWakes(s, q)
    ensures AddsUp(s.sems[q]) == true && (s.bounded && !s.sems[q].doomed ==> s.sems[q].extra == 0)
  {
    Conservation(s, q);
  }

  lemma ExtraTold(s: State, es: seq<Event>, q: nat, end: State)
    requires Initial(s) && !s.bounded && Runs(s, es) && end == End(s, es) && q in end.sems && NobodyWakes(end, q)
    ensures end.sems[q].extra == CrowdSince(s, es, q)
  {
    InitialInv(s);
    SurplusSum(s, es, q, end);
    NobodyOwes(end, q);
  }

  /** With nr honoured, and no destroy since, it is the textbook law. */
  lemma LawIfBounded(s: State, es: seq<Event>, q: nat, end: State)
    requires Initial(s) && s.bounded && Runs(s, es) && end == End(s, es) && q in end.sems && SemFree(end, q)
    ensures Renewed(es, q)
    ensures LawOf(end.sems[q].count, s, es, q, 0) == true
  {
    HistoryTold(s, es, q, end);
    BoundedKept(s, es);
    ReachedAdds(s, es, q, end);
    LawTold(end.sems[q], s, es, q, 0);
  }

  lemma {:induction false} BoundedKept(s: State, es: seq<Event>)
    requires Runs(s, es)
    ensures End(s, es).bounded == s.bounded
    decreases es
  {
    if es != [] { BoundedKept(After(s, es[0]), es[1..]); }
  }
}
