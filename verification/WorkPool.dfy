/** The worker pool of kinit.c under every interleaving: one producer (perf_thread_pool), any number of workers
    (pooled_worker), and the flag `finished`, which a worker reads after it has let go of the queue's lock. */
module WorkPool {
  datatype Worker =
    | Unborn                   // not created yet
    | Idle                     // about to lock the queue
    | SawEmpty(last: bool)     // found the queue empty; `last` records whether everything had been produced by then
    | Working(item: nat)
    | Left(last: bool)         // out of its loop

  /** Items are numbered in the order in which they are produced; `taken` and `done` are history. */
  datatype State = State(queue: seq<nat>, produced: nat, total: nat, finished: bool, workers: seq<Worker>,
                         taken: seq<nat>, done: set<nat>)

  datatype Event = Produce | Finish | Check(w: nat) | ReadFinished(w: nat) | Complete(w: nat)

  predicate Initial(s: State) {
    && s.queue == [] && s.produced == 0 && !s.finished && s.taken == [] && s.done == {}
    && forall w :: 0 <= w < |s.workers| ==> s.workers[w] == Unborn
  }

  predicate Enabled(s: State, e: Event) {
    match e
    case Produce => s.produced < s.total && !s.finished
    case Finish => s.produced == s.total && !s.finished
    case Check(w) => w < |s.workers| && s.workers[w] == Idle
    case ReadFinished(w) => w < |s.workers| && s.workers[w].SawEmpty?
    case Complete(w) => w < |s.workers| && s.workers[w].Working?
  }

  function After(s: State, e: Event): State
    requires Enabled(s, e)
  {
    match e
    case Produce =>
      s.(queue := s.queue + [s.produced], produced := s.produced + 1,
         workers := if s.produced < |s.workers| then s.workers[s.produced := Idle] else s.workers)
    case Finish => s.(finished := true)
    case Check(w) =>
      if s.queue == [] then s.(workers := s.workers[w := SawEmpty(s.produced == s.total)])
      else s.(queue := s.queue[1..], taken := s.taken + [s.queue[0]], workers := s.workers[w := Working(s.queue[0])])
    case ReadFinished(w) => s.(workers := s.workers[w := if s.finished then Left(s.workers[w].last) else Idle])
    case Complete(w) => s.(done := s.done + {s.workers[w].item}, workers := s.workers[w := Idle])
  }

  predicate Runs(s: State, es: seq<Event>)
    decreases es
  {
    es == [] || (Enabled(s, es[0]) && Runs(After(s, es[0]), es[1..]))
  }

  function End(s: State, es: seq<Event>): State
    requires Runs(s, es)
    decreases es
  {
    if es == [] then s else End(After(s, es[0]), es[1..])
  }

  // ---------------------------------------------------------------- every item, exactly once

  ghost predicate InProgress(s: State, i: nat) {
    exists w :: 0 <= w < |s.workers| && s.workers[w] == Working(i)
  }

  /** Items are taken in the order in which they were produced, and the rest are queued in that order. */
  predicate InOrder(s: State) {
    && |s.taken| + |s.queue| == s.produced
    && (forall i :: 0 <= i < |s.taken| ==> s.taken[i] == i)
    && forall i :: 0 <= i < |s.queue| ==> s.queue[i] == |s.taken| + i
  }

  /** What has been taken is being worked on by one worker, or done. */
  ghost predicate Accounted(s: State) {
    && (forall i: nat :: i < |s.taken| <==> i in s.done || InProgress(s, i))
    && (forall i: nat :: !(i in s.done && InProgress(s, i)))
    && forall v, w ::
         0 <= v < w < |s.workers| && s.workers[v].Working? && s.workers[w].Working?
         ==> s.workers[v].item != s.workers[w].item
  }

  /** Nobody leaves, and the flag is not set, before everything has been produced; workers come with the items. */
  predicate Closed(s: State) {
    && s.produced <= s.total && (s.finished ==> s.produced == s.total)
    && (forall w ::
          0 <= w < |s.workers| ==> (s.workers[w].Left? ==> s.finished) && (s.workers[w] == Unborn <==> s.produced <= w))
  }

  ghost predicate Drained(s: State) {
    && (forall w ::
          0 <= w < |s.workers| && (s.workers[w] == SawEmpty(true) || s.workers[w] == Left(true))
          ==> s.queue == [] && s.produced == s.total)
    && (|s.taken| == s.total > 0 ==> exists w :: Sound(s, w))
  }

  /** A worker that is in its loop and has not found the queue empty too early. */
  predicate Sound(s: State, w: int) {
    0 <= w < |s.workers| && s.workers[w] != Unborn && s.workers[w] != SawEmpty(false) && s.workers[w] != Left(false)
  }

  ghost predicate Inv(s: State) {
    InOrder(s) && Accounted(s) && Closed(s) && Drained(s)
  }

  lemma InitialInv(s: State)
    requires Initial(s)
    ensures Inv(s)
  {
  }

  lemma InOrderKept(s: State, e: Event)
    requires InOrder(s) && Enabled(s, e)
    ensures InOrder(After(s, e))
  {
  }

  lemma ClosedKept(s: State, e: Event)
    requires Closed(s) && Enabled(s, e)
    ensures Closed(After(s, e))
  {
  }

  /** What one worker does to the items in progress. */
  lemma ProgressAfter(s: State, r: State, w: nat, i: nat)
    requires w < |s.workers| && |r.workers| == |s.workers|
    requires forall v :: 0 <= v < |s.workers| && v != w ==> r.workers[v] == s.workers[v]
    ensures InProgress(r, i) ==> r.workers[w] == Working(i) || InProgress(s, i)
    ensures InProgress(s, i) ==> s.workers[w] == Working(i) || InProgress(r, i)
    ensures s.workers[w] == Working(i) ==> InProgress(s, i)
    ensures r.workers[w] == Working(i) ==> InProgress(r, i)
  {
    if InProgress(r, i) {
      var v :| 0 <= v < |r.workers| && r.workers[v] == Working(i);
      assert v != w ==> s.workers[v] == Working(i);
    }
    if InProgress(s, i) {
      var v :| 0 <= v < |s.workers| && s.workers[v] == Working(i);
      assert v != w ==> r.workers[v] == Working(i);
    }
  }

  /** The worker an event concerns. */
  function Who(s: State, e: Event): nat
    requires Enabled(s, e) && s.workers != []
  {
    match e
    case Produce => if s.produced < |s.workers| then s.produced else 0
    case Finish => 0
    case Check(w) => w
    case ReadFinished(w) => w
    case Complete(w) => w
  }

  lemma AccountedKept(s: State, e: Event)
    requires InOrder(s) && Accounted(s) && Closed(s) && Enabled(s, e)
    ensures Accounted(After(s, e))
  {
    var r := After(s, e);
    if s.workers != [] {
      var w := Who(s, e);
      forall i: nat ensures (i < |r.taken| <==> i in r.done || InProgress(r, i)) && !(i in r.done && InProgress(r, i)) {
        ProgressAfter(s, r, w, i);
        if e.Complete? { OnlyOne(s, r, w); }
      }
      if r.workers[w].Working? && !s.workers[w].Working? { NewItem(s, r, w); }
    } else {
      forall i: nat ensures !InProgress(s, i) && !InProgress(r, i) {}
    }
  }

  /** A completed item is in progress nowhere else. */
  lemma OnlyOne(s: State, r: State, w: nat)
    requires Accounted(s) && w < |s.workers| && s.workers[w].Working? && r.workers == s.workers[w := Idle]
    ensures !InProgress(r, s.workers[w].item)
  {
  }

  /** The item just taken was in nobody's hands. */
  lemma NewItem(s: State, r: State, w: nat)
    requires Accounted(s) && w < |s.workers| && r.workers == s.workers[w := Working(|s.taken|)]
    ensures forall v :: 0 <= v < |s.workers| && v != w && s.workers[v].Working? ==> s.workers[v].item != |s.taken|
  {
    forall v | 0 <= v < |s.workers| && v != w && s.workers[v].Working? ensures s.workers[v].item != |s.taken| {
      assert InProgress(s, s.workers[v].item);
    }
  }

  lemma DrainedKept(s: State, e: Event)
    requires InOrder(s) && Closed(s) && Drained(s) && Enabled(s, e)
    ensures Drained(After(s, e))
  {
    var r := After(s, e);
    if |r.taken| == r.total > 0 {
      if |s.taken| == s.total {
        var w :| Sound(s, w);
        assert Sound(r, w);
      } else {
        assert Sound(r, e.w);
      }
    }
  }

  lemma StepInv(s: State, e: Event)
    requires Inv(s) && Enabled(s, e)
    ensures Inv(After(s, e))
  {
    InOrderKept(s, e);
    AccountedKept(s, e);
    ClosedKept(s, e);
    DrainedKept(s, e);
  }

  lemma {:induction false} RunInv(s: State, es: seq<Event>)
    requires Inv(s) && Runs(s, es)
    ensures Inv(End(s, es))
    decreases es
  {
    if es != [] {
      StepInv(s, es[0]);
      RunInv(After(s, es[0]), es[1..]);
    }
  }

  /** In every run: a produced item is queued, or in progress, or done, and only one of these; no two workers have the
      same one; they are taken in the order of production; and nobody has left before the flag was set. */
  lemma ExactlyOnce(s: State, es: seq<Event>, i: nat)
    requires Initial(s) && Runs(s, es)
    ensures var r := End(s, es);
      && (i < r.produced <==> i in r.queue || InProgress(r, i) || i in r.done)
      && !(i in r.queue && InProgress(r, i)) && !(i in r.queue && i in r.done) && !(InProgress(r, i) && i in r.done)
      && (forall v, w :: 0 <= v < w < |r.workers| && r.workers[v] == Working(i) ==> r.workers[w] != Working(i))
      && (forall k :: 0 <= k < |r.taken| ==> r.taken[k] == k)
      && (forall w :: 0 <= w < |r.workers| && r.workers[w].Left? ==> r.finished)
  {
    InitialInv(s);
    RunInv(s, es);
    var r := End(s, es);
    if |r.taken| <= i < r.produced { assert r.queue[i - |r.taken|] == i; }
    assert i < |r.taken| <==> i in r.done || InProgress(r, i);
  }

  // ---------------------------------------------------------------- is the queue drained?

  predicate AllLeft(s: State) {
    s.workers != [] && forall w :: 0 <= w < |s.workers| ==> s.workers[w].Left?
  }

  /** Some worker found the queue empty, for the last time, after everything had been produced. */
  predicate SomeoneWasLast(s: State) {
    exists w :: 0 <= w < |s.workers| && s.workers[w] == Left(true)
  }

  /** When all the workers have left, every item has been processed exactly if one of them saw the queue empty after
      the last item had been put in. */
  lemma DrainedExactly(s: State, es: seq<Event>)
    requires Initial(s) && Runs(s, es) && AllLeft(End(s, es))
    ensures End(s, es).queue == [] <==> SomeoneWasLast(End(s, es))
  {
    InitialInv(s);
    RunInv(s, es);
    var r := End(s, es);
    assert r.workers[0].Left? && r.workers[0] != Unborn;
    if r.queue == [] {
      var w :| Sound(r, w);
      assert r.workers[w].Left?;
    }
  }

  /** As written it need not be: the one worker finds the queue empty, then the last item is queued and the flag set,
      and only then does the worker read the flag. */
  lemma NotDrained() returns (s: State, es: seq<Event>)
    ensures Initial(s) && s.total == 2 && s.workers == [Unborn]
    ensures Runs(s, es) && AllLeft(End(s, es)) && End(s, es).queue == [1]
  {
    s := State([], 0, 2, false, [Unborn], [], {});
    var s1 := After(s, Produce);
    var s2 := After(s1, Check(0));
    var s3 := After(s2, Complete(0));
    var s4 := After(s3, Check(0));
    assert s4 == State([], 1, 2, false, [SawEmpty(false)], [0], {0});
    var s5 := After(s4, Produce);
    var s6 := After(s5, Finish);
    assert s6 == State([1], 2, 2, true, [SawEmpty(false)], [0], {0});
    es := First(s6, ReadFinished(0), []);
    es := First(s5, Finish, es);
    es := First(s4, Produce, es);
    es := First(s3, Check(0), es);
    es := First(s2, Complete(0), es);
    es := First(s1, Check(0), es);
    es := First(s, Produce, es);
  }

  lemma First(s: State, e: Event, rest: seq<Event>) returns (es: seq<Event>)
    requires Enabled(s, e) && Runs(After(s, e), rest)
    ensures es == [e] + rest && Runs(s, es) && End(s, es) == End(After(s, e), rest)
  {
    es := [e] + rest;
    assert es[1..] == rest;
  }

  /** Had the flag been read before the lock was released, nothing could come in between. */
  predicate ReadsAtOnce(es: seq<Event>) {
    forall i :: 0 <= i < |es| && es[i].ReadFinished? ==> i > 0 && es[i - 1] == Check(es[i].w)
  }

  /** Workers that leave have seen everything produced. */
  predicate NoneEarly(s: State) {
    forall w :: 0 <= w < |s.workers| ==> s.workers[w] != Left(false)
  }

  lemma {:induction false} NoneLeavesEarly(s: State, es: seq<Event>)
    requires Inv(s) && NoneEarly(s) && Runs(s, es) && ReadsAtOnce(es)
    ensures NoneEarly(End(s, es))
    decreases |es|
  {
    if es == [] {
    } else if |es| > 1 && es[1].ReadFinished? {
      var r := After(s, es[0]);
      StepInv(s, es[0]);
      assert es[0] == Check(es[1].w);
      StepInv(r, es[1]);
      TwoSteps(s, es);
      NoneLeavesEarly(After(r, es[1]), es[2..]);
    } else {
      StepInv(s, es[0]);
      assert !es[0].ReadFinished?;
      forall i | 0 <= i < |es[1..]| && es[1..][i].ReadFinished? ensures i > 0 && es[1..][i - 1] == Check(es[1..][i].w) {
        assert es[i + 1].ReadFinished?;
      }
      NoneLeavesEarly(After(s, es[0]), es[1..]);
    }
  }

  lemma TwoSteps(s: State, es: seq<Event>)
    requires |es| > 1 && Runs(s, es) && ReadsAtOnce(es) && es[1].ReadFinished?
    ensures Enabled(s, es[0]) && Enabled(After(s, es[0]), es[1]) && Runs(After(After(s, es[0]), es[1]), es[2..])
    ensures End(s, es) == End(After(After(s, es[0]), es[1]), es[2..]) && ReadsAtOnce(es[2..])
  {
    assert es[1..][0] == es[1] && es[1..][1..] == es[2..];
    forall i | 0 <= i < |es[2..]| && es[2..][i].ReadFinished? ensures i > 0 && es[2..][i - 1] == Check(es[2..][i].w) {
      assert es[i + 2].ReadFinished?;
      assert es[i + 1] == Check(es[i + 2].w);
    }
  }

  /** In that case the queue is always drained when all have left. */
  lemma DrainedIfAtOnce(s: State, es: seq<Event>)
    requires Initial(s) && Runs(s, es) && ReadsAtOnce(es) && AllLeft(End(s, es))
    ensures End(s, es).queue == []
  {
    InitialInv(s);
    NoneLeavesEarly(s, es);
    DrainedExactly(s, es);
    var r := End(s, es);
    assert r.workers[0].Left? && r.workers[0] != Left(false);
  }
}
