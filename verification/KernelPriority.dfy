/** Priorities over whole runs: a core takes a task only after it has looked into every list of a higher priority since
    it last had a task, and found each of them empty. */
module KernelPriority {
  import opened Rings
  import opened Placement
  import opened Kernel
  import opened KernelInvariants
  import opened KernelTheorems

  /** The core has looked into the list for priority `p` and found it empty. */
  predicate FoundEmpty(s: State, e: Event, c: Core, p: Prio) {
    Enabled(s, e) && e == Look(c) && s.phase[c] == Scan(p) && At(s.own, Ready(c, p)) == []
  }

  /** A scan begins at the highest priority, and goes down only past an empty list. */
  lemma ScanFrom(s: State, e: Event, p: Prio)
    requires Enabled(s, e) && PhaseAfter(s, e) == Scan(p)
    ensures p == PRIORITY_HIGH || FoundEmpty(s, e, e.core, p + 1)
  {
  }

  lemma PhaseOf(s: State, e: Event, c: Core, r: State)
    requires Enabled(s, e) && r == After(s, e)
    ensures Shaped(r) && r.phase[c] == if c == e.core then PhaseAfter(s, e) else s.phase[c]
  {
  }

  /** From the event `n` on, up to `m`, the core does nothing but look into its lists. */
  predicate OnlyLooks(es: seq<Event>, n: nat, m: nat, c: Core) {
    n <= m <= |es| && forall k :: n <= k < m && es[k].core == c ==> es[k].Look?
  }

  lemma {:induction false} ScannedDown(states: seq<State>, es: seq<Event>, m: nat, c: Core, p: Prio, higher: Prio)
      returns (n: nat)
    requires Trace(states, es) == true && m <= |es| && Shaped(states[m]) && states[m].phase[c] == Scan(p) && p < higher
    ensures n < m && FoundEmpty(states[n], es[n], c, higher) == true && OnlyLooks(es, n, m, c) == true
    decreases m
  {
    ScannedBefore(states, es, m, c, p);
    if es[m - 1].core == c && p + 1 == higher {
      n := m - 1;
    } else {
      n := ScannedDown(states, es, m - 1, c, if es[m - 1].core == c then p + 1 else p, higher);
    }
    LooksOnly(es, n, m, c);
  }

  lemma LooksOnly(es: seq<Event>, n: nat, m: nat, c: Core)
    requires n < m <= |es| && (n == m - 1 || OnlyLooks(es, n, m - 1, c)) && (es[m - 1].core == c ==> es[m - 1].Look?)
    ensures OnlyLooks(es, n, m, c) == true
  {
  }

  lemma ScannedBefore(states: seq<State>, es: seq<Event>, m: nat, c: Core, p: Prio)
    requires Trace(states, es) == true && m <= |es| && Shaped(states[m]) && states[m].phase[c] == Scan(p)
    ensures m > 0 && Shaped(states[m - 1])
    ensures es[m - 1].core != c ==> states[m - 1].phase[c] == Scan(p)
    ensures es[m - 1].core == c && p < PRIORITY_HIGH ==>
      FoundEmpty(states[m - 1], es[m - 1], c, p + 1) == true && states[m - 1].phase[c] == Scan(p + 1) && es[m - 1].Look?
  {
    NotAtFirst(states, es, c, m);
    TraceStep(states, es, m - 1, m);
    PhaseOf(states[m - 1], es[m - 1], c, states[m]);
    if es[m - 1].core == c { ScanFrom(states[m - 1], es[m - 1], p); }
  }

  lemma NotAtFirst(states: seq<State>, es: seq<Event>, c: Core, m: nat)
    requires Trace(states, es) && m <= |es| && Shaped(states[m]) && states[m].phase[c].Scan?
    ensures m > 0
  {
  }

  /** next() takes from the highest list that has a task: whenever a core takes a task, over any run from before boot,
      each list of a higher priority was empty when the core looked into it, and since then it has only looked on. */
  lemma HighestTaken(states: seq<State>, es: seq<Event>, m: nat, c: Core, higher: Prio) returns (n: nat)
    requires Trace(states, es) && m < |es| && es[m] == Look(c)
    requires Enabled(states[m], Look(c)) && PhaseAfter(states[m], Look(c)) == Leaving
    requires states[m].phase[c].prio < higher
    ensures n < m && FoundEmpty(states[n], es[n], c, higher) && OnlyLooks(es, n, m, c)
  {
    n := ScannedDown(states, es, m, c, states[m].phase[c].prio, higher);
  }
}
