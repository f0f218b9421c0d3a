/** What a core does when nobody gets in between: then the events of `Kernel` add up to what the one-core model of the
    dispatcher does in one go. */
module KernelAlone {
  import opened Rings
  import opened Placement
  import opened RunQueues
  import opened Kernel

  // ---------------------------------------------------------------- next() undisturbed

  function Lists(c: Core, p: Prio): (r: seq<Place>)
    ensures |r| == p + 1 && forall i: Prio :: i <= p ==> r[i] == Ready(c, i)
  {
    seq(p + 1, i requires 0 <= i <= p => Ready(c, i as Prio))
  }

  /** The core looks into `n` lists, one event after the other. */
  function LookRun(c: Core, n: nat): seq<Event> {
    if n == 0 then [] else [Look(c)] + LookRun(c, n - 1)
  }

  lemma LookOnce(s: State, c: Core, p: Prio, r: State)
    requires Shaped(s) && s.phase[c] == Scan(p) && r == After(s, Look(c))
    ensures
      if At(s.own, Ready(c, p)) != [] then r.own == Move(s.own, Ready(c, p), 0, Running(c)) && r.phase[c] == Leaving
      else r.own == s.own && r.phase[c] == if p == 0 then Stuck else Scan(p - 1)
  {
  }

  lemma TopDown(own: map<Place, seq<Tid>>, c: Core, p: Prio)
    requires Top(own, Lists(c, p)) >= 0
    ensures if Top(own, Lists(c, p)) == p then At(own, Ready(c, p)) != []
      else p > 0 && Top(own, Lists(c, p)) == Top(own, Lists(c, p - 1)) && At(own, Ready(c, p)) == []
  {
    assert Lists(c, p)[|Lists(c, p)| - 1] == Ready(c, p);
    if p > 0 { assert Lists(c, p)[..p] == Lists(c, p - 1); }
  }

  predicate Leads(s: State, e: Event, r: State) {
    Enabled(s, e) && r == After(s, e)
  }

  lemma TopBelow(own: map<Place, seq<Tid>>, c: Core, p: Prio)
    requires Top(own, Lists(c, p)) >= 0
    ensures Top(own, Lists(c, p)) <= p
  {
  }

  lemma RunFrom(s: State, e: Event, rest: seq<Event>)
    requires Enabled(s, e) && Runs(After(s, e), rest)
    ensures Runs(s, [e] + rest) && End(s, [e] + rest) == End(After(s, e), rest)
  {
    assert ([e] + rest)[1..] == rest;
  }

  /** The run takes the first task of the list for priority `top` onto the core. */
  predicate RunTakes(s: State, es: seq<Event>, c: Core, top: Prio) {
    && Shaped(s) && At(s.own, Ready(c, top)) != [] && Runs(s, es) && Shaped(End(s, es))
    && End(s, es).own == Move(s.own, Ready(c, top), 0, Running(c)) && End(s, es).phase[c] == Leaving
  }

  lemma TakesNow(s: State, c: Core, p: Prio)
    requires Shaped(s) && s.phase[c] == Scan(p) && At(s.own, Ready(c, p)) != []
    ensures RunTakes(s, LookRun(c, 1), c, p) == true
  {
    LookOnce(s, c, p, After(s, Look(c)));
    RunFrom(s, Look(c), LookRun(c, 0));
  }

  /** The core is about to look into the list for priority `p`, and `Top` names `top` from there down. */
  predicate Faces(s: State, c: Core, p: Prio, top: Prio) {
    Shaped(s) && s.phase[c] == Scan(p) && Top(s.own, Lists(c, p)) == top <= p
  }

  lemma LooksHere(s: State, c: Core, p: Prio)
    requires Faces(s, c, p, p)
    ensures RunTakes(s, LookRun(c, 1), c, p) == true
  {
    TopDown(s.own, c, p);
    TakesNow(s, c, p);
  }

  lemma LooksOn(s: State, c: Core, p: Prio, top: Prio) returns (r: State)
    requires Faces(s, c, p, top) && top < p
    ensures Leads(s, Look(c), r) == true && Faces(r, c, p - 1, top) == true
  {
    TopDown(s.own, c, p);
    TopBelow(s.own, c, p - 1);
    r := After(s, Look(c));
  }

  lemma TakesLater(s: State, c: Core, p: Prio, r: State, n: nat, top: Prio)
    requires Faces(s, c, p, top) == true && top < p && Leads(s, Look(c), r) == true
    requires n > 0 && RunTakes(r, LookRun(c, n - 1), c, top) == true
    ensures RunTakes(s, LookRun(c, n), c, top) == true
  {
    TopDown(s.own, c, p);
    LookOnce(s, c, p, r);
    RunFrom(s, Look(c), LookRun(c, n - 1));
  }

  lemma {:induction false} LooksDown(s: State, c: Core, p: Prio, top: Prio, n: nat)
    requires Faces(s, c, p, top) == true && n == p - top + 1
    ensures RunTakes(s, LookRun(c, n), c, top) == true
    decreases p
  {
    if top == p {
      LooksHere(s, c, p);
    } else {
      var r := LooksOn(s, c, p, top);
      LooksDown(r, c, p - 1, top, n - 1);
      TakesLater(s, c, p, r, n, top);
    }
  }

  /** With nobody in between, the scan of the lists takes the task that `Top` names, after as many looks as it takes
      to get there: as the one-core model of next() does. */
  lemma ScanFindsTop(s: State, c: Core, p: Prio, top: Prio, n: nat)
    requires Shaped(s) && s.phase[c] == Scan(p) && Top(s.own, Lists(c, p)) == top && n == p - top + 1
    ensures RunTakes(s, LookRun(c, n), c, top)
  {
    TopBelow(s.own, c, p);
    LooksDown(s, c, p, top, n);
  }

  // ---------------------------------------------------------------- waking undisturbed

  /** The run queues of these cores for tasks of these priorities. */
  function QueuesOf(prios: seq<Prio>, picks: seq<Core>): (r: seq<Place>)
    requires |prios| == |picks|
    ensures |r| == |picks|
  {
    seq(|picks|, i requires 0 <= i < |picks| => Ready(picks[i], prios[i]))
  }

  lemma QueuesMore(prios: seq<Prio>, p: Prio, picks: seq<Core>, c: Core)
    requires |prios| == |picks|
    ensures QueuesOf(prios + [p], picks + [c]) == QueuesOf(prios, picks) + [Ready(c, p)]
  {
  }

  /** What waking some of `ts` makes of the lists and lengths of `s`: one after the other, each on the core chosen for
      it with the lengths as they are by then. */
  ghost predicate Woken(s: State, c: Core, w: Place, ts: seq<Tid>, masks: seq<set<Core>>, prios: seq<Prio>,
                        left: seq<Tid>, own: map<Place, seq<Tid>>, length: seq<int>) {
    && Shaped(s) && s.liveProcs >= 0 && |masks| == |ts| == |prios|
    && var picks := Picks(c, masks, s.length, s.liveProcs);
       own == Deal(s.own, ts, QueuesOf(prios, picks))[w := left] && length == Loaded(s.length, picks)
  }

  lemma WokenNext(s: State, c: Core, w: Place, ts: seq<Tid>, masks: seq<set<Core>>, prios: seq<Prio>, left: seq<Tid>,
                  own: map<Place, seq<Tid>>, length: seq<int>, mask: set<Core>, prio: Prio, pick: Core)
    requires Woken(s, c, w, ts, masks, prios, left, own, length) == true && left != [] && w.Wait?
    requires |length| == NUM_CORES && s.liveProcs >= 0 && pick == PickCpu(c, mask, Seen(length, length[c], s.liveProcs))
    ensures At(own, w) == left
    ensures Woken(s, c, w, ts + [left[0]], masks + [mask], prios + [prio], left[1..],
                  Move(own, w, 0, Ready(pick, prio)), length[pick := length[pick] + 1]) == true
  {
    var picks := Picks(c, masks, s.length, s.liveProcs);
    PickNext(c, masks, mask, s.length, s.liveProcs, length, pick);
    QueuesMore(prios, prio, picks, pick);
    DealHead(s.own, ts, QueuesOf(prios, picks), w, left, Ready(pick, prio));
  }

  /** Core `c` is in proc_exit, waking the tasks on `w`, and these are left with these masks and priorities. */
  ghost predicate Waits(s: State, c: Core, w: Place, left: seq<Tid>, masks: seq<set<Core>>, prios: seq<Prio>) {
    && Shaped(s) && s.liveProcs >= 0 && s.phase[c].Burying? && Waking(s.phase[c]) == w && At(s.own, w) == left
    && |masks| == |left| == |prios|
    && (forall i :: 0 <= i < |left| ==>
          left[i] in s.tasks && s.tasks[left[i]].mask == masks[i] && s.tasks[left[i]].prio == prios[i])
    && forall d: Core :: 0 <= s.length[d] && s.length[d] + |left| < INT32_MAX
  }

  /** The lengths as they are. */
  function Now(s: State, c: Core): Seen
    requires Shaped(s) && s.liveProcs >= 0
  {
    Seen(s.length, s.length[c], s.liveProcs)
  }

  lemma WakesFirst(s: State, c: Core, w: Place, left: seq<Tid>, masks: seq<set<Core>>,
                   prios: seq<Prio>) returns (r: State, pick: Core)
    requires Waits(s, c, w, left, masks, prios) && left != []
    ensures Enabled(s, Wake(c, Now(s, c))) && r == After(s, Wake(c, Now(s, c)))
    ensures pick == PickCpu(c, masks[0], Now(s, c))
    ensures Shaped(r) && r.own == Move(s.own, w, 0, Ready(pick, prios[0]))
    ensures r.length == s.length[pick := s.length[pick] + 1]
    ensures r.liveProcs == s.liveProcs && r.phase[c].Burying? && Waking(r.phase[c]) == w
    ensures forall t ::
      t in s.tasks ==> t in r.tasks && r.tasks[t].mask == s.tasks[t].mask && r.tasks[t].prio == s.tasks[t].prio
  {
    r := After(s, Wake(c, Now(s, c)));
    pick := PickCpu(c, masks[0], Now(s, c));
  }

  lemma WaitsOn(s: State, c: Core, w: Place, left: seq<Tid>, masks: seq<set<Core>>, prios: seq<Prio>)
    returns (e: Event, r: State, pick: Core)
    requires Waits(s, c, w, left, masks, prios) == true && left != []
    ensures Leads(s, e, r) == true && e.Wake? && e.core == c
    ensures pick == PickCpu(c, masks[0], Now(s, c))
    ensures Shaped(r) && r.own == Move(s.own, w, 0, Ready(pick, prios[0]))
    ensures r.length == s.length[pick := s.length[pick] + 1]
    ensures r.liveProcs == s.liveProcs && Waits(r, c, w, left[1..], masks[1..], prios[1..]) == true
  {
    r, pick := WakesFirst(s, c, w, left, masks, prios);
    e := Wake(c, Now(s, c));
    assert At(r.own, w) == left[1..];
  }

  lemma NoneWoken(s: State, c: Core, w: Place, left: seq<Tid>, masks: seq<set<Core>>, prios: seq<Prio>)
    requires Waits(s, c, w, left, masks, prios) == true && w in s.own
    ensures Woken(s, c, w, [], [], [], left, s.own, s.length) == true
  {
    assert s.own[w := left] == s.own;
  }

  /** The run consists of wakes of the core, and leaves behind what waking all of `ts` makes of `s0`. */
  ghost predicate Wakened(s0: State, s: State, es: seq<Event>, c: Core, w: Place, ts: seq<Tid>, masks: seq<set<Core>>,
                          prios: seq<Prio>) {
    && Runs(s, es) && (forall e :: e in es ==> e.Wake? && e.core == c)
    && Woken(s0, c, w, ts, masks, prios, [], End(s, es).own, End(s, es).length)
  }

  lemma WakenedFrom(s0: State, s: State, e: Event, r: State, rest: seq<Event>, c: Core, w: Place, ts: seq<Tid>,
                    masks: seq<set<Core>>, prios: seq<Prio>)
    requires Leads(s, e, r) && e.Wake? && e.core == c
    requires Wakened(s0, r, rest, c, w, ts, masks, prios) == true
    ensures Wakened(s0, s, [e] + rest, c, w, ts, masks, prios) == true
  {
    RunFrom(s, e, rest);
  }

  lemma WakenedNow(s0: State, s: State, c: Core, w: Place, ts: seq<Tid>, masks: seq<set<Core>>, prios: seq<Prio>)
    requires Woken(s0, c, w, ts, masks, prios, [], s.own, s.length) == true
    ensures Wakened(s0, s, [], c, w, ts, masks, prios) == true
  {
  }

  lemma WakesNext(s0: State, s: State, c: Core, w: Place, ts: seq<Tid>, masks0: seq<set<Core>>, prios0: seq<Prio>,
                  left: seq<Tid>, masks: seq<set<Core>>, prios: seq<Prio>)
    returns (e: Event, r: State)
    requires w.Wait? && Waits(s, c, w, left, masks, prios) == true && |masks| == |left| == |prios| && left != []
    requires Woken(s0, c, w, ts, masks0, prios0, left, s.own, s.length) == true && s0.liveProcs == s.liveProcs
    ensures Leads(s, e, r) == true && e.Wake? && e.core == c
    ensures Waits(r, c, w, left[1..], masks[1..], prios[1..]) == true && s0.liveProcs == r.liveProcs
    ensures Woken(s0, c, w, ts + [left[0]], masks0 + [masks[0]], prios0 + [prios[0]], left[1..], r.own, r.length)
      == true
  {
    var pick;
    e, r, pick := WaitsOn(s, c, w, left, masks, prios);
    WokenNext(s0, c, w, ts, masks0, prios0, left, s.own, s.length, masks[0], prios[0], pick);
  }

  lemma Shift<N>(a: seq<N>, b: seq<N>)
    requires b != []
    ensures a + [b[0]] + b[1..] == a + b
  {
  }

  lemma {:induction false} WakesRest(s0: State, s: State, c: Core, w: Place, ts: seq<Tid>, masks0: seq<set<Core>>,
                                     prios0: seq<Prio>, left: seq<Tid>, masks: seq<set<Core>>, prios: seq<Prio>)
    returns (es: seq<Event>)
    requires w.Wait? && Waits(s, c, w, left, masks, prios) == true && |masks| == |left| == |prios|
    requires Woken(s0, c, w, ts, masks0, prios0, left, s.own, s.length) == true && s0.liveProcs == s.liveProcs
    ensures Wakened(s0, s, es, c, w, ts + left, masks0 + masks, prios0 + prios) == true
    decreases left
  {
    if left == [] {
      es := [];
      assert ts + left == ts && masks0 + masks == masks0 && prios0 + prios == prios0;
      WakenedNow(s0, s, c, w, ts, masks0, prios0);
    } else {
      var e, r := WakesNext(s0, s, c, w, ts, masks0, prios0, left, masks, prios);
      es := WakesRest(s0, r, c, w, ts + [left[0]], masks0 + [masks[0]], prios0 + [prios[0]], left[1..], masks[1..],
                      prios[1..]);
      Shift(ts, left);
      Shift(masks0, masks);
      Shift(prios0, prios);
      WakenedFrom(s0, s, e, r, es, c, w, ts + left, masks0 + masks, prios0 + prios);
      es := [e] + es;
    }
  }

  /** With nobody in between and the lengths read as they are, the wakes of proc_exit deal all the joiners out to the
      run queues as the one-core model of alert_on does. */
  lemma WakesAsOne(s: State, c: Core, w: Place, ts: seq<Tid>, masks: seq<set<Core>>,
                   prios: seq<Prio>) returns (es: seq<Event>)
    requires Waits(s, c, w, ts, masks, prios) && w in s.own
    ensures Runs(s, es) && forall e :: e in es ==> e.Wake? && e.core == c
    ensures var picks := Picks(c, masks, s.length, s.liveProcs);
      End(s, es).own == Deal(s.own, ts, QueuesOf(prios, picks))[w := []] && End(s, es).length == Loaded(s.length, picks)
  {
    NoneWoken(s, c, w, ts, masks, prios);
    es := WakesRest(s, s, c, w, [], [], [], ts, masks, prios);
    assert [] + ts == ts && [] + masks == masks && [] + prios == prios;
  }
}
