/** The task table of thread.c: every process on one list, newest first, and on the hash bucket of its pid. */
module ThreadTables {
  import opened Rings
  import opened Placement
  import opened Kernel
  import opened Dispatchers

  const PIDHASH_SZ: nat := 64

  /** pid_hashfn */
  function HashBits(x: bv32): bv32 {
    ((x >> 8) ^ x) & 63
  }

  function Hash(pid: Pid): (r: nat)
    ensures r < PIDHASH_SZ
  {
    HashBits(pid as bv32) as nat
  }

  /** Of sixty-four pids that differ only in their lowest six bits, no two fall into the same bucket. */
  lemma HashSeparates(x: bv32, y: bv32)
    requires x >> 6 == y >> 6 && HashBits(x) == HashBits(y)
    ensures x == y
  {
  }

  /** And one falls into each. */
  lemma HashReaches(block: bv32, bucket: bv32) returns (x: bv32)
    requires block < 0x400_0000 && bucket < 64
    ensures x >> 6 == block && HashBits(x) == bucket
  {
    x := (block << 6) | ((bucket ^ (block >> 2)) & 63);
  }

  /** Nor do any two fall together that differ only in the six bits above their lowest eight. */
  lemma HashMixes(x: bv32, y: bv32)
    requires x & 0xFF == y & 0xFF && x >> 14 == y >> 14 && HashBits(x) == HashBits(y)
    ensures x == y
  {
  }

  function BucketOf(p: Process): nat {
    Hash(p.pid)
  }

  function PidOf(p: Process): nat {
    p.pid
  }

  /** The entries with key `k`, in list order. */
  function Having<N>(s: seq<N>, key: N -> nat, k: nat): seq<N> {
    if s == [] then [] else (if key(s[0]) == k then [s[0]] else []) + Having(s[1..], key, k)
  }

  lemma {:induction false} HavingAll<N>(s: seq<N>, key: N -> nat, k: nat, n: N)
    ensures n in Having(s, key, k) <==> n in s && key(n) == k
  {
    if s != [] { HavingAll(s[1..], key, k, n); }
  }

  /** Linear search. */
  function FirstWith<N>(s: seq<N>, pid: N -> nat, k: nat): Option<N> {
    if s == [] then None
    else if pid(s[0]) == k then Some(s[0])
    else FirstWith(s[1..], pid, k)
  }

  lemma {:induction false} FirstWithMeans<N>(s: seq<N>, pid: N -> nat, k: nat)
    ensures match FirstWith(s, pid, k)
      case None => forall n :: n in s ==> pid(n) != k
      case Some(n) => n in s && pid(n) == k
  {
    if s != [] { FirstWithMeans(s[1..], pid, k); }
  }

  /** Searching the bucket that a pid hashes to finds what searching the whole list would have found, even if two
      entries came to have the same pid. */
  lemma {:induction false} IndexAgrees<N>(s: seq<N>, key: N -> nat, b: nat, pid: N -> nat, k: nat)
    requires forall n :: n in s && pid(n) == k ==> key(n) == b
    ensures FirstWith(Having(s, key, b), pid, k) == FirstWith(s, pid, k)
  {
    if s != [] {
      var n, rest := s[0], Having(s[1..], key, b);
      assert n in s;
      IndexAgrees(s[1..], key, b, pid, k);
      assert ([n] + rest)[1..] == rest && [] + rest == rest;
    }
  }

  lemma HashIndexAgrees(s: seq<Process>, pid: Pid)
    ensures FirstWith(Having(s, BucketOf, Hash(pid)), PidOf, pid) == FirstWith(s, PidOf, pid)
  {
    IndexAgrees(s, BucketOf, Hash(pid), PidOf, pid);
  }

  predicate NoDup<N(==)>(s: seq<N>) {
    forall i, j :: 0 <= i < j < |s| ==> s[i] != s[j]
  }

  /** Where the bucket of the key has the entry. */
  predicate StandsAt<N(==)>(s: seq<N>, key: N -> nat, n: N, b: nat, k: nat) {
    key(n) == b ==> k < |Having(s, key, b)| && Having(s, key, b)[k] == n
  }

  /** Unlinking an entry from the list and from its own bucket, wherever in it that is, keeps the buckets right. */
  lemma {:induction false} HavingWithout<N>(s: seq<N>, key: N -> nat, i: nat, b: nat, k: nat)
    requires NoDup(s) && i < |s| && StandsAt(s, key, s[i], b, k)
    ensures Having(Without(s, i), key, b) == if key(s[i]) == b then Without(Having(s, key, b), k) else Having(s, key, b)
  {
    if i == 0 {
      WithoutHead(s, key, b, k);
    } else {
      var at := WithoutInTail(s, key, i, b, k);
      HavingWithout(s[1..], key, i - 1, b, at);
    }
  }

  lemma WithoutHead<N>(s: seq<N>, key: N -> nat, b: nat, k: nat)
    requires NoDup(s) && s != [] && StandsAt(s, key, s[0], b, k)
    ensures Having(Without(s, 0), key, b) == if key(s[0]) == b then Without(Having(s, key, b), k) else Having(s, key, b)
  {
    var t, rest := s[1..], Having(s[1..], key, b);
    assert Without(s, 0) == t && [] + rest == rest;
    if key(s[0]) == b {
      forall n | n in rest ensures n in t { HavingAll(t, key, b, n); }
      HeadOnly(s, rest, k);
    }
  }

  /** What unlinking further down does, put in terms of the tail of the list. */
  lemma WithoutInTail<N>(s: seq<N>, key: N -> nat, i: nat, b: nat, k: nat) returns (at: nat)
    requires NoDup(s) && 0 < i < |s| && StandsAt(s, key, s[i], b, k)
    ensures NoDup(s[1..]) && s[1..][i - 1] == s[i] && StandsAt(s[1..], key, s[i], b, at)
    ensures var front, rest := if key(s[0]) == b then [s[0]] else [], Having(s[1..], key, b);
      && Having(s, key, b) == front + rest
      && Having(Without(s, i), key, b) == front + Having(Without(s[1..], i - 1), key, b)
      && (key(s[i]) == b ==> Without(front + rest, k) == front + Without(rest, at))
  {
    var front, rest := if key(s[0]) == b then [s[0]] else [], Having(s[1..], key, b);
    TailWithout(s, i);
    at := 0;
    if key(s[i]) == b {
      InRest(front, rest, k, s[i]);
      at := k - |front|;
    }
  }

  lemma TailWithout<N>(s: seq<N>, i: nat)
    requires 0 < i < |s|
    ensures Without(s, i)[0] == s[0] && Without(s, i)[1..] == Without(s[1..], i - 1)
  {
  }

  lemma InRest<N>(front: seq<N>, rest: seq<N>, k: nat, n: N)
    requires k < |front + rest| && (front + rest)[k] == n && n !in front
    ensures k >= |front| && k - |front| < |rest| && rest[k - |front|] == n
    ensures Without(front + rest, k) == front + Without(rest, k - |front|)
  {
    assert forall j :: 0 <= j < |front| ==> front[j] in front;
  }

  lemma HeadOnly<N>(s: seq<N>, rest: seq<N>, k: nat)
    requires NoDup(s) && s != [] && (forall n :: n in rest ==> n in s[1..])
    requires k < |[s[0]] + rest| && ([s[0]] + rest)[k] == s[0]
    ensures k == 0 && Without([s[0]] + rest, k) == rest
  {
    assert Without([s[0]] + rest, 0) == rest;
    forall j | 0 <= j < |rest| ensures rest[j] != s[0] { assert rest[j] in rest; }
  }

  /** No two processes share a pid. */
  predicate Unique(s: seq<Process>) {
    forall i, j :: 0 <= i < j < |s| ==> s[i].pid != s[j].pid
  }

  /** A process put on the list leaves the pids unique exactly when its pid was free. */
  lemma UniqueMore(p: Process, s: seq<Process>)
    ensures Unique([p] + s) <==> Unique(s) && FirstWith(s, PidOf, p.pid) == None
  {
    var r := [p] + s;
    FirstWithMeans(s, PidOf, p.pid);
    if Unique(r) {
      forall i, j | 0 <= i < j < |s| ensures s[i].pid != s[j].pid { assert r[i + 1].pid != r[j + 1].pid; }
      forall j | 0 <= j < |s| ensures PidOf(s[j]) != p.pid { assert r[0].pid != r[j + 1].pid; }
    }
    if Unique(s) && FirstWith(s, PidOf, p.pid) == None {
      forall j | 0 < j < |r| ensures r[0].pid != r[j].pid { assert r[j] in s && PidOf(r[j]) != p.pid; }
    }
  }

  lemma Unlinked(s: seq<Process>, i: nat)
    requires NoDup(s) && i < |s|
    ensures NoDup(Without(s, i)) && s[i] !in Without(s, i) && (Unique(s) ==> Unique(Without(s, i)))
    ensures forall p :: p in Without(s, i) ==> p in s
  {
  }

  /** The buckets, as one table. */
  ghost predicate Indexed(s: seq<Process>, buckets: seq<seq<Process>>) {
    |buckets| == PIDHASH_SZ && forall b :: 0 <= b < PIDHASH_SZ ==> buckets[b] == Having(s, BucketOf, b)
  }

  lemma IndexedWithout(s: seq<Process>, buckets: seq<seq<Process>>, i: nat, h: nat, k: nat)
    requires NoDup(s) && Indexed(s, buckets) && i < |s| && h == Hash(s[i].pid)
    requires k < |buckets[h]| && buckets[h][k] == s[i]
    ensures Indexed(Without(s, i), buckets[h := Without(buckets[h], k)])
  {
    assert BucketOf(s[i]) == h;
    forall b | 0 <= b < PIDHASH_SZ
      ensures Having(Without(s, i), BucketOf, b) == if b == h then Without(buckets[b], k) else buckets[b] {
      HavingWithout(s, BucketOf, i, b, if b == h then k else 0);
    }
  }

  // ---------------------------------------------------------------- pids over whole runs

  /** next_pid, the pids that calls of proc_create have taken and not yet used, and the pids on the list, newest
      first. */
  datatype Table = Table(next: Pid, pending: seq<Pid>, listed: seq<Pid>)

  /** A proc_create takes its pid, and later reads next_pid again before it goes on; a process exits. */
  datatype Op = Take | Enlist(call: nat) | Exit(index: nat)

  /** What becomes of the list when a call that has taken a pid reads next_pid again. */
  function Enlisted(next: Pid, pid: Pid, listed: seq<Pid>): seq<Pid> {
    if next == 0 then listed else [pid] + listed
  }

  predicate Possible(t: Table, op: Op) {
    match op
    case Take => true
    case Enlist(k) => k < |t.pending|
    case Exit(i) => i < |t.listed|
  }

  function Done(t: Table, op: Op): Table
    requires Possible(t, op)
  {
    match op
    case Take => Table((t.next + 1) % UINT32, [t.next] + t.pending, t.listed)
    case Enlist(k) => Table(t.next, Without(t.pending, k), Enlisted(t.next, t.pending[k], t.listed))
    case Exit(i) => t.(listed := Without(t.listed, i))
  }

  predicate Feasible(t: Table, ops: seq<Op>)
    decreases |ops|
  {
    ops == [] || (Possible(t, ops[0]) && Feasible(Done(t, ops[0]), ops[1..]))
  }

  function Final(t: Table, ops: seq<Op>): Table
    requires Feasible(t, ops)
    decreases |ops|
  {
    if ops == [] then t else Final(Done(t, ops[0]), ops[1..])
  }

  function Takes(ops: seq<Op>): nat {
    if ops == [] then 0 else (if ops[0].Take? then 1 else 0) + Takes(ops[1..])
  }

  predicate Different(pids: seq<Pid>) {
    forall i, j :: 0 <= i < j < |pids| ==> pids[i] != pids[j]
  }

  /** The pid that the k-th call takes. */
  function PidNumber(k: nat): Pid {
    (1 + k) % UINT32
  }

  /** After n calls: every pid in use is that of one of them, and of one only. */
  ghost predicate Numbered(t: Table, n: nat) {
    && n <= UINT32 && t.next == PidNumber(n) && Different(t.pending) && Different(t.listed)
    && (forall p :: p in t.pending ==> p !in t.listed)
    && forall p :: p in t.pending || p in t.listed ==> Given(p, n)
  }

  /** One of the first n calls took the pid. */
  ghost predicate Given(p: Pid, n: nat) {
    exists k: nat :: k < n && p == PidNumber(k)
  }

  lemma NotGiven(n: nat)
    requires n < UINT32
    ensures !Given(PidNumber(n), n)
  {
    forall k: nat | k < n ensures PidNumber(k) != PidNumber(n) {
      assert PidNumber(n) == if n == UINT32 - 1 then 0 else 1 + n;
    }
  }

  lemma GivenLater(p: Pid, n: nat)
    requires Given(p, n)
    ensures Given(p, n + 1)
  {
  }

  lemma TakeNumbered(t: Table, n: nat)
    requires Numbered(t, n) && n < UINT32
    ensures Numbered(Done(t, Take), n + 1)
  {
    NotGiven(n);
    var r := Done(t, Take);
    assert Given(t.next, n + 1) by { assert t.next == PidNumber(n); }
    assert t.next !in t.pending && t.next !in t.listed;
    forall p | p in r.pending || p in r.listed ensures Given(p, n + 1) {
      if p != t.next { GivenLater(p, n); }
    }
    assert r.next == PidNumber(n + 1);
  }

  lemma WithoutDifferent(pids: seq<Pid>, i: nat)
    requires Different(pids) && i < |pids|
    ensures Different(Without(pids, i)) && pids[i] !in Without(pids, i)
    ensures forall p :: p in Without(pids, i) ==> p in pids
  {
  }

  lemma OtherNumbered(t: Table, op: Op, n: nat)
    requires Numbered(t, n) && Possible(t, op) && !op.Take?
    ensures Numbered(Done(t, op), n)
  {
    match op
    case Enlist(k) =>
      WithoutDifferent(t.pending, k);
      assert t.pending[k] in t.pending;
    case Exit(i) => WithoutDifferent(t.listed, i);
  }

  lemma {:induction false} StaysNumbered(t: Table, ops: seq<Op>, n: nat)
    requires Numbered(t, n) && Feasible(t, ops) && n + Takes(ops) <= UINT32
    ensures Numbered(Final(t, ops), n + Takes(ops))
    decreases |ops|
  {
    if ops != [] {
      if ops[0].Take? {
        TakeNumbered(t, n);
        StaysNumbered(Done(t, ops[0]), ops[1..], n + 1);
      } else {
        OtherNumbered(t, ops[0], n);
        StaysNumbered(Done(t, ops[0]), ops[1..], n);
      }
    }
  }

  /** Whatever the cores do, the first 2^32 calls of proc_create give no pid twice. */
  lemma PidsDiffer(ops: seq<Op>)
    requires Feasible(Table(1, [], []), ops) && Takes(ops) <= UINT32
    ensures Different(Final(Table(1, [], []), ops).listed)
  {
    StaysNumbered(Table(1, [], []), ops, 0);
  }

  lemma {:induction false} FinalThen(t: Table, a: seq<Op>, b: seq<Op>)
    requires Feasible(t, a) && Feasible(Final(t, a), b)
    ensures Feasible(t, a + b) && Final(t, a + b) == Final(Final(t, a), b) && Takes(a + b) == Takes(a) + Takes(b)
    decreases |a|
  {
    if a == [] {
      assert a + b == b;
    } else {
      assert (a + b)[1..] == a[1..] + b;
      FinalThen(Done(t, a[0]), a[1..], b);
    }
  }

  lemma OneCall(t: Table)
    requires t.pending == []
    ensures Feasible(t, [Take, Enlist(0)]) && Takes([Take, Enlist(0)]) == 1
    ensures
      var next := (t.next + 1) % UINT32;
      Final(t, [Take, Enlist(0)]) == Table(next, [], Enlisted(next, t.next, t.listed))
  {
    var a, b := Done(t, Take), Done(Done(t, Take), Enlist(0));
    assert [Take, Enlist(0)][1..] == [Enlist(0)] && [Enlist(0)][1..] == [];
    assert Without(a.pending, 0) == [];
    assert Final(b, []) == b;
    assert Takes([]) == 0 && Takes([Enlist(0)]) == 0;
  }

  /** A process is created and exits at once, if it comes into being. */
  lemma OneLife(t: Table) returns (ops: seq<Op>)
    requires t.pending == []
    ensures Feasible(t, ops) && Takes(ops) == 1 && Final(t, ops) == t.(next := (t.next + 1) % UINT32)
  {
    OneCall(t);
    var m := Final(t, [Take, Enlist(0)]);
    if m.next == 0 {
      ops := [Take, Enlist(0)];
    } else {
      var last := [Op.Exit(0)];
      assert last[1..] == [] && Takes(last[1..]) == 0 && Without(m.listed, 0) == t.listed;
      assert Final(Done(m, Op.Exit(0)), []) == Done(m, Op.Exit(0));
      ops := [Take, Enlist(0)] + last;
      FinalThen(t, [Take, Enlist(0)], last);
    }
  }

  lemma {:induction false} ManyLives(t: Table, n: nat) returns (ops: seq<Op>)
    requires t.pending == []
    ensures Feasible(t, ops) && Takes(ops) == n && Final(t, ops) == t.(next := (t.next + n) % UINT32)
    decreases n
  {
    if n == 0 {
      ops := [];
    } else {
      var before := ManyLives(t, n - 1);
      var m := Final(t, before);
      var one := OneLife(m);
      ops := before + one;
      FinalThen(t, before, one);
      NextTwice(t.next, n);
    }
  }

  lemma NextTwice(next: Pid, n: nat)
    requires n > 0
    ensures ((next + (n - 1)) % UINT32 + 1) % UINT32 == (next + n) % UINT32
  {
  }

  /** A call that does not wrap next_pid lists its process. */
  lemma CallLists(t: Table)
    requires t.pending == [] && t.next < UINT32 - 1
    ensures Feasible(t, [Take, Enlist(0)]) && Takes([Take, Enlist(0)]) == 1
    ensures Final(t, [Take, Enlist(0)]) == Table(t.next + 1, [], [t.next] + t.listed)
  {
    OneCall(t);
  }

  lemma ComeRound(t: Table) returns (ops: seq<Op>)
    requires t.pending == []
    ensures Feasible(t, ops) && Takes(ops) == UINT32 - 1
    ensures t.next > 0 ==> Final(t, ops) == t.(next := t.next - 1)
  {
    ops := ManyLives(t, UINT32 - 1);
  }

  /** And one more can: the first process lives on, every other exits before the next is created, and after 2^32 + 1
      calls two listed processes have the same pid. */
  lemma PidsRepeat() returns (ops: seq<Op>)
    ensures Feasible(Table(1, [], []), ops) && Takes(ops) == UINT32 + 1
    ensures Final(Table(1, [], []), ops).listed == [1, 1]
  {
    var t, a, b := Table(1, [], []), Table(2, [], [1]), Table(1, [], [1]);
    var call := [Take, Enlist(0)];
    CallLists(t);
    assert [t.next] + t.listed == [1];
    var lives := ComeRound(a);
    CallLists(b);
    assert [b.next] + b.listed == [1, 1];
    FinalThen(a, lives, call);
    FinalThen(t, call, lives + call);
    ops := call + (lives + call);
  }

  lemma FirstOp(t: Table, op: Op, ops: seq<Op>)
    requires Possible(t, op) && Feasible(Done(t, op), ops)
    ensures Feasible(t, [op] + ops) && Final(t, [op] + ops) == Final(Done(t, op), ops)
  {
    assert ([op] + ops)[1..] == ops;
  }

  /** Two calls that overlap can list their processes in the other order. */
  lemma OutOfOrder() returns (ops: seq<Op>)
    ensures ops == [Take, Take, Enlist(0), Enlist(0)] && Feasible(Table(1, [], []), ops)
    ensures Final(Table(1, [], []), ops).listed == [1, 2]
  {
    var a, b := Table(2, [1], []), Table(3, [2, 1], []);
    var rest := SecondFirst();
    assert Done(Table(1, [], []), Take) == a && Done(a, Take) == b;
    FirstOp(a, Take, rest);
    FirstOp(Table(1, [], []), Take, [Take] + rest);
    ops := [Take] + ([Take] + rest);
  }

  lemma SecondFirst() returns (ops: seq<Op>)
    ensures ops == [Enlist(0), Enlist(0)] && Feasible(Table(3, [2, 1], []), ops)
    ensures Final(Table(3, [2, 1], []), ops).listed == [1, 2]
  {
    var b, c, d := Table(3, [2, 1], []), Table(3, [1], [2]), Table(3, [], [1, 2]);
    assert Without([2, 1], 0) == [1] && Done(b, Enlist(0)) == c;
    assert Without([1], 0) == [] && [1] + [2] == [1, 2] && Done(c, Enlist(0)) == d;
    FirstOp(c, Enlist(0), []);
    FirstOp(b, Enlist(0), [Enlist(0)]);
    ops := [Enlist(0)] + ([Enlist(0)] + []);
    assert [Enlist(0)] + [] == [Enlist(0)];
  }

  function PidsOf(s: seq<Process>): seq<Pid> {
    if s == [] then [] else [s[0].pid] + PidsOf(s[1..])
  }

  lemma {:induction false} PidsWithout(s: seq<Process>, i: nat)
    requires i < |s|
    ensures |PidsOf(s)| == |s| && PidsOf(Without(s, i)) == Without(PidsOf(s), i)
  {
    PidsLength(s);
    if i == 0 {
      assert Without(s, 0) == s[1..] && Without(PidsOf(s), 0) == PidsOf(s[1..]);
    } else {
      PidsWithout(s[1..], i - 1);
      TailWithout(s, i);
      assert Without(PidsOf(s), i) == [s[0].pid] + Without(PidsOf(s[1..]), i - 1);
    }
  }

  lemma {:induction false} PidsLength(s: seq<Process>)
    ensures |PidsOf(s)| == |s|
  {
    if s != [] { PidsLength(s[1..]); }
  }

  lemma {:induction false} PidsAt(s: seq<Process>, i: nat)
    requires i < |s|
    ensures |PidsOf(s)| == |s| && PidsOf(s)[i] == s[i].pid
  {
    PidsLength(s);
    if i > 0 { PidsAt(s[1..], i - 1); }
  }

  /** No two processes share a pid exactly when the pids on the list differ. */
  lemma DifferentUnique(s: seq<Process>)
    ensures Different(PidsOf(s)) <==> Unique(s)
  {
    PidsLength(s);
    forall i: nat | i < |s| ensures PidsOf(s)[i] == s[i].pid { PidsAt(s, i); }
  }

  /** The pids go down along the list, from below `next` to above 0. */
  predicate Descending(next: nat, s: seq<Process>) {
    if s == [] then 0 < next else s[0].pid < next && Descending(s[0].pid, s[1..])
  }

  lemma OneMoreBelow(next: nat, p: Process, s: seq<Process>, after: nat)
    requires p.pid == next
    ensures Descending(next, s) && next < after ==> Descending(after, [p] + s)
  {
    assert ([p] + s)[1..] == s;
  }

  /** So they are unique. */
  lemma {:induction false} DescendingUnique(next: nat, s: seq<Process>)
    requires Descending(next, s)
    ensures Unique(s) && 0 < next && forall p :: p in s ==> 0 < p.pid < next
  {
    if s != [] {
      DescendingUnique(s[0].pid, s[1..]);
      assert s == [s[0]] + s[1..];
      FirstWithMeans(s[1..], PidOf, s[0].pid);
      UniqueMore(s[0], s[1..]);
    }
  }

  lemma {:induction false} DescendingWithout(next: nat, s: seq<Process>, i: nat)
    requires Descending(next, s) && i < |s|
    ensures Descending(next, Without(s, i))
  {
    DescendingUnique(next, s);
    if i == 0 {
      assert Without(s, 0) == s[1..];
      DescendingLater(s[0].pid, next, s[1..]);
    } else {
      DescendingWithout(s[0].pid, s[1..], i - 1);
      TailWithout(s, i);
    }
  }

  lemma DescendingLater(next: nat, after: nat, s: seq<Process>)
    requires Descending(next, s) && next <= after
    ensures Descending(after, s)
  {
  }

  lemma PidsMore(p: Process, s: seq<Process>)
    ensures PidsOf([p] + s) == [p.pid] + PidsOf(s)
  {
    assert ([p] + s)[1..] == s;
  }

  /** The i-th process has been taken off the list, and so its pid off the list of pids. */
  ghost predicate Unlinks(was: seq<Process>, process: Process, i: nat, now: seq<Process>) {
    && i < |was| && was[i] == process && now == Without(was, i)
    && |PidsOf(was)| == |was| && PidsOf(now) == Without(PidsOf(was), i)
  }

  /** The table has gone through this operation. */
  ghost predicate Became(was: Table, op: Op, now: Table) {
    Possible(was, op) && now == Done(was, op)
  }

  lemma ExitsAs(next: Pid, pending: seq<Pid>, s: seq<Process>, process: Process, i: nat)
    requires i < |s| && Unlinks(s, process, i, Without(s, i))
    ensures Became(Table(next, pending, PidsOf(s)), Op.Exit(i), Table(next, pending, PidsOf(Without(s, i))))
  {
  }

  lemma WrapsLast(pid: Pid)
    ensures if pid == UINT32 - 1 then (pid + 1) % UINT32 == 0 else (pid + 1) % UINT32 == pid + 1
  {
  }

  class ThreadTable {
    var nextPid: Pid
    var processList: seq<Process>
    var buckets: seq<seq<Process>>      // process_hash
    ghost var pending: seq<Pid>         // pids taken by calls of proc_create that have not gone on yet

    /** The pids in use. */
    ghost function Shown(): Table
      reads this
    {
      Table(nextPid, pending, PidsOf(processList))
    }

    ghost predicate Valid()
      reads this
    {
      NoDup(processList) && Indexed(processList, buckets)
    }

    /** The calls of proc_create have come one after the other, and no pid has come round again yet: the pids given out
        are below the next one, and newer ones above older. */
    ghost predicate Unwrapped()
      reads this
    {
      pending == [] && Descending(nextPid, processList)
    }

    /** proc_init */
    constructor ()
      ensures Valid() && Unwrapped() && processList == [] && Shown() == Table(1, [], [])
    {
      nextPid := 1;
      processList := [];
      buckets := [];
      pending := [];
      new;
      for i := 0 to PIDHASH_SZ
        invariant nextPid == 1 && processList == [] && pending == []
        invariant |buckets| == i && forall b :: 0 <= b < i ==> buckets[b] == []
      {
        buckets := buckets + [[]];
      }
    }

    /** get_process */
    method GetProcess(pid: Pid) returns (found: Option<Process>)
      requires Valid()
      ensures found == FirstWith(processList, PidOf, pid)
    {
      HashIndexAgrees(processList, pid);
      var bucket := buckets[Hash(pid)];
      var i := 0;
      while i < |bucket|
        invariant 0 <= i <= |bucket|
        invariant FirstWith(bucket, PidOf, pid) == FirstWith(bucket[i..], PidOf, pid)
      {
        if bucket[i].pid == pid {
          return Some(bucket[i]);
        }
        assert bucket[i..][1..] == bucket[i + 1..];
        i := i + 1;
      }
      return None;
    }

    /** The first half of proc_create, as far as the table goes: the atomic increment. */
    method TakePid() returns (pid: Pid)
      modifies this`nextPid, this`pending
      ensures pid == old(nextPid) && pending == [pid] + old(pending)
      ensures Became(old(Shown()), Take, Shown())
    {
      pid := nextPid;
      pending := [pid] + pending;
      nextPid := (nextPid + 1) % UINT32;
    }

    /** The second half, other cores having done anything in between: next_pid is read again, without a lock; if it
        reads 0 the call gives up, and its pid is lost. */
    method Enlist(d: Dispatcher, me: Core, current: Process, pid: Pid, arg: int, priority: Prio,
                  affinity: Option<set<Core>>, ghost call: nat)
        returns (created: Option<Process>, ghost c: Core)
      requires Valid() && d.Valid() && call < |pending| && pending[call] == pid
      modifies this`processList, this`buckets, this`pending, d`lists, d`length, d`live, current`ret
      ensures Valid() && d.Valid() && Became(old(Shown()), Op.Enlist(call), Shown())
      ensures created == None <==> nextPid == 0
      ensures created == None ==>
        current.ret == EAGAIN && processList == old(processList) && d.lists == old(d.lists) && d.live == old(d.live)
      ensures created.Some? ==> var p := created.value;
        && fresh(p) && p.pid == pid && p.priority == priority && p.ret == arg && p.state == Runnable
        && p.mask == (if affinity.Some? then affinity.value else {0, 1, 2, 3})
        && processList == [p] + old(processList) && current.ret == 0 && d.live == old(d.live) + 1
      ensures created.Some? ==> var p := created.value;
        && c == PickCpu(me, p.mask, Seen(old(d.length), old(d.length)[me], old(d.live) + 1))
        && d.lists == Append(old(d.lists), Ready(c, priority), p)
        && d.length == old(d.length)[c := old(d.length)[c] + 1]
    {
      c := me;
      pending := Without(pending, call);
      if nextPid == 0 {
        current.ret := EAGAIN;
        return None, c;
      }
      current.ret := 0;
      d.live := d.live + 1;
      var mask := if affinity.Some? then affinity.value else {0, 1, 2, 3};
      var process := new Process(pid, priority, mask, arg);
      c := Launch(d, me, process);
      created := Some(process);
    }

    /** Both halves, with no other core in between. */
    method ProcCreate(d: Dispatcher, me: Core, current: Process, arg: int, priority: Prio, affinity: Option<set<Core>>)
        returns (created: Option<Process>, ghost c: Core)
      requires Valid() == true && d.Valid() == true
      modifies this, d`lists, d`length, d`live, current`ret
      ensures Valid() == true && d.Valid() == true && nextPid == (old(nextPid) + 1) % UINT32 && pending == old(pending)
      ensures created == None <==> old(nextPid) == UINT32 - 1
      ensures created == None ==>
        current.ret == EAGAIN && processList == old(processList) && d.lists == old(d.lists) && d.live == old(d.live)
      ensures created.Some? ==> var p := created.value;
        && fresh(p) && p.pid == old(nextPid) && p.priority == priority && p.ret == arg && p.state == Runnable
        && p.mask == (if affinity.Some? then affinity.value else {0, 1, 2, 3})
        && processList == [p] + old(processList) && current.ret == 0 && d.live == old(d.live) + 1
      ensures created.Some? ==> var p := created.value;
        && c == PickCpu(me, p.mask, Seen(old(d.length), old(d.length)[me], old(d.live) + 1))
        && d.lists == Append(old(d.lists), Ready(c, priority), p)
        && d.length == old(d.length)[c := old(d.length)[c] + 1]
      ensures old(Unwrapped()) && created.Some? ==> Unwrapped()
    {
      var pid := TakePid();
      assert Without(pending, 0) == old(pending);
      WrapsLast(pid);
      created, c := Enlist(d, me, current, pid, arg, priority, affinity, 0);
      if created.Some? { OneMoreBelow(pid, created.value, old(processList), nextPid); }
    }

    /** The end of proc_create: the process is listed and made ready. */
    method Launch(d: Dispatcher, me: Core, process: Process) returns (ghost c: Core)
      requires Valid() && d.Valid() && process !in processList && process !in Members(d.lists)
      modifies this`processList, this`buckets, d`lists, d`length, process`state
      ensures Valid() && d.Valid() && process.state == Runnable
      ensures processList == [process] + old(processList)
      ensures PidsOf(processList) == [process.pid] + old(PidsOf(processList))
      ensures c == PickCpu(me, process.mask, Seen(old(d.length), old(d.length)[me], d.live))
      ensures d.lists == Append(old(d.lists), Ready(c, process.priority), process)
      ensures d.length == old(d.length)[c := old(d.length)[c] + 1]
    {
      Register(process);
      PidsMore(process, old(processList));
      NotDetached(d.lists, process);
      c := d.MakeReady(me, process);
    }

    method Register(process: Process)
      requires Valid() && process !in processList
      modifies this`processList, this`buckets
      ensures Valid() && processList == [process] + old(processList)
    {
      var b := Hash(process.pid);
      processList := [process] + processList;
      buckets := buckets[b := [process] + buckets[b]];
      assert processList[1..] == old(processList);
    }

    /** The unlinking at the end of proc_exit. */
    method Unregister(process: Process)
      requires Valid() && process in processList
      modifies this`processList, this`buckets
      ensures Valid() == true && process !in processList
      ensures exists i ::
                Unlinks(old(processList), process, i, processList) && Became(old(Shown()), Op.Exit(i), Shown())
      ensures old(Unwrapped()) ==> Unwrapped()
    {
      var h := Hash(process.pid);
      HavingAll(processList, BucketOf, h, process);
      var i :| 0 <= i < |processList| && processList[i] == process;
      var k :| 0 <= k < |buckets[h]| && buckets[h][k] == process;
      IndexedWithout(processList, buckets, i, h, k);
      Unlinked(processList, i);
      PidsWithout(processList, i);
      if Unwrapped() { DescendingWithout(nextPid, processList, i); }
      assert Unlinks(processList, process, i, Without(processList, i));
      ExitsAs(nextPid, pending, processList, process, i);
      processList := Without(processList, i);
      buckets := buckets[h := Without(buckets[h], k)];
      assert Became(old(Shown()), Op.Exit(i), Shown());
    }

    /** The checks at the start of proc_join. */
    method JoinTarget(current: Process, pid: Pid) returns (target: Option<Process>)
      requires Valid()
      modifies current`ret
      ensures var found := FirstWith(processList, PidOf, pid);
        if pid == 0 || found == None || found.value.pid == current.pid then target == None && current.ret == EINVAL
        else target == found && current.ret == old(current.ret)
    {
      var process := GetProcess(pid);
      if pid == 0 || process == None || current.pid == process.value.pid {
        current.ret := EINVAL;
        return None;
      }
      return process;
    }
  }
}
