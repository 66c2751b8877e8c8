/**
 * The load generator's job runner: workers that each go through a slice of the
 * jobs and send the results on one buffered channel, and a main routine that
 * starts the workers and then receives as many results as there are jobs.
 * Every interleaving of their steps is a run.
 */
module JobRunner {
  import opened Wrappers

  /** What invoking each job gives, and the number of workers asked for. */
  datatype Config = Config(outcomes: seq<int>, concurrency: int) {
    function NumJobs(): nat {
      |outcomes|
    }

    /** The runner goes on only when this holds. */
    predicate Divides() {
      concurrency != 0 && NumJobs() % concurrency == 0
    }

    /** The worker loop runs this often. */
    function Workers(): nat {
      if concurrency > 0 then concurrency else 0
    }

    function Share(): nat
      requires Divides()
    {
      if concurrency > 0 then NumJobs() / concurrency else 0
    }
  }

  /** A worker has sent the results of jobs lo..next; it may hold the result of job `next`. */
  datatype Worker = Worker(lo: nat, hi: nat, next: nat, pending: Option<int>)

  datatype State = State(
    workers: seq<Worker>,
    channel: seq<int>,
    received: seq<int>,
    successful: nat,
    nbytes: nat)

  datatype Event = Spawn | Invoke(w: nat) | Send(w: nat) | Receive

  const INIT := State([], [], [], 0, 0)

  predicate Finished(c: Config, s: State) {
    |s.workers| >= c.Workers() && |s.received| >= c.NumJobs()
  }

  predicate Enabled(c: Config, s: State, e: Event) {
    match e
    case Spawn => |s.workers| < c.Workers()
    case Invoke(w) => w < |s.workers| && s.workers[w].next < s.workers[w].hi && s.workers[w].pending.None?
                      && s.workers[w].next < c.NumJobs()
    case Send(w) => w < |s.workers| && s.workers[w].pending.Some? && |s.channel| < c.NumJobs()
    case Receive => |s.workers| >= c.Workers() && |s.received| < c.NumJobs() && s.channel != []
  }

  function Count(r: int): nat {
    if r > 0 then 1 else 0
  }

  function Size(r: int): nat {
    if r > 0 then r else 0
  }

  function Advance(k: Worker): Worker {
    k.(next := k.next + 1, pending := None)
  }

  function Step(c: Config, s: State, e: Event): State
    requires c.Divides() && Enabled(c, s, e)
  {
    match e
    case Spawn =>
      var w := |s.workers|;
      s.(workers := s.workers + [Worker(w * c.Share(), (w + 1) * c.Share(), w * c.Share(), None)])
    case Invoke(w) =>
      s.(workers := s.workers[w := s.workers[w].(pending := Some(c.outcomes[s.workers[w].next]))])
    case Send(w) =>
      s.(workers := s.workers[w := Advance(s.workers[w])], channel := s.channel + [s.workers[w].pending.value])
    case Receive =>
      var r := s.channel[0];
      s.(channel := s.channel[1..], received := s.received + [r],
         successful := s.successful + Count(r), nbytes := s.nbytes + Size(r))
  }

  predicate Legal(c: Config, s: State, run: seq<Event>)
    requires c.Divides()
    decreases run
  {
    run != [] ==> Enabled(c, s, run[0]) && Legal(c, Step(c, s, run[0]), run[1..])
  }

  function Run(c: Config, s: State, run: seq<Event>): State
    requires c.Divides() && Legal(c, s, run)
    decreases run
  {
    if run == [] then s else Run(c, Step(c, s, run[0]), run[1..])
  }

  // ---------------------------------------------------------------- results

  /** Successful results and their bytes, counted one after the other. */
  function Successes(results: seq<int>): nat {
    if results == [] then 0 else Successes(results[..|results| - 1]) + Count(results[|results| - 1])
  }

  function Bytes(results: seq<int>): nat {
    if results == [] then 0 else Bytes(results[..|results| - 1]) + Size(results[|results| - 1])
  }

  lemma TallyAppend(results: seq<int>, r: int)
    ensures Successes(results + [r]) == Successes(results) + Count(r)
    ensures Bytes(results + [r]) == Bytes(results) + Size(r)
  {
    assert (results + [r])[..|results|] == results;
  }

  lemma {:induction false} TallyConcat(a: seq<int>, b: seq<int>)
    ensures Successes(a + b) == Successes(a) + Successes(b)
    ensures Bytes(a + b) == Bytes(a) + Bytes(b)
  {
    if b == [] {
      assert a + b == a;
    } else {
      var n := |b| - 1;
      TallyConcat(a, b[..n]);
      assert a + b == (a + b[..n]) + [b[n]];
      TallyAppend(a + b[..n], b[n]);
    }
  }

  // What the tally means: the requests that answered with something, and the bytes of their answers.

  /** The jobs whose request succeeded. */
  ghost function Succeeded(outcomes: seq<int>): set<int> {
    set i | 0 <= i < |outcomes| && outcomes[i] > 0
  }

  /** The sum of the outcomes of the chosen jobs among the first n. */
  ghost function SumOver(outcomes: seq<int>, chosen: set<int>, n: nat): int
    requires n <= |outcomes|
  {
    if n == 0 then 0 else SumOver(outcomes, chosen, n - 1) + (if n - 1 in chosen then outcomes[n - 1] else 0)
  }

  lemma {:induction false} SumOfPrefix(outcomes: seq<int>, chosen: set<int>, chosen': set<int>, k: nat, n: nat)
    requires n <= k <= |outcomes| && forall i :: 0 <= i < n ==> (i in chosen <==> i in chosen')
    ensures SumOver(outcomes, chosen, n) == SumOver(outcomes[..k], chosen', n)
  {
    if n > 0 {
      SumOfPrefix(outcomes, chosen, chosen', k, n - 1);
    }
  }

  /** The tally counts the jobs that succeeded, and adds up exactly their outcomes. */
  lemma {:induction false} TallyMeans(outcomes: seq<int>)
    ensures Successes(outcomes) == |Succeeded(outcomes)|
    ensures Bytes(outcomes) == SumOver(outcomes, Succeeded(outcomes), |outcomes|)
  {
    if outcomes == [] {
      assert Succeeded(outcomes) == {};
    } else {
      var n := |outcomes| - 1;
      var before := outcomes[..n];
      TallyMeans(before);
      assert Succeeded(outcomes) == Succeeded(before) + (if outcomes[n] > 0 then {n} else {});
      SumOfPrefix(outcomes, Succeeded(outcomes), Succeeded(before), n, n);
    }
  }

  /** A failed request changes nothing; a successful one counts once, with its bytes. */
  lemma OneJobMore(u: seq<int>, x: int, v: seq<int>)
    ensures x <= 0 ==> Successes(u + [x] + v) == Successes(u + v) && Bytes(u + [x] + v) == Bytes(u + v)
    ensures x > 0 ==> Successes(u + [x] + v) == Successes(u + v) + 1 && Bytes(u + [x] + v) == Bytes(u + v) + x
  {
    TallyAround(u, x, v);
  }

  lemma Remove(u: seq<int>, x: int, v: seq<int>)
    ensures multiset(u + [x] + v) == multiset(u + v) + multiset{x}
  {
  }

  lemma Cancel(a: multiset<int>, b: multiset<int>, x: int)
    requires a + multiset{x} == b + multiset{x}
    ensures a == b
  {
    assert a == (a + multiset{x}) - multiset{x};
    assert b == (b + multiset{x}) - multiset{x};
  }

  lemma Occurs(a: seq<int>, b: seq<int>) returns (i: nat)
    requires a != [] && multiset(a) == multiset(b)
    ensures i < |b| && b[i] == a[|a| - 1]
  {
    assert a[|a| - 1] in multiset(b);
    i :| 0 <= i < |b| && b[i] == a[|a| - 1];
  }

  lemma TallyAround(u: seq<int>, x: int, v: seq<int>)
    ensures Successes(u + [x] + v) == Successes(u + v) + Count(x)
    ensures Bytes(u + [x] + v) == Bytes(u + v) + Size(x)
  {
    TallyConcat(u, v);
    TallyConcat(u + [x], v);
    TallyAppend(u, x);
  }

  lemma SameRest(a: seq<int>, b: seq<int>, i: nat)
    requires a != [] && multiset(a) == multiset(b) && i < |b| && b[i] == a[|a| - 1]
    ensures multiset(a[..|a| - 1]) == multiset(b[..i] + b[i + 1..])
  {
    var n, x := |a| - 1, b[i];
    var u, v := b[..i], b[i + 1..];
    assert a == a[..n] + [x] + [] && b == u + [x] + v && a[..n] + [] == a[..n];
    Remove(a[..n], x, []);
    Remove(u, x, v);
    Cancel(multiset(a[..n]), multiset(u + v), x);
  }

  /** The tally does not depend on the order of the results. */
  lemma {:induction false} TallyOfPermutation(a: seq<int>, b: seq<int>)
    requires multiset(a) == multiset(b)
    ensures Successes(a) == Successes(b) && Bytes(a) == Bytes(b)
    decreases |a|
  {
    if a == [] {
      assert |multiset(b)| == |b|;
    } else {
      var i := Occurs(a, b);
      SameRest(a, b, i);
      TallyOfPermutation(a[..|a| - 1], b[..i] + b[i + 1..]);
      TallyAround(b[..i], b[i], b[i + 1..]);
      assert b == b[..i] + [b[i]] + b[i + 1..];
    }
  }

  // ---------------------------------------------------------------- slices

  function Start(c: Config, w: nat): nat
    requires c.Divides()
  {
    w * c.Share()
  }

  lemma Slices(c: Config, w: nat)
    requires c.Divides() && w < c.Workers()
    ensures Start(c, w) <= Start(c, w + 1) == Start(c, w) + c.Share() <= c.NumJobs()
    ensures Start(c, c.Workers()) == c.NumJobs()
  {
    var k, n := c.Share(), c.Workers();
    assert n * k == c.NumJobs() by {
      assert c.NumJobs() == c.concurrency * (c.NumJobs() / c.concurrency) + c.NumJobs() % c.concurrency;
    }
    assert (w + 1) * k == w * k + k;
    Monotone(w + 1, n, k);
  }

  lemma Monotone(a: nat, b: nat, k: nat)
    requires a <= b
    ensures a * k <= b * k
  {
  }

  predicate InSlice(c: Config, w: nat, job: nat)
    requires c.Divides()
  {
    Start(c, w) <= job < Start(c, w + 1)
  }

  /** Every job is in the slice of exactly one worker. */
  lemma SlicesPartition(c: Config, job: nat)
    requires c.Divides() && c.concurrency > 0 && job < c.NumJobs()
    ensures exists w :: 0 <= w < c.Workers() && InSlice(c, w, job)
    ensures forall v, w :: 0 <= v < c.Workers() && 0 <= w < c.Workers() && InSlice(c, v, job) && InSlice(c, w, job)
              ==> v == w
  {
    var w := Owner(c, job, c.Workers());
    forall v | 0 <= v < c.Workers() && InSlice(c, v, job) ensures v == w {
      if v < w {
        Monotone(v + 1, w, c.Share());
      } else if w < v {
        Monotone(w + 1, v, c.Share());
      }
    }
  }

  lemma {:induction false} Owner(c: Config, job: nat, n: nat) returns (w: nat)
    requires c.Divides() && n <= c.Workers() && job < Start(c, n)
    ensures w < n && InSlice(c, w, job)
  {
    w := n - 1;
    if job < Start(c, n - 1) {
      w := Owner(c, job, n - 1);
    }
  }

  // ---------------------------------------------------------------- the invariant

  predicate WorkerOk(c: Config, w: nat, k: Worker)
    requires c.Divides()
  {
    && k.lo == Start(c, w) && k.hi == Start(c, w + 1) <= c.NumJobs()
    && k.lo <= k.next <= k.hi
    && (k.pending.Some? ==> k.next < k.hi && k.pending.value == c.outcomes[k.next])
  }

  predicate WorkersOk(c: Config, workers: seq<Worker>)
    requires c.Divides()
  {
    && |workers| <= c.Workers()
    && forall w :: 0 <= w < |workers| ==> WorkerOk(c, w, workers[w])
  }

  /** How often a result occurs. */
  function Times(results: seq<int>, r: int): nat {
    multiset(results)[r]
  }

  function SentBy(c: Config, k: Worker, r: int): int {
    if k.lo <= k.next <= c.NumJobs() then Times(c.outcomes[k.lo..k.next], r) else 0
  }

  function Counting(c: Config, r: int): Worker -> int {
    k => SentBy(c, k, r)
  }

  /** How often the workers have sent a result. */
  function Sent(c: Config, workers: seq<Worker>, r: int): int {
    Total(Counting(c, r), workers, |workers|)
  }

  function Arrived(received: seq<int>, channel: seq<int>, r: int): nat {
    Times(received, r) + Times(channel, r)
  }

  /** What was sent is in the channel or was received, as often as it was sent. */
  ghost predicate Conserved(c: Config, s: State) {
    forall r :: Arrived(s.received, s.channel, r) == Sent(c, s.workers, r)
  }

  function DoneBy(k: Worker): int {
    k.next - k.lo
  }

  function Total(f: Worker -> int, workers: seq<Worker>, n: nat): int
    requires n <= |workers|
  {
    if n == 0 then 0 else Total(f, workers, n - 1) + f(workers[n - 1])
  }

  lemma {:induction false} TotalSame(f: Worker -> int, a: seq<Worker>, b: seq<Worker>, n: nat)
    requires n <= |a| && n <= |b| && forall w :: 0 <= w < n ==> a[w] == b[w]
    ensures Total(f, a, n) == Total(f, b, n)
  {
    if n > 0 {
      TotalSame(f, a, b, n - 1);
    }
  }

  lemma {:induction false} TotalChange(f: Worker -> int, a: seq<Worker>, w: nat, k: Worker, n: nat)
    requires w < n <= |a|
    ensures Total(f, a[w := k], n) == Total(f, a, n) - f(a[w]) + f(k)
  {
    if n == w + 1 {
      TotalSame(f, a, a[w := k], w);
    } else {
      TotalChange(f, a, w, k, n - 1);
    }
  }

  ghost predicate Inv(c: Config, s: State)
    requires c.Divides()
  {
    && WorkersOk(c, s.workers)
    && Conserved(c, s)
    && |s.received| + |s.channel| == Total(DoneBy, s.workers, |s.workers|)
    && s.successful == Successes(s.received) && s.nbytes == Bytes(s.received)
    && |s.received| <= c.NumJobs()
    && (s.received != [] ==> |s.workers| == c.Workers())
  }

  lemma WorkersUpdate(c: Config, a: seq<Worker>, w: nat, k: Worker)
    requires c.Divides() && WorkersOk(c, a) && w < |a| && WorkerOk(c, w, k)
    ensures WorkersOk(c, a[w := k])
  {
  }

  lemma WorkersAppend(c: Config, a: seq<Worker>, k: Worker)
    requires c.Divides() && WorkersOk(c, a) && |a| < c.Workers() && WorkerOk(c, |a|, k)
    ensures WorkersOk(c, a + [k])
  {
  }

  lemma TimesAppend(results: seq<int>, x: int, r: int)
    ensures Times(results + [x], r) == Times(results, r) + Times([x], r)
  {
  }

  lemma TimesFirst(results: seq<int>, r: int)
    requires results != []
    ensures Times(results, r) == Times([results[0]], r) + Times(results[1..], r)
  {
    assert results == [results[0]] + results[1..];
  }

  lemma SentOneMore(c: Config, k: Worker, r: int)
    requires k.lo <= k.next < c.NumJobs()
    ensures SentBy(c, Advance(k), r) == SentBy(c, k, r) + Times([c.outcomes[k.next]], r)
  {
    assert c.outcomes[k.lo..k.next + 1] == c.outcomes[k.lo..k.next] + [c.outcomes[k.next]];
    TimesAppend(c.outcomes[k.lo..k.next], c.outcomes[k.next], r);
  }

  lemma NothingSent(c: Config, k: Worker, r: int)
    requires k.lo == k.next
    ensures SentBy(c, k, r) == 0
  {
    if k.lo <= c.NumJobs() {
      assert c.outcomes[k.lo..k.next] == [];
    }
  }

  lemma SpawnKeepsInv(c: Config, s: State)
    requires c.Divides() && Inv(c, s) && Enabled(c, s, Spawn)
    ensures Inv(c, Step(c, s, Spawn))
  {
    var w := |s.workers|;
    var k := Worker(Start(c, w), Start(c, w + 1), Start(c, w), None);
    Slices(c, w);
    WorkersAppend(c, s.workers, k);
    TotalSame(DoneBy, s.workers, s.workers + [k], w);
    forall r ensures Sent(c, s.workers + [k], r) == Sent(c, s.workers, r) {
      TotalSame(Counting(c, r), s.workers, s.workers + [k], w);
      NothingSent(c, k, r);
    }
  }

  lemma InvokeKeepsInv(c: Config, s: State, w: nat)
    requires c.Divides() && Inv(c, s) && Enabled(c, s, Invoke(w))
    ensures Inv(c, Step(c, s, Invoke(w)))
  {
    var s' := Step(c, s, Invoke(w));
    WorkersUpdate(c, s.workers, w, s'.workers[w]);
    TotalChange(DoneBy, s.workers, w, s'.workers[w], |s.workers|);
    forall r ensures Sent(c, s'.workers, r) == Sent(c, s.workers, r) {
      TotalChange(Counting(c, r), s.workers, w, s'.workers[w], |s.workers|);
    }
  }

  lemma SendConserves(c: Config, a: seq<Worker>, channel: seq<int>, w: nat, r: int)
    requires w < |a| && a[w].lo <= a[w].next < c.NumJobs() && a[w].pending == Some(c.outcomes[a[w].next])
    ensures Sent(c, a[w := Advance(a[w])], r) - Sent(c, a, r)
         == Times(channel + [a[w].pending.value], r) - Times(channel, r)
  {
    TotalChange(Counting(c, r), a, w, Advance(a[w]), |a|);
    SentOneMore(c, a[w], r);
    TimesAppend(channel, a[w].pending.value, r);
  }

  lemma SendKeepsInv(c: Config, s: State, w: nat)
    requires c.Divides() && Inv(c, s) && Enabled(c, s, Send(w))
    ensures Inv(c, Step(c, s, Send(w)))
  {
    var s', k := Step(c, s, Send(w)), s.workers[w];
    assert WorkerOk(c, w, k) && WorkerOk(c, w, Advance(k));
    WorkersUpdate(c, s.workers, w, Advance(k));
    TotalChange(DoneBy, s.workers, w, Advance(k), |s.workers|);
    forall r ensures Arrived(s'.received, s'.channel, r) == Sent(c, s'.workers, r) {
      assert Arrived(s.received, s.channel, r) == Sent(c, s.workers, r);
      SendConserves(c, s.workers, s.channel, w, r);
    }
  }

  lemma ReceiveKeepsInv(c: Config, s: State)
    requires c.Divides() && Inv(c, s) && Enabled(c, s, Receive)
    ensures Inv(c, Step(c, s, Receive))
  {
    var s' := Step(c, s, Receive);
    TallyAppend(s.received, s.channel[0]);
    forall r ensures Arrived(s'.received, s'.channel, r) == Arrived(s.received, s.channel, r) {
      TimesFirst(s.channel, r);
      TimesAppend(s.received, s.channel[0], r);
    }
  }

  lemma StepKeepsInv(c: Config, s: State, e: Event)
    requires c.Divides() && Inv(c, s) && Enabled(c, s, e)
    ensures Inv(c, Step(c, s, e))
  {
    match e
    case Spawn => SpawnKeepsInv(c, s);
    case Invoke(w) => InvokeKeepsInv(c, s, w);
    case Send(w) => SendKeepsInv(c, s, w);
    case Receive => ReceiveKeepsInv(c, s);
  }

  lemma {:induction false} RunKeepsInv(c: Config, s: State, run: seq<Event>)
    requires c.Divides() && Inv(c, s) && Legal(c, s, run)
    ensures Inv(c, Run(c, s, run))
    decreases run
  {
    if run != [] {
      StepKeepsInv(c, s, run[0]);
      RunKeepsInv(c, Step(c, s, run[0]), run[1..]);
    }
  }

  // ---------------------------------------------------------------- progress

  /** The workers together have at most done their slices. */
  lemma {:induction false} DoneAtMost(c: Config, a: seq<Worker>, n: nat)
    requires c.Divides() && WorkersOk(c, a) && n <= |a|
    ensures Total(DoneBy, a, n) <= Start(c, n)
    ensures (forall w :: 0 <= w < n ==> a[w].next == a[w].hi) ==> Total(DoneBy, a, n) == Start(c, n)
  {
    if n > 0 {
      DoneAtMost(c, a, n - 1);
      Slices(c, n - 1);
      assert WorkerOk(c, n - 1, a[n - 1]);
    }
  }

  lemma StartAtMost(c: Config, n: nat)
    requires c.Divides() && n <= c.Workers()
    ensures Start(c, n) <= c.NumJobs()
  {
    if n > 0 {
      Slices(c, n - 1);
    }
  }

  /** While a worker has a job left, not all results were sent. */
  lemma RoomForOne(c: Config, a: seq<Worker>, w: nat)
    requires c.Divides() && WorkersOk(c, a) && w < |a| && a[w].next < a[w].hi
    ensures Total(DoneBy, a, |a|) < c.NumJobs()
  {
    var k := a[w].(next := a[w].next + 1, pending := None);
    assert WorkerOk(c, w, a[w]) && WorkerOk(c, w, k);
    WorkersUpdate(c, a, w, k);
    TotalChange(DoneBy, a, w, k, |a|);
    DoneAtMost(c, a[w := k], |a|);
    StartAtMost(c, |a|);
  }

  /** The channel has room for every result a worker holds. */
  lemma SendNeverBlocks(c: Config, s: State, w: nat)
    requires c.Divides() && Inv(c, s) && w < |s.workers| && s.workers[w].pending.Some?
    ensures Enabled(c, s, Send(w))
  {
    assert WorkerOk(c, w, s.workers[w]);
    RoomForOne(c, s.workers, w);
  }

  predicate Completes(c: Config) {
    c.concurrency > 0 || c.NumJobs() == 0
  }

  /** All workers are started and have sent all their results. */
  predicate AllSent(c: Config, s: State) {
    |s.workers| == c.Workers() && forall w :: 0 <= w < |s.workers| ==> s.workers[w].next == s.workers[w].hi
  }

  lemma AllSentArrived(c: Config, s: State)
    requires c.Divides() && Completes(c) && Inv(c, s) && AllSent(c, s)
    ensures |s.received| + |s.channel| == c.NumJobs()
  {
    DoneAtMost(c, s.workers, |s.workers|);
    if c.concurrency > 0 {
      Slices(c, 0);
    }
  }

  /** Unless the run is finished, somebody can go on. */
  lemma NoDeadlock(c: Config, s: State) returns (e: Event)
    requires c.Divides() && Completes(c) && Inv(c, s) && !Finished(c, s)
    ensures Enabled(c, s, e)
  {
    if |s.workers| < c.Workers() {
      e := Spawn;
    } else if w :| 0 <= w < |s.workers| && s.workers[w].next != s.workers[w].hi {
      assert WorkerOk(c, w, s.workers[w]);
      if s.workers[w].pending.Some? {
        SendNeverBlocks(c, s, w);
        e := Send(w);
      } else {
        e := Invoke(w);
      }
    } else {
      AllSentArrived(c, s);
      e := Receive;
    }
  }

  function EffortOf(k: Worker): int {
    2 * (k.next - k.lo) + (if k.pending.Some? then 1 else 0)
  }

  /** The number of steps that are left. */
  ghost function Left(c: Config, s: State): int {
    c.Workers() - |s.workers| + 2 * c.NumJobs() - Total(EffortOf, s.workers, |s.workers|)
    + c.NumJobs() - |s.received|
  }

  lemma StepCounts(c: Config, s: State, e: Event)
    requires c.Divides() && Inv(c, s) && Enabled(c, s, e)
    ensures Left(c, Step(c, s, e)) == Left(c, s) - 1
  {
    var a, s' := s.workers, Step(c, s, e);
    match e
    case Spawn => TotalSame(EffortOf, a, s'.workers, |a|);
    case Invoke(w) => TotalChange(EffortOf, a, w, s'.workers[w], |a|);
    case Send(w) => TotalChange(EffortOf, a, w, s'.workers[w], |a|);
    case Receive =>
  }

  lemma {:induction false} EffortAtMost(c: Config, a: seq<Worker>, n: nat)
    requires c.Divides() && WorkersOk(c, a) && n <= |a|
    ensures Total(EffortOf, a, n) <= 2 * Start(c, n)
  {
    if n > 0 {
      EffortAtMost(c, a, n - 1);
      Slices(c, n - 1);
      assert WorkerOk(c, n - 1, a[n - 1]);
    }
  }

  lemma LeftIsNatural(c: Config, s: State)
    requires c.Divides() && Inv(c, s)
    ensures Left(c, s) >= 0
  {
    EffortAtMost(c, s.workers, |s.workers|);
    StartAtMost(c, |s.workers|);
  }

  lemma {:induction false} RunCounts(c: Config, s: State, run: seq<Event>)
    requires c.Divides() && Inv(c, s) && Legal(c, s, run)
    ensures Left(c, Run(c, s, run)) == Left(c, s) - |run|
    decreases run
  {
    if run != [] {
      StepCounts(c, s, run[0]);
      StepKeepsInv(c, s, run[0]);
      RunCounts(c, Step(c, s, run[0]), run[1..]);
    }
  }

  /** Every interleaving takes at most one step per worker and three per job. */
  lemma RunsAreBounded(c: Config, run: seq<Event>)
    requires c.Divides() && Legal(c, INIT, run)
    ensures |run| <= c.Workers() + 3 * c.NumJobs()
  {
    RunKeepsInv(c, INIT, run);
    RunCounts(c, INIT, run);
    LeftIsNatural(c, Run(c, INIT, run));
  }

  // ---------------------------------------------------------------- the result

  function End(a: seq<Worker>, n: nat): nat
    requires n <= |a|
  {
    if n == 0 then 0 else a[n - 1].hi
  }

  /** Adjoining slices that are sent completely make up the jobs from the first one on. */
  lemma {:induction false} SentAll(c: Config, a: seq<Worker>, n: nat, r: int)
    requires n <= |a| && forall w :: 0 <= w < n ==> End(a, w) == a[w].lo <= a[w].next == a[w].hi <= c.NumJobs()
    ensures End(a, n) <= c.NumJobs() && Total(Counting(c, r), a, n) == Times(c.outcomes[..End(a, n)], r)
  {
    if n == 0 {
      assert c.outcomes[..0] == [];
    } else {
      SentAll(c, a, n - 1, r);
      TimesSplit(c.outcomes, a[n - 1].lo, a[n - 1].hi, r);
    }
  }

  lemma EndIsStart(c: Config, a: seq<Worker>, n: nat)
    requires c.Divides() && WorkersOk(c, a) && n <= |a|
    ensures End(a, n) == Start(c, n)
  {
    if n > 0 {
      assert WorkerOk(c, n - 1, a[n - 1]);
    }
  }

  lemma TimesSplit(s: seq<int>, i: nat, j: nat, r: int)
    requires i <= j <= |s|
    ensures Times(s[..j], r) == Times(s[..i], r) + Times(s[i..j], r)
  {
    assert s[..j] == s[..i] + s[i..j];
  }

  /** When all results are received, every worker has sent all of its slice. */
  lemma FinishedIsAllSent(c: Config, s: State)
    requires c.Divides() && Inv(c, s) && Finished(c, s)
    ensures AllSent(c, s) && s.channel == []
  {
    DoneAtMost(c, s.workers, |s.workers|);
    StartAtMost(c, |s.workers|);
    forall w | 0 <= w < |s.workers| ensures s.workers[w].next == s.workers[w].hi {
      assert WorkerOk(c, w, s.workers[w]);
      if s.workers[w].next < s.workers[w].hi {
        RoomForOne(c, s.workers, w);
      }
    }
  }

  /** Workers whose slices adjoin, are sent completely and end with the last job. */
  predicate CoverJobs(c: Config, a: seq<Worker>) {
    && End(a, |a|) == c.NumJobs()
    && forall w :: 0 <= w < |a| ==> End(a, w) == a[w].lo <= a[w].next == a[w].hi <= c.NumJobs()
  }

  lemma FinishedCovers(c: Config, s: State)
    requires c.Divides() && Inv(c, s) && Finished(c, s)
    ensures CoverJobs(c, s.workers)
  {
    FinishedIsAllSent(c, s);
    DoneAtMost(c, s.workers, |s.workers|);
    StartAtMost(c, |s.workers|);
    EndIsStart(c, s.workers, |s.workers|);
    forall w | 0 <= w < |s.workers| ensures End(s.workers, w) == s.workers[w].lo {
      assert WorkerOk(c, w, s.workers[w]);
      EndIsStart(c, s.workers, w);
    }
  }

  lemma CoveringSendsAll(c: Config, a: seq<Worker>, r: int)
    requires CoverJobs(c, a)
    ensures Sent(c, a, r) == Times(c.outcomes, r)
  {
    SentAll(c, a, |a|, r);
    assert c.outcomes[..c.NumJobs()] == c.outcomes;
  }

  /** What is received in the end is a permutation of what the jobs gave. */
  lemma FinishedHasAll(c: Config, s: State)
    requires c.Divides() && Inv(c, s) && Finished(c, s)
    ensures multiset(s.received) == multiset(c.outcomes)
  {
    FinishedIsAllSent(c, s);
    FinishedCovers(c, s);
    forall r ensures Times(s.received, r) == Times(c.outcomes, r) {
      assert Arrived(s.received, s.channel, r) == Sent(c, s.workers, r);
      CoveringSendsAll(c, s.workers, r);
    }
    SameTimes(s.received, c.outcomes);
  }

  lemma SameTimes(a: seq<int>, b: seq<int>)
    requires forall r :: Times(a, r) == Times(b, r)
    ensures multiset(a) == multiset(b)
  {
    forall r ensures multiset(a)[r] == multiset(b)[r] {
      assert Times(a, r) == Times(b, r);
    }
  }

  /**
   * A run in which nobody can go on has received every result exactly once and
   * returns what running the jobs one after the other would have counted.
   */
  lemma RunsReturnTheSequentialTally(c: Config, run: seq<Event>)
    requires c.Divides() && Completes(c) && Legal(c, INIT, run)
    requires forall e :: !Enabled(c, Run(c, INIT, run), e)
    ensures var s := Run(c, INIT, run);
            && Finished(c, s)
            && |s.received| == c.NumJobs() && multiset(s.received) == multiset(c.outcomes)
            && s.successful == |Succeeded(c.outcomes)|
            && s.nbytes == SumOver(c.outcomes, Succeeded(c.outcomes), c.NumJobs())
  {
    var s := Run(c, INIT, run);
    RunKeepsInv(c, INIT, run);
    TallyMeans(c.outcomes);
    if !Finished(c, s) {
      var e := NoDeadlock(c, s);
    } else {
      FinishedHasAll(c, s);
      TallyOfPermutation(s.received, c.outcomes);
    }
  }

  lemma {:induction false} Finish(c: Config, s: State) returns (run: seq<Event>)
    requires c.Divides() && Completes(c) && Inv(c, s)
    ensures Legal(c, s, run) && Finished(c, Run(c, s, run))
    decreases Left(c, s)
  {
    run := [];
    LeftIsNatural(c, s);
    if !Finished(c, s) {
      var e := NoDeadlock(c, s);
      StepKeepsInv(c, s, e);
      StepCounts(c, s, e);
      LeftIsNatural(c, Step(c, s, e));
      var rest := Finish(c, Step(c, s, e));
      run := [e] + rest;
      assert run[1..] == rest;
    }
  }

  ghost predicate CanFinish(c: Config)
    requires c.Divides()
  {
    exists run :: Legal(c, INIT, run) && Finished(c, Run(c, INIT, run))
  }

  /** When the job count is a multiple of the concurrency, the runner gets done iff that is positive or there are no jobs. */
  lemma FinishesIff(c: Config)
    requires c.Divides()
    ensures CanFinish(c) <==> Completes(c)
  {
    if Completes(c) {
      var run := Finish(c, INIT);
    } else {
      forall run | Legal(c, INIT, run) ensures !Finished(c, Run(c, INIT, run)) {
        assert run != [] ==> Enabled(c, INIT, run[0]);
      }
    }
  }

  datatype Outcome =
    | DivisionByZero
    | NotAMultiple
    | Deadlock
    | Returned(successful: nat, nbytes: int)

  /** What calling the runner comes to, whatever the interleaving. */
  method RunJobs(c: Config) returns (r: Outcome)
    ensures r == if c.concurrency == 0 then DivisionByZero
                 else if !c.Divides() then NotAMultiple
                 else if !Completes(c) then Deadlock
                 else Returned(|Succeeded(c.outcomes)|, SumOver(c.outcomes, Succeeded(c.outcomes), c.NumJobs()))
  {
    if c.concurrency == 0 {
      return DivisionByZero;
    }
    if c.NumJobs() % c.concurrency != 0 {
      return NotAMultiple;
    }
    if c.concurrency < 0 && c.NumJobs() > 0 {
      return Deadlock;
    }
    var s := INIT;
    LeftIsNatural(c, s);
    while !Finished(c, s)
      invariant Inv(c, s) && Left(c, s) >= 0
      decreases Left(c, s)
    {
      ghost var next := NoDeadlock(c, s);
      var e := AnyStep(c, s, next);
      StepKeepsInv(c, s, e);
      StepCounts(c, s, e);
      s := Step(c, s, e);
      LeftIsNatural(c, s);
    }
    FinishedHasAll(c, s);
    TallyOfPermutation(s.received, c.outcomes);
    TallyMeans(c.outcomes);
    return Returned(s.successful, s.nbytes);
  }

  /** Whoever can go on may be the next one to do so. */
  method AnyStep(c: Config, s: State, ghost one: Event) returns (e: Event)
    requires Enabled(c, s, one)
    ensures Enabled(c, s, e)
  {
    assert one.Invoke? || one.Send? ==> 0 <= one.w < |s.workers|;
    if
    case Enabled(c, s, Spawn) =>
      e := Spawn;
    case Enabled(c, s, Receive) =>
      e := Receive;
    case w :| 0 <= w < |s.workers| && Enabled(c, s, Invoke(w)) =>
      e := Invoke(w);
    case w :| 0 <= w < |s.workers| && Enabled(c, s, Send(w)) =>
      e := Send(w);
  }
}
