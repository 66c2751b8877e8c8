/**
 The reorder window of the O3 pipeline viewer (gem5/util/o3-pipeview.py): retired instructions
 are queued as they come, and whenever the queue overflows it is sorted and printed down to a
 lower threshold.
 */
module PipeView {

  /** An instruction: its sequence number, the tick of every pipeline stage (zero if it was not
      reached), and the text printed beside the timeline. */
  datatype Inst = Inst(sn: int, fetch: int, decode: int, rename: int, dispatch: int, issue: int,
                       complete: int, retire: int, store: int, text: string)

  datatype Settings = Settings(maxThreshold: nat, minThreshold: nat, snStart: int, snStop: int,
                               tickStart: int, tickStop: int, onlyCommitted: bool)

  /** The instruction lies in the requested range. */
  predicate Wanted(c: Settings, x: Inst) {
    && !(c.snStart > 0 && x.sn < c.snStart)
    && !(c.snStop > 0 && x.sn > c.snStop)
    && !(c.tickStart > 0 && x.fetch < c.tickStart)
    && !(c.tickStop > 0 && x.fetch > c.tickStop)
    && !(c.onlyCommitted && x.retire == 0)
  }

  function Select(c: Settings, s: seq<Inst>): seq<Inst> {
    if s == [] then []
    else Select(c, s[..|s| - 1]) + (if Wanted(c, s[|s| - 1]) then [s[|s| - 1]] else [])
  }

  lemma {:induction false} SelectAppend(c: Settings, a: seq<Inst>, b: seq<Inst>)
    ensures Select(c, a + b) == Select(c, a) + Select(c, b)
  {
    if b == [] {
      assert a + b == a;
    } else {
      var n := |b| - 1;
      SelectAppend(c, a, b[..n]);
      assert (a + b)[..|a + b| - 1] == a + b[..n];
    }
  }

  lemma SelectOne(c: Settings, x: Inst)
    ensures Select(c, [x]) == if Wanted(c, x) then [x] else []
  {
    assert [x][..0] == [];
  }

  lemma {:induction false} SelectPermuted(c: Settings, a: seq<Inst>, b: seq<Inst>)
    requires multiset(a) == multiset(b)
    ensures multiset(Select(c, a)) == multiset(Select(c, b))
  {
    forall x ensures multiset(Select(c, a))[x] == multiset(Select(c, b))[x] {
      SelectCounts(c, a, x);
      SelectCounts(c, b, x);
    }
  }

  lemma {:induction false} SelectCounts(c: Settings, s: seq<Inst>, x: Inst)
    ensures multiset(Select(c, s))[x] == if Wanted(c, x) then multiset(s)[x] else 0
  {
    if s != [] {
      var n := |s| - 1;
      SelectCounts(c, s[..n], x);
      assert s == s[..n] + [s[n]];
    }
  }

  // ---------------------------------------------------------------- stable sorting

  ghost predicate Sorted(s: seq<Inst>) {
    forall i, j | 0 <= i < j < |s| :: s[i].sn <= s[j].sn
  }

  /** The end of the first `n` instructions, behind the last that is not above `sn`. */
  function Place(s: seq<Inst>, n: nat, sn: int): (p: nat)
    requires n <= |s|
    ensures p <= n
  {
    if n == 0 || s[n - 1].sn <= sn then n else Place(s, n - 1, sn)
  }

  function InsertAt<T>(s: seq<T>, p: nat, x: T): (t: seq<T>)
    requires p <= |s|
    ensures |t| == |s| + 1
  {
    s[..p] + [x] + s[p..]
  }

  /** Placing `x` behind everything that is not larger. */
  function Put(s: seq<Inst>, x: Inst): (t: seq<Inst>)
    ensures |t| == |s| + 1
  {
    InsertAt(s, Place(s, |s|, x.sn), x)
  }

  /** The stable sort by sequence number of the first `n` instructions. */
  function SortFirst(s: seq<Inst>, n: nat): (r: seq<Inst>)
    requires n <= |s|
    ensures |r| == n
  {
    if n == 0 then [] else Put(SortFirst(s, n - 1), s[n - 1])
  }

  function SortBySn(s: seq<Inst>): seq<Inst> {
    SortFirst(s, |s|)
  }

  lemma PutContents(s: seq<Inst>, x: Inst)
    ensures multiset(Put(s, x)) == multiset(s) + multiset{x}
  {
    var p := Place(s, |s|, x.sn);
    assert s == s[..p] + s[p..];
  }

  ghost predicate AtMost(s: seq<Inst>, sn: int) {
    forall i | 0 <= i < |s| :: s[i].sn <= sn
  }

  lemma {:induction false} PlaceSplits(s: seq<Inst>, n: nat, sn: int)
    requires Sorted(s) && n <= |s|
    ensures forall i | 0 <= i < Place(s, n, sn) :: s[i].sn <= sn
    ensures forall i | Place(s, n, sn) <= i < n :: s[i].sn > sn
  {
    if n > 0 && s[n - 1].sn > sn {
      PlaceSplits(s, n - 1, sn);
    }
  }

  lemma PutSorted(s: seq<Inst>, x: Inst)
    requires Sorted(s)
    ensures Sorted(Put(s, x))
  {
    PlaceSplits(s, |s|, x.sn);
  }

  lemma AppendSorted(s: seq<Inst>, x: Inst)
    requires Sorted(s) && AtMost(s, x.sn)
    ensures Sorted(s + [x])
  {
  }

  lemma TakeMore<T>(s: seq<T>, n: nat)
    requires 0 < n <= |s|
    ensures s[..n] == s[..n - 1] + [s[n - 1]]
  {
  }

  lemma {:induction false} SortFirstContents(s: seq<Inst>, n: nat)
    requires n <= |s|
    ensures multiset(SortFirst(s, n)) == multiset(s[..n])
  {
    if n > 0 {
      SortFirstContents(s, n - 1);
      PutContents(SortFirst(s, n - 1), s[n - 1]);
      TakeMore(s, n);
    }
  }

  lemma SortContents(s: seq<Inst>)
    ensures multiset(SortBySn(s)) == multiset(s)
  {
    SortFirstContents(s, |s|);
    assert s[..|s|] == s;
  }

  lemma {:induction false} SortFirstSorts(s: seq<Inst>, n: nat)
    requires n <= |s|
    ensures Sorted(SortFirst(s, n))
  {
    if n > 0 {
      SortFirstSorts(s, n - 1);
      PutSorted(SortFirst(s, n - 1), s[n - 1]);
    }
  }

  /** Sorting is stable: a sorted sequence is left alone. */
  lemma {:induction false} SortFixpoint(s: seq<Inst>, n: nat)
    requires Sorted(s) && n <= |s|
    ensures SortFirst(s, n) == s[..n]
  {
    if n > 0 {
      SortFixpoint(s, n - 1);
      TakeMore(s, n);
    }
  }

  /** Only the first instructions matter to the sort of the first instructions. */
  lemma {:induction false} SortFirstPrefix(s: seq<Inst>, t: seq<Inst>, n: nat)
    requires n <= |s| && n <= |t| && s[..n] == t[..n]
    ensures SortFirst(s, n) == SortFirst(t, n)
  {
    if n > 0 {
      assert s[..n][n - 1] == t[..n][n - 1];
      assert s[..n - 1] == s[..n][..n - 1] && t[..n - 1] == t[..n][..n - 1];
      SortFirstPrefix(s, t, n - 1);
    }
  }

  /** A prefix that ends not above `sn` is never entered. */
  lemma {:induction false} PlaceBehind(a: seq<Inst>, b: seq<Inst>, n: nat, sn: int)
    requires n <= |b| && (a == [] || a[|a| - 1].sn <= sn)
    ensures Place(a + b, |a| + n, sn) == |a| + Place(b, n, sn)
  {
    if n > 0 && b[n - 1].sn > sn {
      PlaceBehind(a, b, n - 1, sn);
    }
  }

  lemma PutBehind(a: seq<Inst>, b: seq<Inst>, x: Inst)
    requires a == [] || a[|a| - 1].sn <= x.sn
    ensures Put(a + b, x) == a + Put(b, x)
  {
    PlaceBehind(a, b, |b|, x.sn);
    InsertBehind(a, b, Place(b, |b|, x.sn), x);
  }

  lemma InsertBehind<T>(a: seq<T>, b: seq<T>, p: nat, x: T)
    requires p <= |b|
    ensures InsertAt(a + b, |a| + p, x) == a + InsertAt(b, p, x)
  {
  }

  lemma SortAppend(s: seq<Inst>, x: Inst)
    ensures SortBySn(s + [x]) == Put(SortBySn(s), x)
  {
    SortFirstPrefix(s, s + [x], |s|);
  }

  // ---------------------------------------------------------------- the window

  /** The queue, and everything popped from it so far, before filtering. */
  datatype Window = Window(queue: seq<Inst>, popped: seq<Inst>)

  /** How many instructions leave a queue of length `n` when it is printed down to `lower`. */
  function Excess(n: nat, lower: nat): nat {
    if n > lower then n - lower else 0
  }

  function Flush(w: Window, lower: nat): Window {
    var sorted, n := SortBySn(w.queue), Excess(|w.queue|, lower);
    Window(sorted[n..], w.popped + sorted[..n])
  }

  function Queue(c: Settings, w: Window, x: Inst): Window {
    var grown := w.(queue := w.queue + [x]);
    if |grown.queue| > c.maxThreshold then Flush(grown, c.minThreshold) else grown
  }

  /** The window after the first `n` arrivals. */
  function QueueFirst(c: Settings, arrivals: seq<Inst>, n: nat): Window
    requires n <= |arrivals|
  {
    if n == 0 then Window([], []) else Queue(c, QueueFirst(c, arrivals, n - 1), arrivals[n - 1])
  }

  function QueueAll(c: Settings, arrivals: seq<Inst>): Window {
    QueueFirst(c, arrivals, |arrivals|)
  }

  /** Everything the viewer prints for a sequence of retired instructions. */
  function Printed(c: Settings, arrivals: seq<Inst>): seq<Inst> {
    Select(c, Flush(QueueAll(c, arrivals), 0).popped)
  }

  lemma FlushContents(w: Window, lower: nat)
    ensures var f := Flush(w, lower); multiset(f.popped) + multiset(f.queue) == multiset(w.popped) + multiset(w.queue)
    ensures |Flush(w, lower).queue| == if |w.queue| > lower then lower else |w.queue|
  {
    SortContents(w.queue);
    var n := Excess(|w.queue|, lower);
    assert SortBySn(w.queue) == SortBySn(w.queue)[..n] + SortBySn(w.queue)[n..];
  }

  lemma QueueOne(c: Settings, w: Window, x: Inst)
    ensures var v := Queue(c, w, x);
            multiset(v.popped) + multiset(v.queue) == multiset(w.popped) + multiset(w.queue) + multiset{x}
    ensures c.minThreshold <= c.maxThreshold ==> |Queue(c, w, x).queue| <= c.maxThreshold
  {
    FlushContents(w.(queue := w.queue + [x]), c.minThreshold);
  }

  /** Nothing is lost or duplicated, and the queue never holds more than the upper threshold. */
  lemma {:induction false} QueueContents(c: Settings, arrivals: seq<Inst>, n: nat)
    requires n <= |arrivals|
    ensures var w := QueueFirst(c, arrivals, n); multiset(w.popped) + multiset(w.queue) == multiset(arrivals[..n])
    ensures c.minThreshold <= c.maxThreshold ==> |QueueFirst(c, arrivals, n).queue| <= c.maxThreshold
  {
    if n > 0 {
      QueueContents(c, arrivals, n - 1);
      TakeMore(arrivals, n);
      QueueOne(c, QueueFirst(c, arrivals, n - 1), arrivals[n - 1]);
    }
  }

  /** The instruction is in the requested ranges, a bound that is not positive being none, and committed if
      only those are wanted. */
  predicate InRange(c: Settings, x: Inst) {
    && (c.snStart <= 0 || c.snStart <= x.sn) && (c.snStop <= 0 || x.sn <= c.snStop)
    && (c.tickStart <= 0 || c.tickStart <= x.fetch) && (c.tickStop <= 0 || x.fetch <= c.tickStop)
    && (c.onlyCommitted ==> x.retire != 0)
  }

  /** The viewer prints exactly the wanted instructions, each as often as it was retired. */
  lemma PrintsWhatIsWanted(c: Settings, arrivals: seq<Inst>)
    ensures multiset(Printed(c, arrivals)) == multiset(Select(c, arrivals))
    ensures forall x :: multiset(Printed(c, arrivals))[x] == if InRange(c, x) then multiset(arrivals)[x] else 0
  {
    forall x ensures multiset(Select(c, arrivals))[x] == if InRange(c, x) then multiset(arrivals)[x] else 0 {
      SelectCounts(c, arrivals, x);
    }
    var w := QueueAll(c, arrivals);
    QueueContents(c, arrivals, |arrivals|);
    assert arrivals[..|arrivals|] == arrivals;
    FlushContents(w, 0);
    SelectPermuted(c, Flush(w, 0).popped, arrivals);
  }

  // ---------------------------------------------------------------- bounded disorder

  /** How many of the first `n` instructions have a number above `sn`. */
  function CountAbove(s: seq<Inst>, n: nat, sn: int): nat
    requires n <= |s|
  {
    if n == 0 then 0 else CountAbove(s, n - 1, sn) + (if s[n - 1].sn > sn then 1 else 0)
  }

  /** No instruction is overtaken by more than `bound` later-numbered ones. */
  ghost predicate BoundedDisorder(arrivals: seq<Inst>, bound: nat) {
    forall j | 0 <= j < |arrivals| :: CountAbove(arrivals, j, arrivals[j].sn) <= bound
  }

  lemma {:induction false} CountAboveInsert(s: seq<Inst>, p: nat, x: Inst, n: nat, sn: int)
    requires p <= n <= |s|
    ensures CountAbove(InsertAt(s, p, x), n + 1, sn) == CountAbove(s, n, sn) + (if x.sn > sn then 1 else 0)
  {
    if n == p {
      CountAbovePrefix(s, InsertAt(s, p, x), p, sn);
    } else {
      CountAboveInsert(s, p, x, n - 1, sn);
    }
  }

  lemma {:induction false} CountAbovePrefix(s: seq<Inst>, t: seq<Inst>, n: nat, sn: int)
    requires n <= |s| && n <= |t| && forall i | 0 <= i < n :: s[i] == t[i]
    ensures CountAbove(s, n, sn) == CountAbove(t, n, sn)
  {
    if n > 0 {
      CountAbovePrefix(s, t, n - 1, sn);
    }
  }

  lemma {:induction false} CountAboveSorted(s: seq<Inst>, n: nat, sn: int)
    requires n <= |s|
    ensures |SortFirst(s, n)| == n
    ensures CountAbove(SortFirst(s, n), n, sn) == CountAbove(s, n, sn)
  {
    if n > 0 {
      CountAboveSorted(s, n - 1, sn);
      var before := SortFirst(s, n - 1);
      CountAboveInsert(before, Place(before, n - 1, s[n - 1].sn), s[n - 1], n - 1, sn);
    }
  }

  /** In a sorted sequence everything from the first larger instruction on is larger. */
  lemma {:induction false} CountAboveSuffix(s: seq<Inst>, from: nat, n: nat, sn: int)
    requires Sorted(s) && from < n <= |s| && s[from].sn > sn
    ensures CountAbove(s, n, sn) >= n - from
  {
    if n > from + 1 {
      CountAboveSuffix(s, from, n - 1, sn);
    }
  }

  /** The window has popped a prefix of the sorted arrivals, and holds the rest; once something
      was popped, at least `minThreshold` instructions are held back. */
  ghost predicate InStep(c: Settings, sorted: seq<Inst>, w: Window) {
    && w.popped + SortBySn(w.queue) == sorted
    && (w.popped != [] ==> |w.queue| >= c.minThreshold)
  }

  /** A newcomer that belongs before something already popped was overtaken by that and by
      everything held back. */
  lemma LateMeansOvertaken(c: Settings, sorted: seq<Inst>, x: Inst, w: Window)
    requires InStep(c, sorted, w) && Sorted(sorted)
    requires w.popped != [] && w.popped[|w.popped| - 1].sn > x.sn
    ensures CountAbove(sorted, |sorted|, x.sn) > c.minThreshold
  {
    SortContents(w.queue);
    CountAboveSuffix(sorted, |w.popped| - 1, |sorted|, x.sn);
  }

  lemma ArrivalKeepsStep(c: Settings, sorted: seq<Inst>, x: Inst, w: Window)
    requires InStep(c, sorted, w) && Sorted(sorted) && CountAbove(sorted, |sorted|, x.sn) <= c.minThreshold
    ensures InStep(c, Put(sorted, x), w.(queue := w.queue + [x]))
  {
    if w.popped != [] && w.popped[|w.popped| - 1].sn > x.sn {
      LateMeansOvertaken(c, sorted, x, w);
    }
    PutBehind(w.popped, SortBySn(w.queue), x);
    SortAppend(w.queue, x);
  }

  lemma QueueKeepsStep(c: Settings, sorted: seq<Inst>, x: Inst, w: Window)
    requires InStep(c, sorted, w) && Sorted(sorted) && CountAbove(sorted, |sorted|, x.sn) <= c.minThreshold
    ensures InStep(c, Put(sorted, x), Queue(c, w, x))
  {
    ArrivalKeepsStep(c, sorted, x, w);
    FlushKeepsStep(Put(sorted, x), w.(queue := w.queue + [x]), c.minThreshold);
  }

  lemma FlushKeepsStep(sorted: seq<Inst>, w: Window, lower: nat)
    requires w.popped + SortBySn(w.queue) == sorted
    requires w.popped != [] ==> |w.queue| >= lower
    ensures var f := Flush(w, lower);
            && f.popped + SortBySn(f.queue) == sorted
            && (f.popped != [] ==> |f.queue| >= lower)
  {
    SortContents(w.queue);
    SortFirstSorts(w.queue, |w.queue|);
    var q, n := SortBySn(w.queue), Excess(|w.queue|, lower);
    SortFixpoint(q[n..], |q[n..]|);
    assert q[n..][..|q[n..]|] == q[n..];
    Regroup(w.popped, q, n);
  }

  lemma Regroup<T>(a: seq<T>, b: seq<T>, n: nat)
    requires n <= |b|
    ensures a + b[..n] + b[n..] == a + b
  {
  }

  lemma NextNotFarBehind(c: Settings, arrivals: seq<Inst>, n: nat)
    requires BoundedDisorder(arrivals, c.minThreshold) && n < |arrivals|
    ensures Sorted(SortFirst(arrivals, n))
    ensures CountAbove(SortFirst(arrivals, n), n, arrivals[n].sn) <= c.minThreshold
  {
    SortFirstSorts(arrivals, n);
    CountAboveSorted(arrivals, n, arrivals[n].sn);
  }

  lemma {:induction false} AllInStep(c: Settings, arrivals: seq<Inst>, n: nat) returns (sorted: seq<Inst>, w: Window)
    requires BoundedDisorder(arrivals, c.minThreshold) && n <= |arrivals|
    ensures sorted == SortFirst(arrivals, n) && w == QueueFirst(c, arrivals, n)
    ensures InStep(c, sorted, w)
  {
    if n == 0 {
      sorted, w := [], Window([], []);
    } else {
      var x := arrivals[n - 1];
      NextNotFarBehind(c, arrivals, n - 1);
      sorted, w := AllInStep(c, arrivals, n - 1);
      QueueKeepsStep(c, sorted, x, w);
      sorted, w := Put(sorted, x), Queue(c, w, x);
    }
  }

  /** As long as no instruction is more than `minThreshold` places out of order, the windowed
      output is the stable sort of the whole trace. */
  lemma WindowSortsEverything(c: Settings, arrivals: seq<Inst>)
    requires BoundedDisorder(arrivals, c.minThreshold)
    ensures Flush(QueueAll(c, arrivals), 0).popped == SortBySn(arrivals)
    ensures Printed(c, arrivals) == Select(c, SortBySn(arrivals))
  {
    var sorted, w := AllInStep(c, arrivals, |arrivals|);
    FlushKeepsStep(SortBySn(arrivals), w, 0);
    FlushContents(w, 0);
    var f := Flush(w, 0);
    assert f.queue == [] && f.popped + [] == f.popped;
  }

  lemma {:induction false} SelectAtMost(c: Settings, s: seq<Inst>, sn: int)
    requires AtMost(s, sn)
    ensures AtMost(Select(c, s), sn)
  {
    if s != [] {
      SelectAtMost(c, s[..|s| - 1], sn);
    }
  }

  lemma {:induction false} SelectSorted(c: Settings, s: seq<Inst>)
    requires Sorted(s)
    ensures Sorted(Select(c, s))
  {
    if s != [] {
      var n := |s| - 1;
      SelectSorted(c, s[..n]);
      SelectAtMost(c, s[..n], s[n].sn);
      AppendSorted(Select(c, s[..n]), s[n]);
    }
  }

  /** The documented assumption is enough: within it, the output comes in order. */
  lemma PrintedInOrder(c: Settings, arrivals: seq<Inst>)
    requires BoundedDisorder(arrivals, c.minThreshold)
    ensures Sorted(Printed(c, arrivals))
  {
    WindowSortsEverything(c, arrivals);
    SortFirstSorts(arrivals, |arrivals|);
    SelectSorted(c, SortBySn(arrivals));
  }

  // ---------------------------------------------------------------- the bound is tight

  /** An instruction of which only the number matters. */
  function Numbered(sn: int): Inst {
    Inst(sn, 1, 0, 0, 0, 0, 0, 1, 0, "")
  }

  /** Overflowing the queue with even numbers, and then a straggler that exactly
      `minThreshold + 1` of them have overtaken. */
  function TooLate(c: Settings): (s: seq<Inst>)
    requires c.minThreshold <= c.maxThreshold
    ensures |s| == c.maxThreshold + 2
  {
    seq(c.maxThreshold + 1, i => Numbered(2 * i)) + [Numbered(2 * (c.maxThreshold - c.minThreshold) - 1)]
  }

  lemma {:induction false} CountAboveEven(c: Settings, n: nat, k: int)
    requires c.minThreshold <= c.maxThreshold && 0 <= k && n <= c.maxThreshold + 1
    ensures CountAbove(TooLate(c), n, 2 * k - 1) == Excess(n, k)
    ensures k >= n ==> CountAbove(TooLate(c), n, 2 * k) == 0
  {
    if n > 0 {
      CountAboveEven(c, n - 1, k);
    }
  }

  lemma TooLateDisorder(c: Settings)
    requires c.minThreshold <= c.maxThreshold
    ensures BoundedDisorder(TooLate(c), c.minThreshold + 1)
  {
    var all := TooLate(c);
    forall j | 0 <= j < |all| ensures CountAbove(all, j, all[j].sn) <= c.minThreshold + 1 {
      CountAboveEven(c, j, if j <= c.maxThreshold then j else c.maxThreshold - c.minThreshold);
    }
  }

  /** While the queue does not overflow, nothing is popped. */
  lemma {:induction false} QueueQuiet(c: Settings, arrivals: seq<Inst>, n: nat)
    requires n <= c.maxThreshold && n <= |arrivals|
    ensures QueueFirst(c, arrivals, n) == Window(arrivals[..n], [])
  {
    if n > 0 {
      QueueQuiet(c, arrivals, n - 1);
      TakeMore(arrivals, n);
    }
  }

  /** Flushing a sorted queue prints its front. */
  lemma SortedFlush(q: seq<Inst>, lower: nat)
    requires Sorted(q) && lower <= |q|
    ensures Flush(Window(q, []), lower).popped == q[..|q| - lower]
  {
    SortFixpoint(q, |q|);
    assert q[..|q|] == q;
    assert Excess(|q|, lower) == |q| - lower;
    assert [] + q[..|q| - lower] == q[..|q| - lower];
  }

  /** The first overflow prints the smallest numbers. */
  lemma FirstFlush(c: Settings)
    requires c.minThreshold <= c.maxThreshold
    ensures QueueFirst(c, TooLate(c), c.maxThreshold + 1).popped == TooLate(c)[..c.maxThreshold + 1 - c.minThreshold]
  {
    var n, all := c.maxThreshold + 1, TooLate(c);
    QueueQuiet(c, all, n - 1);
    TakeMore(all, n);
    SortedFlush(all[..n], c.minThreshold);
    TakeOfTake(all, n - c.minThreshold, n);
  }

  lemma TakeOfTake<T>(s: seq<T>, i: nat, j: nat)
    requires i <= j <= |s|
    ensures s[..j][..i] == s[..i]
  {
  }

  lemma FlushOnlyAppends(w: Window, lower: nat)
    ensures w.popped <= Flush(w, lower).popped
  {
  }

  /** Nothing is filtered out. */
  predicate Unfiltered(c: Settings) {
    c.snStart <= 0 && c.snStop <= 0 && c.tickStart <= 0 && c.tickStop <= 0 && !c.onlyCommitted
  }

  lemma {:induction false} SelectAll(c: Settings, s: seq<Inst>)
    requires Unfiltered(c)
    ensures Select(c, s) == s
  {
    if s != [] {
      SelectAll(c, s[..|s| - 1]);
      assert s[..|s| - 1] + [s[|s| - 1]] == s;
    }
  }

  /** The arrivals come out, behind what the first overflow prints. */
  lemma TooLateComesOut(c: Settings) returns (first: seq<Inst>, out: seq<Inst>)
    requires c.minThreshold <= c.maxThreshold
    ensures first == TooLate(c)[..c.maxThreshold + 1 - c.minThreshold] && first <= out
    ensures out == Flush(QueueAll(c, TooLate(c)), 0).popped && multiset(out) == multiset(TooLate(c))
  {
    FirstFlush(c);
    var all := TooLate(c);
    var w, w' := QueueFirst(c, all, c.maxThreshold + 1), QueueAll(c, all);
    FlushOnlyAppends(w.(queue := w.queue + [all[c.maxThreshold + 1]]), c.minThreshold);
    FlushOnlyAppends(w', 0);
    QueueContents(c, all, |all|);
    assert all[..|all|] == all;
    FlushContents(w', 0);
    first, out := w.popped, Flush(w', 0).popped;
  }

  /** One place more than `minThreshold`, and the instructions come out of order, for every choice
      of thresholds; without a filter the output shows it. */
  lemma BoundIsTight(c: Settings)
    requires c.minThreshold <= c.maxThreshold
    ensures BoundedDisorder(TooLate(c), c.minThreshold + 1)
    ensures !Sorted(Flush(QueueAll(c, TooLate(c)), 0).popped)
    ensures Unfiltered(c) ==> !Sorted(Printed(c, TooLate(c)))
  {
    TooLateDisorder(c);
    var first, out := TooLateComesOut(c);
    StragglerComesLate(c, first, out);
    if Unfiltered(c) {
      SelectAll(c, out);
    }
  }

  lemma StragglerComesLate(c: Settings, first: seq<Inst>, out: seq<Inst>)
    requires c.minThreshold <= c.maxThreshold
    requires first == TooLate(c)[..c.maxThreshold + 1 - c.minThreshold] && first <= out
    requires multiset(out) == multiset(TooLate(c))
    ensures !Sorted(out)
  {
    var x, k := TooLate(c)[c.maxThreshold + 1], |first| - 1;
    assert x in multiset(out);
    var i :| 0 <= i < |out| && out[i] == x;
    assert forall j | 0 <= j <= k :: out[j] == first[j];
    assert i > k && out[k].sn > x.sn;
  }

  // ---------------------------------------------------------------- the viewer

  lemma SelectNext(c: Settings, s: seq<Inst>, x: Inst)
    ensures Select(c, s + [x]) == if Wanted(c, x) then Select(c, s) + [x] else Select(c, s)
  {
    SelectAppend(c, s, [x]);
    SelectOne(c, x);
  }

  /** Instructions leave the sorted queue at its front. */
  function Drain(w: Window, lower: nat): Window
    decreases |w.queue|
  {
    if |w.queue| <= lower then w else Drain(Window(w.queue[1..], w.popped + [w.queue[0]]), lower)
  }

  lemma FrontMoved<T>(popped: seq<T>, queue: seq<T>, n: nat)
    requires 0 < n <= |queue|
    ensures queue[1..][n - 1..] == queue[n..]
    ensures (popped + [queue[0]]) + queue[1..][..n - 1] == popped + queue[..n]
  {
  }

  lemma NothingMoved<T>(popped: seq<T>, queue: seq<T>)
    ensures queue[0..] == queue && popped + queue[..0] == popped
  {
  }

  lemma {:induction false} DrainIs(w: Window, lower: nat)
    ensures var n := Excess(|w.queue|, lower); Drain(w, lower) == Window(w.queue[n..], w.popped + w.queue[..n])
    decreases |w.queue|
  {
    if |w.queue| > lower {
      FrontMoved(w.popped, w.queue, |w.queue| - lower);
      DrainIs(Window(w.queue[1..], w.popped + [w.queue[0]]), lower);
    } else {
      NothingMoved(w.popped, w.queue);
    }
  }

  /** `popped` is what left the queue so far, wanted or not. */
  class Viewer {
    const settings: Settings
    var queue: seq<Inst>
    var output: seq<Inst>
    ghost var popped: seq<Inst>

    ghost predicate Valid()
      reads this
    {
      output == Select(settings, popped)
    }

    ghost function View(): Window
      reads this
    {
      Window(queue, popped)
    }

    constructor (settings: Settings)
      ensures Valid() && this.settings == settings && View() == Window([], [])
    {
      this.settings := settings;
      queue, output, popped := [], [], [];
    }

    method PrintInsts(lower: nat)
      requires Valid()
      modifies this
      ensures Valid() && View() == Flush(old(View()), lower)
    {
      ghost var start := Window(SortBySn(queue), popped);
      queue := SortBySn(queue);
      while |queue| > lower
        invariant Valid() && Drain(View(), lower) == Drain(start, lower)
        decreases |queue|
      {
        var item := queue[0];
        queue := queue[1..];
        SelectNext(settings, popped, item);
        popped := popped + [item];
        if settings.snStart > 0 && item.sn < settings.snStart { continue; }
        if settings.snStop > 0 && item.sn > settings.snStop { continue; }
        if settings.tickStart > 0 && item.fetch < settings.tickStart { continue; }
        if settings.tickStop > 0 && item.fetch > settings.tickStop { continue; }
        if settings.onlyCommitted && item.retire == 0 { continue; }
        output := output + [item];
      }
      DrainIs(start, lower);
    }

    method QueueInst(x: Inst)
      requires Valid()
      modifies this
      ensures Valid() && View() == Queue(settings, old(View()), x)
    {
      queue := queue + [x];
      if |queue| > settings.maxThreshold {
        PrintInsts(settings.minThreshold);
      }
    }

    /** Viewing a whole trace prints what the window specification says. */
    method ViewTrace(arrivals: seq<Inst>)
      requires Valid() && View() == Window([], [])
      modifies this
      ensures output == Printed(settings, arrivals)
    {
      for i := 0 to |arrivals|
        invariant Valid() && View() == QueueFirst(settings, arrivals, i)
      {
        QueueInst(arrivals[i]);
      }
      PrintInsts(0);
    }
  }
}
