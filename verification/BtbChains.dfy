/**
 The deferred queue and the chain tracker over whole runs: the queue stays in issue order, and a
 trigger leads to a bounded number of prefetches however chains compete for tracker slots.
 */
module BtbChains {
  import opened Wrappers
  import opened AssociativeCache
  import opened BtbModel
  import opened BtbRuns

  // ---------------------------------------------------------------- issue order

  ghost predicate InIssueOrder(queue: seq<Deferred>) {
    forall i, j | 0 <= i < j < |queue| :: queue[i].issueTime <= queue[j].issueTime
  }

  lemma {:induction false} EnqueueMembers(queue: seq<Deferred>, d: Deferred, x: Deferred)
    ensures x in Enqueue(queue, d) <==> x == d || x in queue
  {
    if queue != [] && queue[0].issueTime < d.issueTime {
      EnqueueMembers(queue[1..], d, x);
      assert x in queue <==> x == queue[0] || x in queue[1..];
    }
  }

  lemma {:induction false} EnqueueKeepsOrder(queue: seq<Deferred>, d: Deferred)
    requires InIssueOrder(queue)
    ensures InIssueOrder(Enqueue(queue, d))
  {
    if queue != [] && queue[0].issueTime < d.issueTime {
      EnqueueKeepsOrder(queue[1..], d);
      var rest := Enqueue(queue[1..], d);
      forall i | 0 <= i < |rest| ensures queue[0].issueTime <= rest[i].issueTime {
        EnqueueMembers(queue[1..], d, rest[i]);
      }
    }
  }

  predicate Due(cfg: Config, d: Deferred, now: nat) {
    cfg.noPrefetchLatency || d.issueTime <= now
  }

  /** In an ordered queue, the entries taken out are exactly the ones that are due. */
  lemma {:induction false} DueSplits(cfg: Config, queue: seq<Deferred>, now: nat)
    requires InIssueOrder(queue)
    ensures DueCount(cfg, queue, now) <= |queue|
    ensures forall i | 0 <= i < |queue| :: i < DueCount(cfg, queue, now) <==> Due(cfg, queue[i], now)
  {
    if queue != [] && Due(cfg, queue[0], now) {
      DueSplits(cfg, queue[1..], now);
      forall i | 0 <= i < |queue|
        ensures i < DueCount(cfg, queue, now) <==> Due(cfg, queue[i], now)
      {
        if i > 0 { assert queue[i] == queue[1..][i - 1]; }
      }
    }
  }

  // ---------------------------------------------------------------- the pending entries of one chain

  function Mine(queue: seq<Deferred>, c: nat): seq<Deferred> {
    if queue == [] then []
    else if queue[0].chainId == c then [queue[0]] + Mine(queue[1..], c)
    else Mine(queue[1..], c)
  }

  lemma {:induction false} MineAppend(a: seq<Deferred>, b: seq<Deferred>, c: nat)
    ensures Mine(a + b, c) == Mine(a, c) + Mine(b, c)
  {
    if a == [] {
      assert a + b == b;
    } else {
      MineAppend(a[1..], b, c);
      assert (a + b)[0] == a[0] && (a + b)[1..] == a[1..] + b;
      assert a[0].chainId == c ==> Mine(a + b, c) == [a[0]] + Mine(a[1..], c) + Mine(b, c);
    }
  }

  lemma {:induction false} MineMembers(queue: seq<Deferred>, c: nat, x: Deferred)
    ensures x in Mine(queue, c) <==> x in queue && x.chainId == c
  {
    if queue != [] {
      MineMembers(queue[1..], c, x);
      assert x in queue <==> x == queue[0] || x in queue[1..];
    }
  }

  /** Deferring a prefetch of one chain leaves the entries of the others as they are. */
  lemma {:induction false} EnqueueMine(queue: seq<Deferred>, d: Deferred, c: nat)
    requires InIssueOrder(queue)
    ensures Mine(Enqueue(queue, d), c) == if d.chainId == c then Enqueue(Mine(queue, c), d) else Mine(queue, c)
  {
    if queue == [] || queue[0].issueTime >= d.issueTime {
      assert ([d] + queue)[1..] == queue;
      var mine := Mine(queue, c);
      if mine != [] {
        MineMembers(queue, c, mine[0]);
      }
    } else {
      var rest := Enqueue(queue[1..], d);
      assert ([queue[0]] + rest)[1..] == rest;
      EnqueueMine(queue[1..], d, c);
    }
  }

  /** Where an entry goes: after the earlier ones, before the others. */
  lemma {:induction false} EnqueueAt(queue: seq<Deferred>, d: Deferred) returns (k: nat)
    ensures k <= |queue| && Enqueue(queue, d) == queue[..k] + [d] + queue[k..]
    ensures k < |queue| ==> queue[k].issueTime >= d.issueTime
  {
    if queue == [] || queue[0].issueTime >= d.issueTime {
      k := 0;
    } else {
      var j := EnqueueAt(queue[1..], d);
      k := j + 1;
      assert queue[..k] == [queue[0]] + queue[1..][..j];
    }
  }

  // ---------------------------------------------------------------- the budget of one chain

  /** What an allocating entry may lead to. */
  function Depth(cfg: Config): nat {
    if cfg.prefetchDepth > 1 then cfg.prefetchDepth else 1
  }

  predicate PositiveLatencies(cfg: Config) {
    cfg.l2Latency > 0 && (cfg.enableL3 ==> cfg.l3Latency > 0)
  }

  /** What a chain can have issued by the time its second allocating entry is due: the first, and
      one follower when followers can be due in the next cycle. */
  function Spare(cfg: Config): nat {
    if cfg.newPBits then 0 else if Depth(cfg) == 1 || PositiveLatencies(cfg) then 1 else 2
  }

  /** The most prefetches one trigger can lead to. */
  function Budget(cfg: Config): nat {
    Depth(cfg) + Spare(cfg)
  }

  /** What is left of the budget of chain `c`, if it holds a tracker slot. */
  function SlotBudget(cfg: Config, chains: seq<Chain>, c: nat): nat
    requires |chains| == cfg.maxChains
  {
    if cfg.maxChains > 0 && chains[c % cfg.maxChains].id == c then chains[c % cfg.maxChains].remaining else 0
  }

  ghost predicate Opens(cfg: Config, d: Deferred) {
    d.allocate && d.depth <= Depth(cfg)
  }

  ghost predicate NoOpener(p: seq<Deferred>) {
    forall d | d in p :: !d.allocate
  }

  // The pending entries `p` of a chain that has issued `i` prefetches and has `left` in its slot.

  ghost predicate Closed(cfg: Config, p: seq<Deferred>, i: nat, left: nat) {
    NoOpener(p) && i + left <= Budget(cfg)
  }

  /** One opener is left, in front. */
  ghost predicate LastOpener(cfg: Config, p: seq<Deferred>, i: nat, left: nat) {
    p != [] && Opens(cfg, p[0]) && NoOpener(p[1..]) && i <= Spare(cfg) && i + left <= Depth(cfg)
  }

  /** One opener is left, and a follower of the other due in the same cycle is in front of it. */
  ghost predicate Overtaken(cfg: Config, p: seq<Deferred>, i: nat, left: nat) {
    && |p| >= 2 && !p[0].allocate && Opens(cfg, p[1]) && NoOpener(p[2..]) && p[0].issueTime == p[1].issueTime
    && i < Spare(cfg) && i + left <= Depth(cfg)
  }

  /** Both openers are pending, a cycle apart. */
  ghost predicate BothOpeners(cfg: Config, p: seq<Deferred>, i: nat, left: nat) {
    && |p| == 2 && Opens(cfg, p[0]) && Opens(cfg, p[1]) && p[1].issueTime <= p[0].issueTime + 1
    && i == 0 && left == 0 && Spare(cfg) > 0
  }

  ghost predicate ChainOk(cfg: Config, p: seq<Deferred>, i: nat, left: nat) {
    Closed(cfg, p, i, left) || LastOpener(cfg, p, i, left) || Overtaken(cfg, p, i, left) || BothOpeners(cfg, p, i, left)
  }

  lemma IssuedWithinBudget(cfg: Config, p: seq<Deferred>, i: nat, left: nat)
    requires ChainOk(cfg, p, i, left)
    ensures i <= Budget(cfg)
  {
  }

  lemma LoseSlot(cfg: Config, p: seq<Deferred>, i: nat, left: nat, left': nat)
    requires ChainOk(cfg, p, i, left) && left' <= left
    ensures ChainOk(cfg, p, i, left')
  {
  }

  /** The entry in front is dropped. */
  lemma Skip(cfg: Config, p: seq<Deferred>, i: nat, left: nat)
    requires p != [] && ChainOk(cfg, p, i, left)
    ensures ChainOk(cfg, p[1..], i, left)
  {
  }

  /** The entry in front is issued, from the budget of the slot. */
  lemma SpendSlot(cfg: Config, p: seq<Deferred>, i: nat, left: nat)
    requires p != [] && ChainOk(cfg, p, i, left) && left > 0
    ensures ChainOk(cfg, p[1..], i + 1, left - 1)
  {
  }

  /** The entry in front is issued, and opens a budget of its own. */
  lemma SpendFresh(cfg: Config, p: seq<Deferred>, i: nat, left: nat, left': nat)
    requires p != [] && ChainOk(cfg, p, i, left) && p[0].allocate
    requires left' <= if p[0].depth > 0 then p[0].depth - 1 else 0
    ensures ChainOk(cfg, p[1..], i + 1, left')
  {
  }

  /** A follower of the entry that was in front may join: no opener that is still pending is later,
      and one of the same cycle only while the chain has issued just one prefetch. */
  ghost predicate MayFollow(cfg: Config, p: seq<Deferred>, i: nat, time: nat) {
    || NoOpener(p)
    || (p[0].allocate && NoOpener(p[1..]) && (p[0].issueTime < time || (p[0].issueTime == time && i < Spare(cfg))))
    || (|p| >= 2 && p[1].issueTime < time && p[0].issueTime < time && NoOpener(p[2..]) && !p[0].allocate)
  }

  lemma Joined(a: seq<Deferred>, q: seq<Deferred>, d: Deferred) returns (k: nat)
    ensures |a| <= k <= |a| + |q| && a + Enqueue(q, d) == (a + q)[..k] + [d] + (a + q)[k..]
    ensures k < |a| + |q| ==> (a + q)[k].issueTime >= d.issueTime
  {
    var j := EnqueueAt(q, d);
    k := |a| + j;
    assert (a + q)[..k] == a + q[..j] && (a + q)[k..] == q[j..];
  }

  lemma JoinClosed(cfg: Config, p: seq<Deferred>, i: nat, left: nat, d: Deferred, k: nat)
    requires Closed(cfg, p, i, left) && !d.allocate && k <= |p|
    ensures Closed(cfg, p[..k] + [d] + p[k..], i, left)
  {
  }

  lemma JoinBehind(cfg: Config, p: seq<Deferred>, i: nat, left: nat, d: Deferred, k: nat)
    requires LastOpener(cfg, p, i, left) && !d.allocate && 0 < k <= |p| && p[0].issueTime <= d.issueTime
    ensures LastOpener(cfg, p[..k] + [d] + p[k..], i, left)
    ensures MayFollow(cfg, p[..k] + [d] + p[k..], i, d.issueTime + 1)
  {
    assert (p[..k] + [d] + p[k..])[1..] == p[1..k] + [d] + p[k..];
  }

  lemma JoinInFront(cfg: Config, p: seq<Deferred>, i: nat, left: nat, d: Deferred)
    requires LastOpener(cfg, p, i, left) && !d.allocate && p[0].issueTime == d.issueTime && i < Spare(cfg)
    ensures Overtaken(cfg, [d] + p, i, left) && MayFollow(cfg, [d] + p, i, d.issueTime + 1)
  {
    assert ([d] + p)[2..] == p[1..];
  }

  lemma JoinOvertaken(cfg: Config, p: seq<Deferred>, i: nat, left: nat, d: Deferred, k: nat)
    requires Overtaken(cfg, p, i, left) && !d.allocate && 2 <= k <= |p| && p[0].issueTime <= d.issueTime
    ensures Overtaken(cfg, p[..k] + [d] + p[k..], i, left)
    ensures MayFollow(cfg, p[..k] + [d] + p[k..], i, d.issueTime + 1)
  {
    assert (p[..k] + [d] + p[k..])[2..] == p[2..k] + [d] + p[k..];
  }

  /** A follower joins the pending entries; `a` are those that are due already. */
  lemma JoinOk(cfg: Config, a: seq<Deferred>, q: seq<Deferred>, i: nat, left: nat, d: Deferred)
    requires ChainOk(cfg, a + q, i, left) && !BothOpeners(cfg, a + q, i, left)
    requires !d.allocate && MayFollow(cfg, a + q, i, d.issueTime)
    ensures ChainOk(cfg, a + Enqueue(q, d), i, left) && !BothOpeners(cfg, a + Enqueue(q, d), i, left)
    ensures MayFollow(cfg, a + Enqueue(q, d), i, d.issueTime + 1)
  {
    var p := a + q;
    var k := Joined(a, q, d);
    if Closed(cfg, p, i, left) {
      JoinClosed(cfg, p, i, left, d, k);
    } else if LastOpener(cfg, p, i, left) {
      if k == 0 {
        assert p[..0] + [d] + p[0..] == [d] + p;
        JoinInFront(cfg, p, i, left, d);
      } else {
        JoinBehind(cfg, p, i, left, d, k);
      }
    } else {
      JoinOvertaken(cfg, p, i, left, d, k);
    }
  }

  lemma LaterMayFollow(cfg: Config, p: seq<Deferred>, i: nat, time: nat, time': nat)
    requires MayFollow(cfg, p, i, time) && time <= time'
    ensures MayFollow(cfg, p, i, time')
  {
  }

  /** What may follow the entry that was just issued from the front, `latency` cycles later. */
  lemma FollowersMayJoin(cfg: Config, p: seq<Deferred>, i: nat, left: nat, latency: nat)
    requires p != [] && ChainOk(cfg, p, i, left)
    requires latency == 0 && BothOpeners(cfg, p, i, left) ==> Spare(cfg) == 2
    ensures !BothOpeners(cfg, p[1..], i + 1, left)
    ensures MayFollow(cfg, p[1..], i + 1, p[0].issueTime + latency + 1)
  {
    if BothOpeners(cfg, p, i, left) {
      assert p[1..] == [p[1]];
    } else if Overtaken(cfg, p, i, left) {
      assert p[1..][1..] == p[2..];
    }
  }

  // ---------------------------------------------------------------- the engine

  ghost predicate EntryOk(cfg: Config, next: nat, d: Deferred) {
    1 <= d.chainId < next && (cfg.maxChains == 0 ==> d.allocate)
  }

  ghost predicate QueueOk(cfg: Config, next: nat, queue: seq<Deferred>) {
    (forall d | d in queue :: EntryOk(cfg, next, d)) && InIssueOrder(queue)
  }

  /** Chain numbers in use are below the next one, and without a tracker no chain goes on. */
  ghost predicate EngineOk(cfg: Config, g: Engine, due: seq<Deferred>) {
    && g.nextChain >= 1
    && |g.chains| == cfg.maxChains
    && QueueOk(cfg, g.nextChain, g.queue)
    && (forall d | d in due :: EntryOk(cfg, g.nextChain, d))
    && (forall i | 0 <= i < |g.chains| :: g.chains[i].id < g.nextChain)
    && (forall c | c in g.issued :: c < g.nextChain)
  }

  function Pending(g: Engine, due: seq<Deferred>, c: nat): seq<Deferred> {
    Mine(due, c) + Mine(g.queue, c)
  }

  ghost predicate ChainState(cfg: Config, g: Engine, due: seq<Deferred>, c: nat)
    requires |g.chains| == cfg.maxChains
  {
    ChainOk(cfg, Pending(g, due, c), multiset(g.issued)[c], SlotBudget(cfg, g.chains, c))
  }

  /** Deferring a block: the chain gets the entry, if it was deferred, and other chains stay as they are. */
  lemma BlockQueued(cfg: Config, v: Levels, queue: seq<Deferred>, next: nat, now: nat, blocks: BlockMap, start: Option<Addr>,
                    depth: nat, base: nat, trigger: BranchType, chainId: nat, allocate: bool, c: nat)
      returns (d: Option<Deferred>)
    requires cfg.Valid() && QueueOk(cfg, next, queue)
    requires 1 <= chainId < next && (cfg.maxChains == 0 ==> allocate)
    ensures var queue' := DeferBlock(cfg, v, queue, now, blocks, start, depth, base, trigger, chainId, allocate);
            && QueueOk(cfg, next, queue')
            && Mine(queue', c) == if d.Some? then Enqueue(Mine(queue, c), d.value) else Mine(queue, c)
    ensures d.Some? ==> && start.Some? && c == chainId && d.value.issueTime == now + base + 1
                        && d.value.allocate == allocate && d.value.depth == depth
  {
    d := None;
    if DeferBlock(cfg, v, queue, now, blocks, start, depth, base, trigger, chainId, allocate) != queue {
      var e := Deferred(blocks[start.value], now + base + 1, trigger, chainId, allocate, depth);
      EnqueueMine(queue, e, c);
      EnqueueKeepsOrder(queue, e);
      forall x ensures x in Enqueue(queue, e) <==> x == e || x in queue {
        EnqueueMembers(queue, e, x);
      }
      d := if c == chainId then Some(e) else None;
    }
  }

  /** The same for two successors. */
  lemma PairQueued(cfg: Config, v: Levels, queue: seq<Deferred>, next: nat, now: nat, blocks: BlockMap,
                   target: Option<Addr>, through: Option<Addr>,
                   depth: nat, base: nat, trigger: BranchType, chainId: nat, allocate: bool, c: nat)
      returns (d1: Option<Deferred>, d2: Option<Deferred>, between: seq<Deferred>)
    requires cfg.Valid() && QueueOk(cfg, next, queue)
    requires 1 <= chainId < next && (cfg.maxChains == 0 ==> allocate)
    ensures var queue' := DeferPair(cfg, v, queue, now, blocks, target, through, depth, base, trigger, chainId, allocate);
            && QueueOk(cfg, next, queue')
            && Mine(queue', c) == if d2.Some? then Enqueue(between, d2.value) else between
    ensures between == if d1.Some? then Enqueue(Mine(queue, c), d1.value) else Mine(queue, c)
    ensures d1.Some? ==> && target.Some? && c == chainId && d1.value.issueTime == now + base + 1
                         && d1.value.allocate == allocate && d1.value.depth == depth
    ensures d2.Some? ==> && through.Some? && c == chainId && d2.value.allocate == allocate && d2.value.depth == depth
                         && d2.value.issueTime == now + base + (if target.Some? then 2 else 1)
  {
    d1 := BlockQueued(cfg, v, queue, next, now, blocks, target, depth, base, trigger, chainId, allocate, c);
    var first := DeferBlock(cfg, v, queue, now, blocks, target, depth, base, trigger, chainId, allocate);
    between := Mine(first, c);
    d2 := BlockQueued(cfg, v, first, next, now, blocks, through, depth, if target.Some? then base + 1 else base, trigger,
                      chainId, allocate, c);
  }

  /** Two followers join, the second after the first. */
  lemma PairJoins(cfg: Config, a: seq<Deferred>, q: seq<Deferred>, i: nat, left: nat, d1: Option<Deferred>,
                  d2: Option<Deferred>, between: seq<Deferred>, after: seq<Deferred>)
    requires ChainOk(cfg, a + q, i, left) && (d1.Some? || d2.Some? ==> !BothOpeners(cfg, a + q, i, left))
    requires between == if d1.Some? then Enqueue(q, d1.value) else q
    requires after == if d2.Some? then Enqueue(between, d2.value) else between
    requires d1.Some? ==> !d1.value.allocate && MayFollow(cfg, a + q, i, d1.value.issueTime)
    requires d2.Some? ==> !d2.value.allocate && MayFollow(cfg, a + q, i, d2.value.issueTime)
    requires d1.Some? && d2.Some? ==> d2.value.issueTime == d1.value.issueTime + 1
    ensures ChainOk(cfg, a + after, i, left)
  {
    if d1.Some? {
      JoinOk(cfg, a, q, i, left, d1.value);
    }
    if d2.Some? {
      JoinOk(cfg, a, between, i, left, d2.value);
    }
  }

  /** Where a chain that goes on stands after issuing a prefetch that arrives at `arrival`. */
  ghost predicate GoesOn(cfg: Config, g: Engine, due: seq<Deferred>, c: nat, arrival: nat)
    requires |g.chains| == cfg.maxChains
  {
    var p, i := Pending(g, due, c), multiset(g.issued)[c];
    !BothOpeners(cfg, p, i, SlotBudget(cfg, g.chains, c)) && MayFollow(cfg, p, i, arrival + 1)
  }

  /** The followers of a prefetch that was just issued keep the queue and every chain in order. */
  lemma FollowersKeepChain(cfg: Config, v: Levels, g: Engine, now: nat, blocks: BlockMap, target: Option<Addr>,
                           through: Option<Addr>, base: nat, kind: BranchType, id: nat, due: seq<Deferred>, c: nat,
                           arrival: nat)
      returns (queue: seq<Deferred>)
    requires cfg.Valid() && QueueOk(cfg, g.nextChain, g.queue) && cfg.maxChains > 0 && 1 <= id < g.nextChain
    requires |g.chains| == cfg.maxChains && ChainState(cfg, g, due, c) && now + base >= arrival
    requires c == id ==> GoesOn(cfg, g, due, c, arrival)
    ensures queue == DeferPair(cfg, v, g.queue, now, blocks, target, through, 1, base, kind, id, false)
    ensures QueueOk(cfg, g.nextChain, queue)
    ensures ChainOk(cfg, Mine(due, c) + Mine(queue, c), multiset(g.issued)[c], SlotBudget(cfg, g.chains, c))
  {
    queue := DeferPair(cfg, v, g.queue, now, blocks, target, through, 1, base, kind, id, false);
    var i := multiset(g.issued)[c];
    var d1, d2, between :=
      PairQueued(cfg, v, g.queue, g.nextChain, now, blocks, target, through, 1, base, kind, id, false, c);
    if c == id {
      LaterMayFollow(cfg, Pending(g, due, c), i, arrival + 1, now + base + 1);
      LaterMayFollow(cfg, Pending(g, due, c), i, arrival + 1, now + base + 2);
    }
    PairJoins(cfg, Mine(due, c), Mine(g.queue, c), i, SlotBudget(cfg, g.chains, c), d1, d2, between, Mine(queue, c));
  }

  lemma NewQueueOk(cfg: Config, g: Engine, due: seq<Deferred>, queue: seq<Deferred>)
    requires EngineOk(cfg, g, due) && QueueOk(cfg, g.nextChain, queue)
    ensures EngineOk(cfg, g.(queue := queue), due)
  {
  }

  lemma IssuedCount(issued: seq<nat>, x: nat, c: nat)
    ensures multiset(issued + [x])[c] == multiset(issued)[c] + (if c == x then 1 else 0)
  {
  }

  /** Issuing for another chain can only take the slot away. */
  lemma OthersKeepChain(cfg: Config, s: State, due: seq<Deferred>, victim: Option<Key>, c: nat)
    requires cfg.Valid() && due != [] && EngineOk(cfg, s.engine, due) && Issues(cfg, s, due[0]) && due[0].chainId != c
    requires ChainState(cfg, s.engine, due, c)
    ensures ChainState(cfg, Issue(cfg, s, due[0], victim).engine, due[1..], c)
  {
    var g, g' := s.engine, Issue(cfg, s, due[0], victim).engine;
    IssuedCount(g.issued, due[0].chainId, c);
    LoseSlot(cfg, Pending(g, due, c), multiset(g.issued)[c], SlotBudget(cfg, g.chains, c), SlotBudget(cfg, g'.chains, c));
  }

  lemma PendingHead(g: Engine, due: seq<Deferred>)
    requires due != []
    ensures var p := Pending(g, due, due[0].chainId);
            p != [] && p[0] == due[0] && p[1..] == Pending(g, due[1..], due[0].chainId)
  {
    var c := due[0].chainId;
    assert ([due[0]] + Mine(due[1..], c) + Mine(g.queue, c))[1..] == Mine(due[1..], c) + Mine(g.queue, c);
  }

  /** What issuing `d` leaves in the slot of its chain. */
  lemma SlotAfterSpend(cfg: Config, g: Engine, d: Deferred)
    requires |g.chains| == cfg.maxChains && cfg.maxChains > 0 && LiveChain(cfg, g, d) && d.chainId > 0
    ensures var left, left' := SlotBudget(cfg, g.chains, d.chainId), SlotBudget(cfg, Spend(cfg, g.chains, d), d.chainId);
            if g.chains[d.chainId % cfg.maxChains].id == d.chainId then left > 0 && left' == left - 1
            else d.allocate && left == 0 && left' == if d.depth > 0 then d.depth - 1 else 0
  {
  }

  /** Issuing for a chain spends what its slot has left, or opens a new budget. */
  lemma OwnKeepsChain(cfg: Config, s: State, due: seq<Deferred>, victim: Option<Key>)
    requires cfg.Valid() && due != [] && EngineOk(cfg, s.engine, due) && Issues(cfg, s, due[0])
    requires ChainState(cfg, s.engine, due, due[0].chainId)
    ensures ChainState(cfg, Issue(cfg, s, due[0], victim).engine, due[1..], due[0].chainId)
  {
    var d, c, g := due[0], due[0].chainId, s.engine;
    var p, i, left := Pending(g, due, c), multiset(g.issued)[c], SlotBudget(cfg, g.chains, c);
    assert EntryOk(cfg, g.nextChain, d);
    PendingHead(g, due);
    IssuedCount(g.issued, c, c);
    if cfg.maxChains == 0 {
      SpendFresh(cfg, p, i, left, 0);
    } else {
      SlotAfterSpend(cfg, g, d);
      if g.chains[c % cfg.maxChains].id == c {
        SpendSlot(cfg, p, i, left);
      } else {
        SpendFresh(cfg, p, i, left, SlotBudget(cfg, Spend(cfg, g.chains, d), c));
      }
    }
  }

  lemma IssueKeepsEngine(cfg: Config, s: State, due: seq<Deferred>, victim: Option<Key>)
    requires cfg.Valid() && due != [] && EngineOk(cfg, s.engine, due) && Issues(cfg, s, due[0])
    ensures EngineOk(cfg, Issue(cfg, s, due[0], victim).engine, due[1..])
  {
    assert EntryOk(cfg, s.engine.nextChain, due[0]);
  }

  lemma SourceLatencyPositive(cfg: Config, v: Levels, pc: Addr)
    requires cfg.Valid() && PositiveLatencies(cfg) && PrefetchSource(cfg, v, pc) != NoSource
    ensures PrefetchSource(cfg, v, pc).latency > 0
  {
  }

  /** The chain that goes on may be followed from the arrival of what was issued. */
  lemma OwnFollowersMayJoin(cfg: Config, s: State, due: seq<Deferred>, victim: Option<Key>)
    requires cfg.Valid() && due != [] && EngineOk(cfg, s.engine, due) && Issues(cfg, s, due[0])
    requires ChainState(cfg, s.engine, due, due[0].chainId) && Continues(cfg, s.engine.chains, due[0])
    ensures GoesOn(cfg, Issue(cfg, s, due[0], victim).engine, due[1..], due[0].chainId,
                   due[0].issueTime + PrefetchSource(cfg, s.levels, due[0].pc).latency)
  {
    var d, c, g := due[0], due[0].chainId, s.engine;
    var p, i, left := Pending(g, due, c), multiset(g.issued)[c], SlotBudget(cfg, g.chains, c);
    assert EntryOk(cfg, g.nextChain, d);
    PendingHead(g, due);
    IssuedCount(g.issued, c, c);
    SlotAfterSpend(cfg, g, d);
    if PositiveLatencies(cfg) {
      SourceLatencyPositive(cfg, s.levels, d.pc);
    }
    FollowersMayJoin(cfg, p, i, left, PrefetchSource(cfg, s.levels, d.pc).latency);
  }

  /** The engine is well formed and chain `c` is within its budget, `due` being taken out of the queue. */
  ghost predicate InBudget(cfg: Config, g: Engine, due: seq<Deferred>, c: nat) {
    EngineOk(cfg, g, due) && ChainState(cfg, g, due, c)
  }

  lemma SkipKeepsBudget(cfg: Config, g: Engine, due: seq<Deferred>, c: nat)
    requires due != [] && InBudget(cfg, g, due, c)
    ensures InBudget(cfg, g, due[1..], c)
  {
    if due[0].chainId == c {
      PendingHead(g, due);
      Skip(cfg, Pending(g, due, c), multiset(g.issued)[c], SlotBudget(cfg, g.chains, c));
    }
  }

  lemma IssueKeepsBudget(cfg: Config, s: State, due: seq<Deferred>, victim: Option<Key>, c: nat)
    requires cfg.Valid() && due != [] && InBudget(cfg, s.engine, due, c) && Issues(cfg, s, due[0])
    ensures InBudget(cfg, Issue(cfg, s, due[0], victim).engine, due[1..], c)
  {
    IssueKeepsEngine(cfg, s, due, victim);
    if due[0].chainId == c {
      OwnKeepsChain(cfg, s, due, victim);
    } else {
      OthersKeepChain(cfg, s, due, victim, c);
    }
  }

  lemma FollowKeepsBudget(cfg: Config, s: State, blocks: BlockMap, d: Deferred, e: Entry, arrival: nat, due: seq<Deferred>,
                          c: nat)
    requires cfg.Valid() && InBudget(cfg, s.engine, due, c) && cfg.maxChains > 0 && 1 <= d.chainId < s.engine.nextChain
    requires c == d.chainId ==> GoesOn(cfg, s.engine, due, c, arrival)
    ensures InBudget(cfg, Follow(cfg, s, blocks, d, e, arrival), due, c)
  {
    var queue := FollowersKeepChain(cfg, s.levels, s.engine, s.now, blocks, When(e.pfTarget, e.target),
                                    When(e.pfThrough, d.pc + cfg.minInstSize),
                                    if arrival > s.now then arrival - s.now else 0, e.kind, d.chainId, due, c, arrival);
    NewQueueOk(cfg, s.engine, due, queue);
  }

  lemma IssueGoesOn(cfg: Config, s: State, due: seq<Deferred>, victim: Option<Key>, c: nat)
    requires cfg.Valid() && due != [] && InBudget(cfg, s.engine, due, c) && Issues(cfg, s, due[0])
    requires Continues(cfg, s.engine.chains, due[0])
    ensures var g := Issue(cfg, s, due[0], victim).engine;
            && InBudget(cfg, g, due[1..], c) && 1 <= due[0].chainId < g.nextChain
            && (c == due[0].chainId ==>
                  GoesOn(cfg, g, due[1..], c, due[0].issueTime + PrefetchSource(cfg, s.levels, due[0].pc).latency))
  {
    assert 1 <= due[0].chainId < s.engine.nextChain by {
      assert EntryOk(cfg, s.engine.nextChain, due[0]);
    }
    IssueKeepsBudget(cfg, s, due, victim, c);
    if due[0].chainId == c {
      OwnFollowersMayJoin(cfg, s, due, victim);
    }
  }

  /** Following up what was just issued. */
  lemma ContinuedKeepsBudget(cfg: Config, s: State, blocks: BlockMap, d: Deferred, later: seq<Deferred>, victim: Option<Key>,
                             c: nat)
    requires cfg.Valid() && |s.engine.chains| == cfg.maxChains && Issues(cfg, s, d) && Continues(cfg, s.engine.chains, d)
    requires var g := Issue(cfg, s, d, victim).engine;
             && InBudget(cfg, g, later, c) && 1 <= d.chainId < g.nextChain
             && (c == d.chainId ==>
                   GoesOn(cfg, g, later, c, d.issueTime + PrefetchSource(cfg, s.levels, d.pc).latency))
    ensures InBudget(cfg, ProcessOne(cfg, s, blocks, d, victim).engine, later, c)
  {
    var source := PrefetchSource(cfg, s.levels, d.pc);
    FollowKeepsBudget(cfg, Issue(cfg, s, d, victim), blocks, d, source.entry, d.issueTime + source.latency, later, c);
  }

  lemma ProcessOneKeepsBudget(cfg: Config, s: State, blocks: BlockMap, due: seq<Deferred>, victim: Option<Key>, c: nat)
    requires cfg.Valid() && due != [] && InBudget(cfg, s.engine, due, c)
    ensures InBudget(cfg, ProcessOne(cfg, s, blocks, due[0], victim).engine, due[1..], c)
  {
    if !Issues(cfg, s, due[0]) {
      SkipKeepsBudget(cfg, s.engine, due, c);
    } else if Continues(cfg, s.engine.chains, due[0]) {
      IssueGoesOn(cfg, s, due, victim, c);
      ContinuedKeepsBudget(cfg, s, blocks, due[0], due[1..], victim, c);
    } else {
      IssueKeepsBudget(cfg, s, due, victim, c);
    }
  }

  lemma {:induction false} ProcessAllKeepsBudget(cfg: Config, s: State, blocks: BlockMap, due: seq<Deferred>,
                                                 victims: seq<Option<Key>>, c: nat)
    requires cfg.Valid() && InBudget(cfg, s.engine, due, c) && |victims| == |due|
    ensures InBudget(cfg, ProcessAll(cfg, s, blocks, due, victims).engine, [], c)
    decreases |due|
  {
    if due != [] {
      ProcessOneKeepsBudget(cfg, s, blocks, due, victims[0], c);
      ProcessAllKeepsBudget(cfg, ProcessOne(cfg, s, blocks, due[0], victims[0]), blocks, due[1..], victims[1..], c);
    }
  }

  /** The same with nothing taken out. */
  ghost predicate WithinBudget(cfg: Config, g: Engine, c: nat) {
    InBudget(cfg, g, [], c)
  }

  lemma CycleKeepsBudget(cfg: Config, s: State, blocks: BlockMap, victims: seq<Option<Key>>, c: nat)
    requires cfg.Valid() && WithinBudget(cfg, s.engine, c) && |victims| == DueCount(cfg, s.engine.queue, s.now)
    ensures WithinBudget(cfg, Cycle(cfg, s, blocks, victims).engine, c)
  {
    DueInRange(cfg, s.engine.queue, s.now);
    var n := DueCount(cfg, s.engine.queue, s.now);
    var due, rest := s.engine.queue[..n], s.engine.queue[n..];
    assert s.engine.queue == due + rest;
    MineAppend(due, rest, c);
    var popped := s.(engine := s.engine.(queue := rest));
    assert InIssueOrder(rest);
    assert Pending(popped.engine, due, c) == Pending(s.engine, [], c);
    ProcessAllKeepsBudget(cfg, popped, blocks, due, victims, c);
  }

  // ---------------------------------------------------------------- opening chains

  /** With the two-bit policy a trigger follows at most one of the two successors. */
  lemma NewPBitsPickOne(cfg: Config, afterBackwardMiss: bool, kind: BranchType, taken: bool, backward: bool,
                        pfTarget: bool, pfThrough: bool, loc: Location)
    requires cfg.newPBits
    ensures var pick := ApplyNewPBits(cfg, afterBackwardMiss, kind, taken, backward, pfTarget, pfThrough, loc);
            !(pick.0 && pick.1)
  {
  }

  /** A chain number that was never handed out has nothing pending, issued or left. */
  lemma UnusedChain(cfg: Config, g: Engine)
    requires EngineOk(cfg, g, [])
    ensures Mine(g.queue, g.nextChain) == [] && multiset(g.issued)[g.nextChain] == 0
    ensures SlotBudget(cfg, g.chains, g.nextChain) == 0
  {
    var mine := Mine(g.queue, g.nextChain);
    if mine != [] {
      MineMembers(g.queue, g.nextChain, mine[0]);
    }
    assert g.nextChain !in g.issued;
  }

  /** The entries of a new chain: at most two openers, the second a cycle later. */
  lemma OpenersOk(cfg: Config, d1: Option<Deferred>, d2: Option<Deferred>, p1: seq<Deferred>, p2: seq<Deferred>)
    requires p1 == if d1.Some? then Enqueue([], d1.value) else []
    requires p2 == if d2.Some? then Enqueue(p1, d2.value) else p1
    requires (d1.Some? ==> Opens(cfg, d1.value)) && (d2.Some? ==> Opens(cfg, d2.value))
    requires d1.Some? && d2.Some? ==> !cfg.newPBits && d2.value.issueTime == d1.value.issueTime + 1
    ensures ChainOk(cfg, p2, 0, 0)
  {
    if d1.Some? && d2.Some? {
      assert p1 == [d1.value] && p1[1..] == [];
      assert p2 == [d1.value, d2.value];
      assert BothOpeners(cfg, p2, 0, 0);
    } else {
      assert p2 == if d1.Some? then [d1.value] else if d2.Some? then [d2.value] else [];
    }
  }

  lemma HigherNumbers(cfg: Config, next: nat, queue: seq<Deferred>)
    requires QueueOk(cfg, next, queue)
    ensures QueueOk(cfg, next + 1, queue)
  {
    assert forall d | d in queue :: EntryOk(cfg, next, d);
  }

  lemma NewChainKeepsBudget(cfg: Config, g: Engine, queue: seq<Deferred>, c: nat)
    requires WithinBudget(cfg, g, c) && QueueOk(cfg, g.nextChain + 1, queue)
    requires if c == g.nextChain then ChainOk(cfg, Mine(queue, c), 0, 0) else Mine(queue, c) == Mine(g.queue, c)
    ensures WithinBudget(cfg, g.(nextChain := g.nextChain + 1, queue := queue), c)
  {
    var g' := g.(nextChain := g.nextChain + 1, queue := queue);
    assert Pending(g', [], c) == Mine(queue, c) && Pending(g, [], c) == Mine(g.queue, c);
    if c == g.nextChain {
      UnusedChain(cfg, g);
    }
  }

  lemma FollowPathKeepsBudget(cfg: Config, v: Levels, g: Engine, now: nat, blocks: BlockMap, kind: BranchType,
                              target: Addr, through: Addr, pick: (bool, bool), base: nat, c: nat)
    requires cfg.Valid() && WithinBudget(cfg, g, c)
    requires cfg.newPBits ==> !(pick.0 && pick.1)
    ensures WithinBudget(cfg, FollowPath(cfg, v, g, now, blocks, kind, target, through, pick, base), c)
  {
    if pick.0 || pick.1 {
      HigherNumbers(cfg, g.nextChain, g.queue);
      UnusedChain(cfg, g);
      var d1, d2, between :=
        PairQueued(cfg, v, g.queue, g.nextChain + 1, now, blocks, When(pick.0, target), When(pick.1, through),
                   EffectiveDepth(cfg, kind), base, kind, g.nextChain, true, c);
      var queue := DeferPair(cfg, v, g.queue, now, blocks, When(pick.0, target), When(pick.1, through),
                             EffectiveDepth(cfg, kind), base, kind, g.nextChain, true);
      if c == g.nextChain {
        OpenersOk(cfg, d1, d2, between, Mine(queue, c));
      }
      NewChainKeepsBudget(cfg, g, queue, c);
    }
  }

  lemma SeenKeepsBudget(cfg: Config, g: Engine, backward: bool, l1Miss: bool, c: nat)
    requires WithinBudget(cfg, g, c)
    ensures WithinBudget(cfg, g.(prevBackward := backward, prevL1Miss := l1Miss), c)
  {
  }

  /** A chain is opened along both successors only without the two-bit policy. */
  lemma PickOk(cfg: Config, g: Engine, pc: Addr, kind: BranchType, e: Entry, taken: bool, loc: Location) returns (pick: (bool, bool))
    ensures pick == ApplyNewPBits(cfg, g.prevBackward && g.prevL1Miss, kind, taken, e.target < pc, e.pfTarget, e.pfThrough, loc)
    ensures cfg.newPBits ==> !(pick.0 && pick.1)
  {
    pick := ApplyNewPBits(cfg, g.prevBackward && g.prevL1Miss, kind, taken, e.target < pc, e.pfTarget, e.pfThrough, loc);
    if cfg.newPBits {
      NewPBitsPickOne(cfg, g.prevBackward && g.prevL1Miss, kind, taken, e.target < pc, e.pfTarget, e.pfThrough, loc);
    }
  }

  /** A trigger changes nothing, or follows its pick. */
  lemma TriggerFollows(cfg: Config, v: Levels, g: Engine, now: nat, bbMap: Option<BlockMap>, pc: Addr, kind: BranchType,
                       e: Entry, taken: bool, loc: Location, base: nat, l1Miss: bool, pick: (bool, bool))
    requires cfg.Valid()
    requires pick == ApplyNewPBits(cfg, g.prevBackward && g.prevL1Miss, kind, taken, e.target < pc, e.pfTarget, e.pfThrough, loc)
    ensures var g' := Trigger(cfg, v, g, now, bbMap, pc, kind, e, taken, loc, base, l1Miss);
            g' == g || (&& bbMap.Some?
                        && g' == FollowPath(cfg, v, g.(prevBackward := e.target < pc, prevL1Miss := l1Miss), now, bbMap.value,
                                            kind, e.target, pc + cfg.minInstSize, pick, base))
  {
  }

  lemma TriggerKeepsBudget(cfg: Config, v: Levels, g: Engine, now: nat, bbMap: Option<BlockMap>, pc: Addr, kind: BranchType,
                           e: Entry, taken: bool, loc: Location, base: nat, l1Miss: bool, c: nat)
    requires cfg.Valid() && WithinBudget(cfg, g, c)
    ensures WithinBudget(cfg, Trigger(cfg, v, g, now, bbMap, pc, kind, e, taken, loc, base, l1Miss), c)
  {
    var pick := PickOk(cfg, g, pc, kind, e, taken, loc);
    TriggerFollows(cfg, v, g, now, bbMap, pc, kind, e, taken, loc, base, l1Miss, pick);
    var g' := Trigger(cfg, v, g, now, bbMap, pc, kind, e, taken, loc, base, l1Miss);
    if g' != g {
      SeenKeepsBudget(cfg, g, e.target < pc, l1Miss, c);
      FollowPathKeepsBudget(cfg, v, g.(prevBackward := e.target < pc, prevL1Miss := l1Miss), now, bbMap.value, kind,
                            e.target, pc + cfg.minInstSize, pick, base, c);
    }
  }

  lemma LookupKeepsBudget(cfg: Config, s: State, op: Op, c: nat)
    requires cfg.Valid() && op.LookupOp? && WithinBudget(cfg, s.engine, c)
    ensures WithinBudget(cfg, Lookup(cfg, s, op).engine, c)
  {
    var v := TrainOnLookup(cfg, s, op.blockStart);
    var g := s.engine.(demand := s.engine.demand + {op.pc});
    assert WithinBudget(cfg, g, c);
    var hit := FirstHit(cfg, v, op.pc);
    if hit != Nowhere {
      var e := HitEntry(cfg, v, op.pc);
      TriggerKeepsBudget(cfg, Promote(cfg, v, op.pc, op.w), g, s.now, op.bbMap, op.pc, op.kind, e,
                         if hit == InL1 || hit == InBuffer then op.basePrediction else op.taken,
                         TriggerAt(hit), TriggerBase(cfg, hit, e, s.now), hit != InL1, c);
    }
  }

  lemma ResetKeepsBudget(cfg: Config, g: Engine, c: nat)
    requires WithinBudget(cfg, g, c)
    ensures WithinBudget(cfg, g.(queue := [], chains := seq(cfg.maxChains, _ => Chain(0, 0))), c)
  {
    IssuedWithinBudget(cfg, Pending(g, [], c), multiset(g.issued)[c], SlotBudget(cfg, g.chains, c));
  }

  lemma StepKeepsBudget(cfg: Config, s: State, op: Op, c: nat)
    requires cfg.Valid() && Enabled(cfg, s, op) && WithinBudget(cfg, s.engine, c)
    ensures WithinBudget(cfg, Step(cfg, s, op).engine, c)
  {
    match op {
      case LookupOp(_, _, _, _, _, _, _, _, _) => LookupKeepsBudget(cfg, s, op, c);
      case CycleOp(blocks, victims) => CycleKeepsBudget(cfg, s, blocks, victims, c);
      case InvalidateOp => ResetKeepsBudget(cfg, s.engine, c);
      case _ =>
    }
  }

  lemma {:induction false} RunKeepsBudget(cfg: Config, s: State, ops: seq<Op>, c: nat)
    requires cfg.Valid() && Legal(cfg, s, ops) && WithinBudget(cfg, s.engine, c)
    ensures WithinBudget(cfg, Run(cfg, s, ops).engine, c)
    decreases |ops|
  {
    if ops != [] {
      StepKeepsBudget(cfg, s, ops[0], c);
      RunKeepsBudget(cfg, Step(cfg, s, ops[0]), ops[1..], c);
    }
  }

  lemma InitWithinBudget(cfg: Config, c: nat)
    ensures WithinBudget(cfg, Init(cfg).engine, c)
  {
  }

  lemma BudgetBounds(cfg: Config, g: Engine, c: nat)
    requires WithinBudget(cfg, g, c)
    ensures multiset(g.issued)[c] <= Budget(cfg) && InIssueOrder(g.queue)
  {
    IssuedWithinBudget(cfg, Pending(g, [], c), multiset(g.issued)[c], SlotBudget(cfg, g.chains, c));
  }

  /** Over every run from the empty state, no trigger leads to more prefetches than its budget,
      however chains compete for tracker slots, and the deferred queue stays in issue order. */
  lemma ChainsStayWithinBudget(cfg: Config, ops: seq<Op>, c: nat)
    requires cfg.Valid() && Legal(cfg, Init(cfg), ops)
    ensures var g := Run(cfg, Init(cfg), ops).engine;
            multiset(g.issued)[c] <= Budget(cfg) && InIssueOrder(g.queue)
  {
    InitWithinBudget(cfg, c);
    RunKeepsBudget(cfg, Init(cfg), ops, c);
    BudgetBounds(cfg, Run(cfg, Init(cfg), ops).engine, c);
  }
}
