/**
 What entries say when they move: the kind, the direction counter and the training bits of a branch go
 with it between levels, commits and lookups train it, and the Markov prefetcher picks its successor.
 */
module BtbContents {
  import opened Wrappers
  import opened AssociativeCache
  import opened BtbModel
  import opened BtbRuns
  import opened BtbPrefetch

  /** The same branch, with the same target, kind and direction. */
  predicate SameBranch(a: Entry, b: Entry) {
    a.branchAddr == b.branchAddr && a.target == b.target && a.kind == b.kind && a.dir == b.dir
  }

  // ---------------------------------------------------------------- moving up

  /** What a lookup moves to L1 is what it found; its bits are kept, or cleared when it comes from the buffer
      or from L2 and promotion cleans them. */
  lemma PromotionKeepsContents(cfg: Config, v: Levels, pc: Addr, w: Victims)
    requires cfg.Valid() && FirstHit(cfg, v, pc) != Nowhere && FirstHit(cfg, v, pc) != InL1
    ensures cfg.Key1(pc) in Promote(cfg, v, pc, w).l1
    ensures var e, found := Promote(cfg, v, pc, w).l1[cfg.Key1(pc)], HitEntry(cfg, v, pc);
            && SameBranch(e, found)
            && if cfg.cleanBitsOnL1Promotion && FirstHit(cfg, v, pc) != InL3 then !e.pfTarget && !e.pfThrough
               else e.pfTarget == found.pfTarget && e.pfThrough == found.pfThrough
  {
  }

  /** L1, L2 and L3 without the copy that moves up; the non-exclusive hierarchy keeps it. */
  function WithoutCopy(cfg: Config, v: Levels, pc: Addr): Levels
    requires cfg.Valid()
  {
    if cfg.nonexclusive then v
    else if FirstHit(cfg, v, pc) == InL2 then v.(l2 := v.l2 - {cfg.Key2(pc)})
    else if FirstHit(cfg, v, pc) == InL3 then v.(l3 := v.l3 - {cfg.Key3(pc)})
    else v
  }

  lemma InstallMakesRoom(cfg: Config, v: Levels, pc: Addr, e: Entry, w: Victims)
    requires cfg.Valid()
    ensures var v', room := Install(cfg, v, pc, e, w), FreeUpL1(cfg, v, w);
            v'.l2 == room.l2 && v'.l3 == room.l3 && v'.pb == v.pb
  {
  }

  /** Below L1 a lookup takes away the copy it moved up, and makes room for what leaves L1. */
  lemma PromotionTakesCopy(cfg: Config, v: Levels, pc: Addr, w: Victims)
    requires cfg.Valid() && FirstHit(cfg, v, pc) != Nowhere && FirstHit(cfg, v, pc) != InL1
    ensures var v', room := Promote(cfg, v, pc, w), FreeUpL1(cfg, WithoutCopy(cfg, v, pc), w);
            && v'.l2 == room.l2 && v'.l3 == room.l3
            && v'.pb == if FirstHit(cfg, v, pc) == InBuffer then v.pb - {cfg.KeyP(pc)} else v.pb
  {
    var e := HitEntry(cfg, v, pc);
    InstallMakesRoom(cfg, WithoutCopy(cfg, v, pc), pc, Promoted(cfg, pc, e), w);
    InstallMakesRoom(cfg, WithoutCopy(cfg, v, pc), pc, Merge(Blank(pc), e), w);
  }

  // ---------------------------------------------------------------- moving down

  /** An entry written back: as it is, only that the fall-through bit of a copy already there stays set. */
  predicate WrittenBack(before: Level, after: Level, k: Key, e: Entry) {
    && k in after && SameBranch(after[k], e) && after[k].pfTarget == e.pfTarget
    && after[k].pfThrough == (e.pfThrough || (k in before && before[k].pfThrough))
  }

  lemma WriteBackWrites(level: Level, k: Key, victim: Option<Key>, e: Entry)
    ensures WrittenBack(level, WriteBack(level, k, victim, e), k, e)
  {
  }

  /** The victim of L1 arrives in L2, and its copy in L3 when the hierarchy mirrors it. */
  lemma DemotionKeepsContents(cfg: Config, v: Levels, w: Victims)
    requires cfg.Valid() && w.l1.Some? && w.l1.value in v.l1
    ensures var e, v' := v.l1[w.l1.value], FreeUpL1(cfg, v, w);
            && w.l1.value !in v'.l1 && WrittenBack(RestOfL2(cfg, v, e, w), v'.l2, cfg.Key2(e.branchAddr), e)
            && (cfg.nonexclusive && cfg.enableL3 ==>
                  WrittenBack(DemoteL1(cfg, v, w.l1.value, w).l3, v'.l3, cfg.Key3(e.branchAddr), e))
  {
    var e := v.l1[w.l1.value];
    WriteBackWrites(RestOfL2(cfg, v, e, w), cfg.Key2(e.branchAddr), None, e);
    WriteBackWrites(DemoteL1(cfg, v, w.l1.value, w).l3, cfg.Key3(e.branchAddr), w.l3Mirror, e);
  }

  /** L2 without the entry that makes room for `e`, if one has to. */
  function RestOfL2(cfg: Config, v: Levels, e: Entry, w: Victims): Level
    requires cfg.Valid()
  {
    if cfg.Key2(e.branchAddr) in v.l2 then v.l2 else Drop(v.l2, w.l2)
  }

  /** What L2 gives up for it arrives in L3. */
  lemma SpillKeepsContents(cfg: Config, v: Levels, k: Key, w: Victims)
    requires cfg.Valid() && k in v.l1 && cfg.enableL3 && cfg.Key2(v.l1[k].branchAddr) !in v.l2
    requires w.l2.Some? && w.l2.value in v.l2
    ensures var e := v.l2[w.l2.value];
            WrittenBack(v.l3, DemoteL1(cfg, v, k, w).l3, cfg.Key3(e.branchAddr), e)
  {
    WriteBackWrites(v.l3, cfg.Key3(v.l2[w.l2.value].branchAddr), w.l3, v.l2[w.l2.value]);
  }

  // ---------------------------------------------------------------- training

  /** What a commit writes to L1. A new branch starts with its target bit when bits are used; an indirect one
      that changes its target gets both. */
  ghost predicate CommittedEntry(cfg: Config, before: Level, e: Entry, k: Key, pc: Addr, target: Addr, kind: BranchType) {
    && e.target == target && e.kind == kind
    && if k in before then
         var was := before[k];
         var changes := (cfg.trainBitsOnLookup || cfg.trainBitsOnCommit) && cfg.indirectAltBit && was.target != target
                        && (kind == CallIndirect || kind == IndirectCond || kind == IndirectUncond);
         && e.branchAddr == was.branchAddr && e.dir == was.dir
         && e.pfTarget == (was.pfTarget || changes) && e.pfThrough == (was.pfThrough || changes)
       else
         && e.branchAddr == pc && e.dir == 1 && !e.pfThrough
         && e.pfTarget == (cfg.trainBitsOnLookup || cfg.trainBitsOnCommit)
  }

  lemma UpdateCommitsNew(cfg: Config, v: Levels, pc: Addr, target: Addr, kind: BranchType, w: Victims)
    requires cfg.Valid() && cfg.Key1(pc) !in v.l1
    ensures var v', k := Update(cfg, v, pc, target, kind, w), cfg.Key1(pc);
            k in v'.l1 && v'.l1[k] == Entry(pc, target, kind, cfg.UsesBits(), false, 1, 0, NoPrefetch)
  {
  }

  lemma UpdateCommits(cfg: Config, v: Levels, pc: Addr, target: Addr, kind: BranchType, w: Victims)
    requires cfg.Valid()
    ensures var v', k := Update(cfg, v, pc, target, kind, w), cfg.Key1(pc);
            k in v'.l1 && CommittedEntry(cfg, v.l1, v'.l1[k], k, pc, target, kind)
  {
    if cfg.Key1(pc) !in v.l1 {
      UpdateCommitsNew(cfg, v, pc, target, kind, w);
    }
  }

  /** A lookup remembers its branch, and the next one teaches it which successor was fetched: the branch gets
      its target bit exactly when the next block begins at the target that was answered, its fall-through bit
      exactly when it begins behind the branch; nothing else changes. */
  lemma NextBlockTrains(cfg: Config, s: State, op: Op, blockStart: Addr)
    requires cfg.Valid() && cfg.trainBitsOnLookup && op.LookupOp? && op.blockStart != 0 && blockStart != 0
    requires LookupAnswer(cfg, TrainOnLookup(cfg, s, op.blockStart), s.now, op.pc).Answer?
    ensures var answer := LookupAnswer(cfg, TrainOnLookup(cfg, s, op.blockStart), s.now, op.pc);
            var s', k := Lookup(cfg, s, op), cfg.Key1(op.pc);
            var v := TrainOnLookup(cfg, s', blockStart);
            && k in s'.levels.l1 && v.l1.Keys == s'.levels.l1.Keys
            && v == s'.levels.(l1 := s'.levels.l1[k := v.l1[k]])
            && SameBranch(v.l1[k], s'.levels.l1[k])
            && (v.l1[k].pfTarget <==> s'.levels.l1[k].pfTarget || blockStart == answer.target)
            && (v.l1[k].pfThrough <==> s'.levels.l1[k].pfThrough || blockStart == op.pc + cfg.minInstSize)
  {
    LookupEndsInL1(cfg, s, op);
    RemembersAnswer(cfg, s, op);
  }

  /** A branch that is found is remembered, even when the lookup throws. */
  lemma RemembersAnswer(cfg: Config, s: State, op: Op)
    requires cfg.Valid() && cfg.trainBitsOnLookup && op.LookupOp? && op.blockStart != 0
    requires FirstHit(cfg, TrainOnLookup(cfg, s, op.blockStart), op.pc) != Nowhere
    ensures Lookup(cfg, s, op).prevBlock ==
            Some(PrevBlock(op.pc, HitEntry(cfg, TrainOnLookup(cfg, s, op.blockStart), op.pc).target,
                           op.pc + cfg.minInstSize))
  {
  }

  /** Without training at lookup, and before anything was remembered, a lookup trains nothing. */
  lemma NothingTrained(cfg: Config, s: State, blockStart: Addr)
    requires cfg.Valid() && (!cfg.trainBitsOnLookup || blockStart == 0 || s.prevBlock.None?)
    ensures TrainOnLookup(cfg, s, blockStart) == s.levels
  {
  }

  // ---------------------------------------------------------------- the Markov prefetcher

  /** A successor worth prefetching: only L2 has it. */
  predicate WorthFetching(cfg: Config, v: Levels, pc: Addr)
    requires cfg.Valid()
  {
    pc != 0 && cfg.Key1(pc) !in v.l1 && cfg.Key2(pc) in v.l2 && cfg.KeyP(pc) !in v.pb
  }

  /** A successor that is there already, which costs a cycle to find out. */
  predicate AlreadyThere(cfg: Config, v: Levels, pc: Addr)
    requires cfg.Valid()
  {
    pc != 0 && (cfg.Key1(pc) in v.l1 || (cfg.Key2(pc) in v.l2 && cfg.KeyP(pc) in v.pb))
  }

  ghost function Skipped(cfg: Config, v: Levels, successors: seq<Addr>, n: nat): set<int>
    requires cfg.Valid() && n <= |successors|
  {
    set j | 0 <= j < n && AlreadyThere(cfg, v, successors[j])
  }

  /** The first successor worth fetching, and how many before it were there already. */
  ghost predicate IsFirstPick(cfg: Config, v: Levels, successors: seq<Addr>, pick: MarkovPick)
    requires cfg.Valid()
  {
    match pick
    case NoPick => forall j | 0 <= j < |successors| :: !WorthFetching(cfg, v, successors[j])
    case Pick(pc, skipped) => exists i :: FirstAt(cfg, v, successors, i, pc, skipped)
  }

  ghost predicate FirstAt(cfg: Config, v: Levels, successors: seq<Addr>, i: int, pc: Addr, skipped: nat)
    requires cfg.Valid()
  {
    && 0 <= i < |successors| && successors[i] == pc && WorthFetching(cfg, v, pc)
    && (forall j | 0 <= j < i :: !WorthFetching(cfg, v, successors[j]))
    && skipped == |Skipped(cfg, v, successors, i)|
  }

  lemma SkippedMore(cfg: Config, v: Levels, successors: seq<Addr>, n: nat)
    requires cfg.Valid() && n < |successors|
    ensures |Skipped(cfg, v, successors, n + 1)| ==
            |Skipped(cfg, v, successors, n)| + (if AlreadyThere(cfg, v, successors[n]) then 1 else 0)
  {
    assert Skipped(cfg, v, successors, n + 1) ==
           Skipped(cfg, v, successors, n) + (if AlreadyThere(cfg, v, successors[n]) then {n} else {});
  }

  lemma {:induction false} PickFrom(cfg: Config, v: Levels, successors: seq<Addr>, n: nat)
    requires cfg.Valid() && n <= |successors|
    requires forall j | 0 <= j < n :: !WorthFetching(cfg, v, successors[j])
    ensures IsFirstPick(cfg, v, successors, PickMarkov(cfg, v, successors[n..], |Skipped(cfg, v, successors, n)|))
    decreases |successors| - n
  {
    if n < |successors| {
      assert successors[n..][1..] == successors[n + 1..];
      SkippedMore(cfg, v, successors, n);
      if WorthFetching(cfg, v, successors[n]) {
        assert FirstAt(cfg, v, successors, n, successors[n], |Skipped(cfg, v, successors, n)|);
      } else {
        PickFrom(cfg, v, successors, n + 1);
      }
    }
  }

  /** The Markov prefetcher picks the first successor worth fetching. */
  lemma PicksFirst(cfg: Config, v: Levels, successors: seq<Addr>)
    requires cfg.Valid()
    ensures IsFirstPick(cfg, v, successors, PickMarkov(cfg, v, successors, 0))
  {
    assert successors[0..] == successors && Skipped(cfg, v, successors, 0) == {};
    PickFrom(cfg, v, successors, 0);
  }

  /** The copy it makes: as it is in L2, there after the latency of L2, what the trigger took, and a cycle
      for each successor skipped. */
  lemma HopCopies(cfg: Config, v: Levels, now: nat, table: MarkovTable, pc: Addr, base: nat, victim: Option<Key>)
    requires cfg.Valid() && pc in table
    ensures HopMarkov(cfg, v, now, table, pc, base, victim).NoHop? <==>
            forall j | 0 <= j < |table[pc]| :: !WorthFetching(cfg, v, table[pc][j])
    ensures var hop := HopMarkov(cfg, v, now, table, pc, base, victim);
            hop.Hop? ==>
              exists i :: && 0 <= i < |table[pc]|
                          && FirstAt(cfg, v, table[pc], i, hop.pc, |Skipped(cfg, v, table[pc], i)|)
                          && CopyOfL2(cfg, v, hop.levels, hop.pc, now, base + |Skipped(cfg, v, table[pc], i)|, victim)
                          && hop.charged == cfg.l2Latency + base + |Skipped(cfg, v, table[pc], i)|
  {
    PicksFirst(cfg, v, table[pc]);
    PickedIsMissing(cfg, v, table[pc], 0);
    var pick := PickMarkov(cfg, v, table[pc], 0);
    if pick.Pick? {
      var i :| FirstAt(cfg, v, table[pc], i, pick.pc, pick.skipped);
      assert CopyOfL2(cfg, v, HopMarkov(cfg, v, now, table, pc, base, victim).levels, pick.pc, now, base + pick.skipped, victim);
    }
  }

  ghost predicate CopyOfL2(cfg: Config, v: Levels, v': Levels, pc: Addr, now: nat, extra: nat, victim: Option<Key>)
    requires cfg.Valid()
  {
    var k := cfg.KeyP(pc);
    && v'.l1 == v.l1 && v'.l2 == v.l2 && v'.l3 == v.l3 && cfg.Key2(pc) in v.l2
    && k in v'.pb && v'.pb == Drop(v.pb, victim)[k := v'.pb[k]]
    && var copy, e := v'.pb[k], v.l2[cfg.Key2(pc)];
       && copy.branchAddr == pc && copy.target == e.target && copy.kind == e.kind && copy.dir == e.dir
       && copy.pfTarget == e.pfTarget && copy.pfThrough == e.pfThrough
       && copy.readyAt == now + cfg.l2Latency + extra && copy.origin == ByMarkov(now, extra)
  }

  /** How far the chain of successors goes. */
  function Reach(depth: nat): nat {
    if depth > 2 then depth - 1 else 1
  }

  lemma HopAddsOne(cfg: Config, v: Levels, now: nat, table: MarkovTable, pc: Addr, base: nat, victim: Option<Key>)
    requires cfg.Valid() && HopMarkov(cfg, v, now, table, pc, base, victim).Hop?
    ensures var hop := HopMarkov(cfg, v, now, table, pc, base, victim);
            hop.levels.pb.Keys - v.pb.Keys <= {cfg.KeyP(hop.pc)}
  {
  }

  lemma OneMore(a: set<Key>, b: set<Key>, c: set<Key>, k: Key)
    requires b - a <= {k}
    ensures |c - a| <= |c - b| + 1
  {
    AtMost(c - a, (c - b) + {k});
  }

  lemma AtMost(a: set<Key>, b: set<Key>)
    requires a <= b
    ensures |a| <= |b|
  {
    assert b == a + (b - a);
  }

  lemma {:induction false} MarkovReaches(cfg: Config, v: Levels, now: nat, table: MarkovTable, pc: Addr, base: nat, depth: nat,
                                         victims: seq<Option<Key>>)
    requires cfg.Valid()
    ensures |MarkovFill(cfg, v, now, table, pc, base, depth, victims).pb.Keys - v.pb.Keys| <= Reach(depth)
    decreases depth
  {
    var hop := HopMarkov(cfg, v, now, table, pc, base, NextVictim(victims));
    if hop.Hop? {
      HopAddsOne(cfg, v, now, table, pc, base, NextVictim(victims));
      if depth > 2 {
        var filled := MarkovFill(cfg, hop.levels, now, table, hop.pc, hop.charged, depth - 1, LaterVictims(victims));
        MarkovReaches(cfg, hop.levels, now, table, hop.pc, hop.charged, depth - 1, LaterVictims(victims));
        OneMore(v.pb.Keys, hop.levels.pb.Keys, filled.pb.Keys, cfg.KeyP(hop.pc));
      } else {
        AtMost(hop.levels.pb.Keys - v.pb.Keys, {cfg.KeyP(hop.pc)});
      }
    } else {
      assert v.pb.Keys - v.pb.Keys == {};
    }
  }

  /** After a hit in the buffer or in L2 the Markov prefetcher runs, charged what the lookup answered; after
      any other hit nothing is prefetched yet. */
  lemma LookupRunsMarkov(cfg: Config, s: State, op: Op)
    requires cfg.Valid() && op.LookupOp?
    requires LookupAnswer(cfg, TrainOnLookup(cfg, s, op.blockStart), s.now, op.pc).Answer?
    ensures var v := TrainOnLookup(cfg, s, op.blockStart);
            var moved, answer := Promote(cfg, v, op.pc, op.w), LookupAnswer(cfg, v, s.now, op.pc);
            Lookup(cfg, s, op).levels ==
            if cfg.limitedMarkov && FirstHit(cfg, v, op.pc) in {InBuffer, InL2}
            then MarkovFill(cfg, moved, s.now, op.markov, op.pc, answer.latency, cfg.prefetchDepth, op.fills)
            else moved
  {
  }
}
