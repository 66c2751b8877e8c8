/**
 Timing and visibility over whole runs: prefetching never makes a lookup slower than the level it
 spares, the Markov prefetcher apart, and a branch that is reported valid is always found.
 */
module BtbPrefetch {
  import opened Wrappers
  import opened AssociativeCache
  import opened BtbModel
  import opened BtbRuns
  import opened BtbChains

  // ---------------------------------------------------------------- arrival times

  /** A copy of the chain prefetcher arrives when a fetch from its source does that started at its issue
      time, which has come. A copy of the Markov prefetcher arrives its extra delay later than a fetch from
      L2 started when it was made. */
  predicate Arrives(cfg: Config, e: Entry, now: nat) {
    match e.origin
    case NoPrefetch => false
    case ByFerret(fromL3, issued) =>
      && e.readyAt == issued + (if fromL3 then cfg.l3Latency else cfg.l2Latency)
      && (cfg.noPrefetchLatency || issued <= now)
    case ByMarkov(at, extra) => cfg.limitedMarkov && at <= now && e.readyAt == at + cfg.l2Latency + extra
  }

  ghost predicate OnTime(cfg: Config, v: Levels, now: nat) {
    forall k | k in v.pb :: Arrives(cfg, v.pb[k], now)
  }

  lemma {:induction false} DuePrefix(cfg: Config, queue: seq<Deferred>, now: nat)
    ensures DueCount(cfg, queue, now) <= |queue|
    ensures forall i | 0 <= i < DueCount(cfg, queue, now) :: Due(cfg, queue[i], now)
  {
    if queue != [] && Due(cfg, queue[0], now) {
      DuePrefix(cfg, queue[1..], now);
      forall i | 0 <= i < DueCount(cfg, queue, now) ensures Due(cfg, queue[i], now) {
        if i > 0 { assert queue[i] == queue[1..][i - 1]; }
      }
    }
  }

  lemma FillOnTime(cfg: Config, v: Levels, now: nat, pc: Addr, e: Entry, arrival: nat, origin: Origin, victim: Option<Key>)
    requires cfg.Valid() && OnTime(cfg, v, now) && Arrives(cfg, Blank(pc).(readyAt := arrival, origin := origin), now)
    ensures OnTime(cfg, FillBuffer(cfg, v, pc, e, arrival, origin, victim), now)
  {
  }

  lemma {:induction false} ProcessAllOnTime(cfg: Config, s: State, blocks: BlockMap, due: seq<Deferred>,
                                            victims: seq<Option<Key>>)
    requires cfg.Valid() && |s.engine.chains| == cfg.maxChains && |victims| == |due|
    requires OnTime(cfg, s.levels, s.now) && forall i | 0 <= i < |due| :: Due(cfg, due[i], s.now)
    ensures OnTime(cfg, ProcessAll(cfg, s, blocks, due, victims).levels, s.now)
    ensures ProcessAll(cfg, s, blocks, due, victims).now == s.now
    decreases |due|
  {
    if due != [] {
      var d := due[0];
      if Issues(cfg, s, d) {
        var source := PrefetchSource(cfg, s.levels, d.pc);
        assert Due(cfg, d, s.now);
        FillOnTime(cfg, s.levels, s.now, d.pc, source.entry, d.issueTime + source.latency,
                   ByFerret(source.fromL3, d.issueTime), victims[0]);
      }
      ProcessAllOnTime(cfg, ProcessOne(cfg, s, blocks, d, victims[0]), blocks, due[1..], victims[1..]);
    }
  }

  lemma HopOnTime(cfg: Config, v: Levels, now: nat, table: MarkovTable, pc: Addr, base: nat, victim: Option<Key>)
    requires cfg.Valid() && cfg.limitedMarkov && OnTime(cfg, v, now) && HopMarkov(cfg, v, now, table, pc, base, victim).Hop?
    ensures OnTime(cfg, HopMarkov(cfg, v, now, table, pc, base, victim).levels, now)
  {
    PickedIsMissing(cfg, v, table[pc], 0);
    var p := PickMarkov(cfg, v, table[pc], 0);
    var extra := base + p.skipped;
    FillOnTime(cfg, v, now, p.pc, v.l2[cfg.Key2(p.pc)], now + cfg.l2Latency + extra, ByMarkov(now, extra), victim);
  }

  lemma {:induction false} MarkovOnTime(cfg: Config, v: Levels, now: nat, table: MarkovTable, pc: Addr, base: nat, depth: nat,
                                        victims: seq<Option<Key>>)
    requires cfg.Valid() && cfg.limitedMarkov && OnTime(cfg, v, now)
    ensures OnTime(cfg, MarkovFill(cfg, v, now, table, pc, base, depth, victims), now)
    decreases depth
  {
    var hop := HopMarkov(cfg, v, now, table, pc, base, NextVictim(victims));
    if hop.Hop? {
      HopOnTime(cfg, v, now, table, pc, base, NextVictim(victims));
      if depth > 2 {
        MarkovOnTime(cfg, hop.levels, now, table, hop.pc, hop.charged, depth - 1, LaterVictims(victims));
      }
    }
  }

  lemma FreeUpKeepsBuffer(cfg: Config, v: Levels, w: Victims)
    requires cfg.Valid()
    ensures FreeUpL1(cfg, v, w).pb == v.pb
  {
  }

  lemma PromoteShrinksBuffer(cfg: Config, v: Levels, pc: Addr, w: Victims)
    requires cfg.Valid()
    ensures forall k | k in Promote(cfg, v, pc, w).pb :: k in v.pb && Promote(cfg, v, pc, w).pb[k] == v.pb[k]
  {
    FreeUpKeepsBuffer(cfg, v, w);
    FreeUpKeepsBuffer(cfg, WithoutL2(cfg, v, cfg.Key2(pc)), w);
    FreeUpKeepsBuffer(cfg, WithoutL3(cfg, v, cfg.Key3(pc)), w);
  }

  lemma {:induction false} MarkovKeepsL1(cfg: Config, v: Levels, now: nat, table: MarkovTable, pc: Addr, base: nat, depth: nat,
                                         victims: seq<Option<Key>>)
    requires cfg.Valid()
    ensures MarkovFill(cfg, v, now, table, pc, base, depth, victims).l1 == v.l1
    decreases depth
  {
    var hop := HopMarkov(cfg, v, now, table, pc, base, NextVictim(victims));
    if hop.Hop? && depth > 2 {
      MarkovKeepsL1(cfg, hop.levels, now, table, hop.pc, hop.charged, depth - 1, LaterVictims(victims));
    }
  }

  /** What a lookup found is in L1 afterwards. */
  lemma LookupEndsInL1(cfg: Config, s: State, op: Op)
    requires cfg.Valid() && op.LookupOp?
    requires LookupAnswer(cfg, TrainOnLookup(cfg, s, op.blockStart), s.now, op.pc).Answer?
    ensures cfg.Key1(op.pc) in Lookup(cfg, s, op).levels.l1
  {
    var v := TrainOnLookup(cfg, s, op.blockStart);
    var hit, e := FirstHit(cfg, v, op.pc), HitEntry(cfg, v, op.pc);
    MarkovKeepsL1(cfg, Promote(cfg, v, op.pc, op.w), s.now, op.markov, op.pc, TriggerBase(cfg, hit, e, s.now),
                  cfg.prefetchDepth, op.fills);
  }

  lemma LookupOnTime(cfg: Config, s: State, op: Op)
    requires cfg.Valid() && op.LookupOp? && OnTime(cfg, s.levels, s.now)
    ensures OnTime(cfg, Lookup(cfg, s, op).levels, s.now)
  {
    var v := TrainOnLookup(cfg, s, op.blockStart);
    PromoteShrinksBuffer(cfg, v, op.pc, op.w);
    var hit := FirstHit(cfg, v, op.pc);
    if cfg.limitedMarkov && (hit == InBuffer || hit == InL2) {
      var e := HitEntry(cfg, v, op.pc);
      MarkovOnTime(cfg, Promote(cfg, v, op.pc, op.w), s.now, op.markov, op.pc, TriggerBase(cfg, hit, e, s.now),
                   cfg.prefetchDepth, op.fills);
    }
  }

  lemma StepOnTime(cfg: Config, s: State, op: Op)
    requires cfg.Valid() && Enabled(cfg, s, op) && OnTime(cfg, s.levels, s.now)
    ensures OnTime(cfg, Step(cfg, s, op).levels, Step(cfg, s, op).now)
  {
    match op {
      case LookupOp(_, _, _, _, _, _, _, _, _) => LookupOnTime(cfg, s, op);
      case UpdateOp(pc, target, kind, w) =>
        FreeUpKeepsBuffer(cfg, s.levels, w);
      case CycleOp(blocks, victims) =>
        DuePrefix(cfg, s.engine.queue, s.now);
        var n := DueCount(cfg, s.engine.queue, s.now);
        ProcessAllOnTime(cfg, s.(engine := s.engine.(queue := s.engine.queue[n..])), blocks, s.engine.queue[..n], victims);
      case _ =>
    }
  }

  lemma {:induction false} RunOnTime(cfg: Config, s: State, ops: seq<Op>)
    requires cfg.Valid() && Legal(cfg, s, ops) && OnTime(cfg, s.levels, s.now)
    ensures OnTime(cfg, Run(cfg, s, ops).levels, Run(cfg, s, ops).now)
    decreases |ops|
  {
    if ops != [] {
      StepOnTime(cfg, s, ops[0]);
      RunOnTime(cfg, Step(cfg, s, ops[0]), ops[1..]);
    }
  }

  /** A copy of the Markov prefetcher is still further away than L2 would be: its extra delay has not
      passed since it was made. */
  predicate MarkovPending(cfg: Config, e: Entry, now: nat) {
    !cfg.noPrefetchLatency && e.origin.ByMarkov? && now < e.origin.at + e.origin.extra
  }

  /** What the level takes that has the branch; for a prefetched copy, the level it was copied from. */
  function LatencyOf(cfg: Config, hit: HitLevel, e: Entry): nat
    requires hit != Nowhere
  {
    match hit
    case InL1 => cfg.l1Latency
    case InBuffer => SourceLatency(cfg, e)
    case InL2 => cfg.l2Latency
    case InL3 => cfg.l3Latency
  }

  lemma AnswerThrowsIff(cfg: Config, e: Entry, hit: HitLevel, now: nat)
    requires hit != Nowhere && (hit == InBuffer ==> Arrives(cfg, e, now))
    ensures AnswerOf(cfg, hit, e, now) == Threw <==> hit == InBuffer && MarkovPending(cfg, e, now)
    ensures AnswerOf(cfg, hit, e, now) != Threw ==> AnswerOf(cfg, hit, e, now).latency <= LatencyOf(cfg, hit, e)
  {
  }

  /** Over every run: a lookup throws if and only if it hits a copy of the Markov prefetcher whose extra
      delay has not passed; every other hit in the buffer takes no longer than its source would have. */
  lemma LookupThrowsIff(cfg: Config, ops: seq<Op>, pc: Addr)
    requires cfg.Valid() && Legal(cfg, Init(cfg), ops)
    ensures var s := Run(cfg, Init(cfg), ops);
            && (LookupAnswer(cfg, s.levels, s.now, pc) == Threw <==>
                  FirstHit(cfg, s.levels, pc) == InBuffer && MarkovPending(cfg, HitEntry(cfg, s.levels, pc), s.now))
            && (FirstHit(cfg, s.levels, pc) == InBuffer && LookupAnswer(cfg, s.levels, s.now, pc) != Threw ==>
                  LookupAnswer(cfg, s.levels, s.now, pc).latency <= SourceLatency(cfg, HitEntry(cfg, s.levels, pc)))
  {
    RunOnTime(cfg, Init(cfg), ops);
    var s := Run(cfg, Init(cfg), ops);
    if FirstHit(cfg, s.levels, pc) != Nowhere {
      AnswerThrowsIff(cfg, HitEntry(cfg, s.levels, pc), FirstHit(cfg, s.levels, pc), s.now);
    }
  }

  predicate ReadyBy(e: Entry, time: nat) {
    e.readyAt <= time
  }

  /** The wait for a copy: the fewest cycles until it is ready. */
  ghost predicate IsWait(cfg: Config, e: Entry, now: nat, wait: nat) {
    if cfg.noPrefetchLatency then wait == 0
    else ReadyBy(e, now + wait) && forall t: nat | now <= t < now + wait :: !ReadyBy(e, t)
  }

  /** The answer by where the branch is: the target of the first copy in the order L1, buffer, L2, L3, after
      exactly the latency of its level, or the wait for a copy in flight. */
  ghost predicate AnswersExactly(cfg: Config, v: Levels, now: nat, pc: Addr, answer: Answer)
    requires cfg.Valid()
  {
    var k1, kp, k2, k3 := cfg.Key1(pc), cfg.KeyP(pc), cfg.Key2(pc), cfg.Key3(pc);
    var buffered := (cfg.limitedMarkov || cfg.trainBitsOnLookup || cfg.trainBitsOnCommit) && kp in v.pb;
    && (k1 in v.l1 ==> answer == Answer(v.l1[k1].target, cfg.l1Latency))
    && (k1 !in v.l1 && buffered && answer.Answer? ==>
          answer.target == v.pb[kp].target && IsWait(cfg, v.pb[kp], now, answer.latency))
    && (k1 !in v.l1 && buffered ==> (answer.Answer? <==> !MarkovPending(cfg, v.pb[kp], now)))
    && (k1 !in v.l1 && !buffered && k2 in v.l2 ==> answer == Answer(v.l2[k2].target, cfg.l2Latency))
    && (k1 !in v.l1 && !buffered && k2 !in v.l2 && cfg.enableL3 && k3 in v.l3 ==>
          answer == Answer(v.l3[k3].target, cfg.l3Latency))
    && (k1 !in v.l1 && !buffered && k2 !in v.l2 && !(cfg.enableL3 && k3 in v.l3) ==> answer == Panicked)
  }

  lemma AnswerIsExact(cfg: Config, v: Levels, now: nat, pc: Addr)
    requires cfg.Valid() && OnTime(cfg, v, now)
    ensures AnswersExactly(cfg, v, now, pc, LookupAnswer(cfg, v, now, pc))
  {
    if FirstHit(cfg, v, pc) != Nowhere {
      AnswerThrowsIff(cfg, HitEntry(cfg, v, pc), FirstHit(cfg, v, pc), now);
    }
  }

  /** Over every run, a lookup answers exactly so. */
  lemma LookupsAnswerExactly(cfg: Config, ops: seq<Op>, pc: Addr)
    requires cfg.Valid() && Legal(cfg, Init(cfg), ops)
    ensures var s := Run(cfg, Init(cfg), ops);
            AnswersExactly(cfg, s.levels, s.now, pc, LookupAnswer(cfg, s.levels, s.now, pc))
  {
    RunOnTime(cfg, Init(cfg), ops);
    AnswerIsExact(cfg, Run(cfg, Init(cfg), ops).levels, Run(cfg, Init(cfg), ops).now, pc);
  }

  /** Over every run, a copy of the chain prefetcher is answered at the later of now and the time its issue
      time and the latency of its source come to. */
  lemma ChainCopiesAnswerOnTime(cfg: Config, ops: seq<Op>, pc: Addr)
    requires cfg.Valid() && Legal(cfg, Init(cfg), ops) && !cfg.noPrefetchLatency
    requires var s := Run(cfg, Init(cfg), ops);
             FirstHit(cfg, s.levels, pc) == InBuffer && HitEntry(cfg, s.levels, pc).origin.ByFerret?
    ensures var s := Run(cfg, Init(cfg), ops);
            var origin, answer := HitEntry(cfg, s.levels, pc).origin, LookupAnswer(cfg, s.levels, s.now, pc);
            var arrival := origin.issued + (if origin.fromL3 then cfg.l3Latency else cfg.l2Latency);
            answer.Answer? && s.now + answer.latency == if arrival > s.now then arrival else s.now
  {
    RunOnTime(cfg, Init(cfg), ops);
    var s := Run(cfg, Init(cfg), ops);
    AnswerThrowsIff(cfg, HitEntry(cfg, s.levels, pc), InBuffer, s.now);
  }

  /** With the chain prefetcher alone, no lookup of any run throws. */
  lemma PrefetchNeverDelays(cfg: Config, ops: seq<Op>, pc: Addr)
    requires cfg.Valid() && Legal(cfg, Init(cfg), ops) && !cfg.limitedMarkov
    ensures var s := Run(cfg, Init(cfg), ops);
            && LookupAnswer(cfg, s.levels, s.now, pc) != Threw
            && (FirstHit(cfg, s.levels, pc) == InBuffer ==>
                  LookupAnswer(cfg, s.levels, s.now, pc).latency <= SourceLatency(cfg, HitEntry(cfg, s.levels, pc)))
  {
    RunOnTime(cfg, Init(cfg), ops);
    LookupThrowsIff(cfg, ops, pc);
  }

  /** Every copy that the Markov prefetcher adds is charged at least what its trigger was charged. */
  ghost predicate ChargedFrom(v: Levels, filled: Levels, now: nat, base: nat) {
    forall k | k in filled.pb ::
      || (k in v.pb && filled.pb[k] == v.pb[k])
      || (filled.pb[k].origin.ByMarkov? && filled.pb[k].origin.at == now && filled.pb[k].origin.extra >= base)
  }

  lemma HopCharges(cfg: Config, v: Levels, now: nat, table: MarkovTable, pc: Addr, base: nat, victim: Option<Key>)
    requires cfg.Valid() && HopMarkov(cfg, v, now, table, pc, base, victim).Hop?
    ensures var hop := HopMarkov(cfg, v, now, table, pc, base, victim);
            ChargedFrom(v, hop.levels, now, base) && hop.charged >= base + cfg.l2Latency
  {
    PickedIsMissing(cfg, v, table[pc], 0);
  }

  lemma {:induction false} MarkovCharges(cfg: Config, v: Levels, now: nat, table: MarkovTable, pc: Addr, base: nat, depth: nat,
                                         victims: seq<Option<Key>>)
    requires cfg.Valid()
    ensures ChargedFrom(v, MarkovFill(cfg, v, now, table, pc, base, depth, victims), now, base)
    decreases depth
  {
    var hop := HopMarkov(cfg, v, now, table, pc, base, NextVictim(victims));
    if hop.Hop? {
      HopCharges(cfg, v, now, table, pc, base, NextVictim(victims));
      if depth > 2 {
        MarkovCharges(cfg, hop.levels, now, table, hop.pc, hop.charged, depth - 1, LaterVictims(victims));
      }
    }
  }

  /** After a hit in L2, whatever the Markov prefetcher has brought along throws when it is looked up
      within the latency of L2. */
  lemma MarkovAfterL2HitThrows(cfg: Config, s: State, op: Op, pc: Addr, now: nat)
    requires cfg.Valid() && op.LookupOp? && cfg.limitedMarkov && !cfg.noPrefetchLatency && OnTime(cfg, s.levels, s.now)
    requires FirstHit(cfg, TrainOnLookup(cfg, s, op.blockStart), op.pc) == InL2
    requires var v := Lookup(cfg, s, op).levels;
             FirstHit(cfg, v, pc) == InBuffer && HitEntry(cfg, v, pc) !in s.levels.pb.Values
    requires s.now <= now < s.now + cfg.l2Latency
    ensures LookupAnswer(cfg, Lookup(cfg, s, op).levels, now, pc) == Threw
  {
    LookupOnTime(cfg, s, op);
    var v := TrainOnLookup(cfg, s, op.blockStart);
    var moved, e := Promote(cfg, v, op.pc, op.w), HitEntry(cfg, v, op.pc);
    MarkovCharges(cfg, moved, s.now, op.markov, op.pc, TriggerBase(cfg, InL2, e, s.now), cfg.prefetchDepth, op.fills);
    PromoteShrinksBuffer(cfg, v, op.pc, op.w);
    var copy := HitEntry(cfg, Lookup(cfg, s, op).levels, pc);
    assert copy.origin.ByMarkov? && copy.origin.extra >= cfg.l2Latency;
  }

  // ---------------------------------------------------------------- a valid branch is found

  ghost predicate NoBits(level: Level) {
    forall k | k in level :: !level[k].pfTarget && !level[k].pfThrough
  }

  ghost predicate Untrained(v: Levels) {
    NoBits(v.l1) && NoBits(v.l2) && NoBits(v.l3)
  }

  /** Without any prefetching policy nothing is ever trained, deferred or buffered. */
  ghost predicate Quiet(cfg: Config, s: State) {
    !cfg.LooksInBuffer() ==> s.levels.pb == map[] && s.engine.queue == [] && Untrained(s.levels)
  }

  lemma WriteBackNoBits(level: Level, k: Key, victim: Option<Key>, e: Entry)
    requires NoBits(level) && !e.pfTarget && !e.pfThrough
    ensures NoBits(WriteBack(level, k, victim, e))
  {
  }

  lemma SpillNoBits(cfg: Config, v: Levels, w2: Option<Key>, w3: Option<Key>)
    requires cfg.Valid() && Untrained(v)
    ensures Untrained(SpillL2(cfg, v, w2, w3))
  {
    if w2.Some? && w2.value in v.l2 {
      WriteBackNoBits(v.l3, cfg.Key3(v.l2[w2.value].branchAddr), w3, v.l2[w2.value]);
    }
  }

  lemma DemoteNoBits(cfg: Config, v: Levels, k: Key, w: Victims)
    requires cfg.Valid() && Untrained(v) && k in v.l1
    ensures Untrained(DemoteL1(cfg, v, k, w))
  {
    var k2 := cfg.Key2(v.l1[k].branchAddr);
    var room := if k2 in v.l2 then v else SpillL2(cfg, v, w.l2, w.l3);
    SpillNoBits(cfg, v, w.l2, w.l3);
    WriteBackNoBits(room.l2, k2, None, v.l1[k]);
  }

  lemma FreeUpNoBits(cfg: Config, v: Levels, w: Victims)
    requires cfg.Valid() && Untrained(v)
    ensures Untrained(FreeUpL1(cfg, v, w))
  {
    if w.l1.Some? && w.l1.value in v.l1 {
      DemoteNoBits(cfg, v, w.l1.value, w);
      var e := v.l1[w.l1.value];
      WriteBackNoBits(DemoteL1(cfg, v, w.l1.value, w).l3, cfg.Key3(e.branchAddr), w.l3Mirror, e);
    }
  }

  lemma InstallNoBits(cfg: Config, v: Levels, pc: Addr, e: Entry, w: Victims)
    requires cfg.Valid() && Untrained(v) && !e.pfTarget && !e.pfThrough
    ensures Untrained(Install(cfg, v, pc, e, w)) && Install(cfg, v, pc, e, w).pb == v.pb
  {
    FreeUpNoBits(cfg, v, w);
    FreeUpKeepsBuffer(cfg, v, w);
  }

  lemma PromoteNoBits(cfg: Config, v: Levels, pc: Addr, w: Victims)
    requires cfg.Valid() && !cfg.LooksInBuffer() && Untrained(v)
    ensures Untrained(Promote(cfg, v, pc, w)) && Promote(cfg, v, pc, w).pb == v.pb
  {
    match FirstHit(cfg, v, pc)
    case InL2 => InstallNoBits(cfg, WithoutL2(cfg, v, cfg.Key2(pc)), pc, Promoted(cfg, pc, v.l2[cfg.Key2(pc)]), w);
    case InL3 => InstallNoBits(cfg, WithoutL3(cfg, v, cfg.Key3(pc)), pc, Merge(Blank(pc), v.l3[cfg.Key3(pc)]), w);
    case _ =>
  }

  lemma UpdateNoBits(cfg: Config, v: Levels, pc: Addr, target: Addr, kind: BranchType, w: Victims)
    requires cfg.Valid() && !cfg.UsesBits() && Untrained(v)
    ensures Untrained(Update(cfg, v, pc, target, kind, w)) && Update(cfg, v, pc, target, kind, w).pb == v.pb
  {
    if cfg.Key1(pc) !in v.l1 {
      InstallNoBits(cfg, v, pc, Blank(pc).(target := target, kind := kind, pfTarget := cfg.UsesBits()), w);
    }
  }

  lemma QuietTrigger(cfg: Config, v: Levels, g: Engine, now: nat, bbMap: Option<BlockMap>, pc: Addr, kind: BranchType,
                     e: Entry, taken: bool, loc: Location, base: nat, l1Miss: bool)
    requires cfg.Valid() && !e.pfTarget && !e.pfThrough && !cfg.UsesBits() && loc != AtBuffer
    ensures Trigger(cfg, v, g, now, bbMap, pc, kind, e, taken, loc, base, l1Miss).queue == g.queue
  {
  }

  lemma LookupStaysQuiet(cfg: Config, s: State, op: Op)
    requires cfg.Valid() && op.LookupOp? && Quiet(cfg, s)
    ensures Quiet(cfg, Lookup(cfg, s, op))
  {
    if !cfg.LooksInBuffer() {
      var v := s.levels;
      assert TrainOnLookup(cfg, s, op.blockStart) == v;
      PromoteNoBits(cfg, v, op.pc, op.w);
      var hit := FirstHit(cfg, v, op.pc);
      if hit != Nowhere {
        var e := HitEntry(cfg, v, op.pc);
        assert !e.pfTarget && !e.pfThrough && hit != InBuffer;
        QuietTrigger(cfg, Promote(cfg, v, op.pc, op.w), s.engine.(demand := s.engine.demand + {op.pc}), s.now, op.bbMap,
                     op.pc, op.kind, e, if hit == InL1 || hit == InBuffer then op.basePrediction else op.taken,
                     TriggerAt(hit), TriggerBase(cfg, hit, e, s.now), hit != InL1);
      }
    }
  }

  lemma StepStaysQuiet(cfg: Config, s: State, op: Op)
    requires cfg.Valid() && Enabled(cfg, s, op) && Quiet(cfg, s)
    ensures Quiet(cfg, Step(cfg, s, op))
  {
    match op {
      case LookupOp(_, _, _, _, _, _, _, _, _) => LookupStaysQuiet(cfg, s, op);
      case UpdateOp(pc, target, kind, w) =>
        if !cfg.LooksInBuffer() { UpdateNoBits(cfg, s.levels, pc, target, kind, w); }
      case CycleOp(blocks, victims) =>
        if !cfg.LooksInBuffer() { assert s.engine.queue[..0] == []; }
      case _ =>
    }
  }

  lemma {:induction false} RunStaysQuiet(cfg: Config, s: State, ops: seq<Op>)
    requires cfg.Valid() && Legal(cfg, s, ops) && Quiet(cfg, s)
    ensures Quiet(cfg, Run(cfg, s, ops))
    decreases |ops|
  {
    if ops != [] {
      StepStaysQuiet(cfg, s, ops[0]);
      RunStaysQuiet(cfg, Step(cfg, s, ops[0]), ops[1..]);
    }
  }

  /** After any run, a branch that the quick check reports is found by the lookup: the panic at
      the end of the lookup is unreachable. */
  lemma ValidBranchesAreFound(cfg: Config, ops: seq<Op>, pc: Addr)
    requires cfg.Valid() && Legal(cfg, Init(cfg), ops)
    ensures var s := Run(cfg, Init(cfg), ops);
            ValidBranch(cfg, s.levels, pc) <==> LookupAnswer(cfg, s.levels, s.now, pc) != Panicked
  {
    RunStaysQuiet(cfg, Init(cfg), ops);
  }
}
