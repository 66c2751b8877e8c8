/**
 Which levels hold a branch at the same time. The exclusive hierarchy is meant to hold a branch once, the
 other one to keep every branch of L2 in L3 as well. Neither is kept by every operation: this module says
 exactly which operations break it.
 */
module BtbInclusion {
  import opened Wrappers
  import opened AssociativeCache
  import opened BtbModel
  import opened BtbRuns
  import opened BtbCoherence

  predicate In1(cfg: Config, v: Levels, a: Addr)
    requires cfg.Valid()
  {
    cfg.Key1(a) in v.l1
  }

  predicate In2(cfg: Config, v: Levels, a: Addr)
    requires cfg.Valid()
  {
    cfg.Key2(a) in v.l2
  }

  predicate In3(cfg: Config, v: Levels, a: Addr)
    requires cfg.Valid()
  {
    cfg.enableL3 && cfg.Key3(a) in v.l3
  }

  /** The same branches are in L1, in L2 and in L3. */
  ghost predicate SamePlaces(v: Levels, v': Levels) {
    v'.l1.Keys == v.l1.Keys && v'.l2.Keys == v.l2.Keys && v'.l3.Keys == v.l3.Keys
  }

  /** At most one of L1, L2 and L3 has the branch. */
  predicate Single(cfg: Config, v: Levels, a: Addr)
    requires cfg.Valid()
  {
    && !(In1(cfg, v, a) && In2(cfg, v, a)) && !(In1(cfg, v, a) && In3(cfg, v, a))
    && !(In2(cfg, v, a) && In3(cfg, v, a))
  }

  /** No branch is in two levels. */
  ghost predicate NonRedundant(cfg: Config, U: set<Addr>, v: Levels)
    requires cfg.Valid()
  {
    forall a | a in U :: Single(cfg, v, a)
  }

  /** Every branch of L2 is in L3. */
  ghost predicate Inclusive(cfg: Config, U: set<Addr>, v: Levels)
    requires cfg.Valid()
  {
    forall a | a in U && In2(cfg, v, a) :: In3(cfg, v, a)
  }

  /** The policy gave up an entry, not an empty way. */
  predicate Hits(level: Level, victim: Option<Key>) {
    victim.Some? && victim.value in level
  }

  // ---------------------------------------------------------------- the exclusive hierarchy: making room

  lemma SpillPlaces(cfg: Config, U: set<Addr>, v: Levels, w2: Option<Key>, w3: Option<Key>, a: Addr)
    requires cfg.Valid() && ToldApart(cfg, U) && AllKeyed(cfg, U, v) && NonRedundant(cfg, U, v) && a in U && Hits(v.l2, w2)
    ensures var v' := SpillL2(cfg, v, w2, w3);
            && (In2(cfg, v', a) <==> In2(cfg, v, a) && w2 != Some(cfg.Key2(a)))
            && (In3(cfg, v', a) <==>
                  cfg.enableL3 && (w2 == Some(cfg.Key2(a)) || (In3(cfg, v, a) && w3 != Some(cfg.Key3(a)))))
  {
    var y := v.l2[w2.value].branchAddr;
    assert In2(cfg, v, y) && Single(cfg, v, y);
    assert cfg.Key2(a) == cfg.Key2(y) ==> a == y;
    assert cfg.Key3(a) == cfg.Key3(y) ==> a == y;
  }

  /** Making room moves the victim of L1 down to L2 and that of L2 to L3; the victim of L3 is gone. */
  lemma FreeUpPlaces(cfg: Config, U: set<Addr>, v: Levels, w: Victims, a: Addr)
    requires cfg.Valid() && ToldApart(cfg, U) && AllKeyed(cfg, U, v) && NonRedundant(cfg, U, v) && a in U
    requires !cfg.nonexclusive && Hits(v.l1, w.l1)
    ensures var v', spills := FreeUpL1(cfg, v, w), Hits(v.l2, w.l2);
            && (In1(cfg, v', a) <==> In1(cfg, v, a) && w.l1 != Some(cfg.Key1(a)))
            && (In2(cfg, v', a) <==> w.l1 == Some(cfg.Key1(a)) || (In2(cfg, v, a) && !(spills && w.l2 == Some(cfg.Key2(a)))))
            && (In3(cfg, v', a) <==>
                  || (In3(cfg, v, a) && !(spills && w.l3 == Some(cfg.Key3(a))))
                  || (cfg.enableL3 && spills && w.l2 == Some(cfg.Key2(a))))
  {
    var x := v.l1[w.l1.value].branchAddr;
    assert In1(cfg, v, x) && Single(cfg, v, x);
    assert cfg.Key1(a) == cfg.Key1(x) ==> a == x;
    assert cfg.Key2(a) == cfg.Key2(x) ==> a == x;
    assert Single(cfg, v, a);
    if Hits(v.l2, w.l2) {
      SpillPlaces(cfg, U, v, w.l2, w.l3, a);
    }
  }

  lemma FreeUpKeepsSingle(cfg: Config, U: set<Addr>, v: Levels, w: Victims, a: Addr)
    requires cfg.Valid() && ToldApart(cfg, U) && AllKeyed(cfg, U, v) && NonRedundant(cfg, U, v) && a in U && !cfg.nonexclusive
    ensures Single(cfg, FreeUpL1(cfg, v, w), a)
  {
    assert Single(cfg, v, a);
    if Hits(v.l1, w.l1) {
      FreeUpPlaces(cfg, U, v, w, a);
    }
  }

  // ---------------------------------------------------------------- the exclusive hierarchy: installing

  /** A copy of the branch is below L1. */
  predicate Below(cfg: Config, v: Levels, pc: Addr)
    requires cfg.Valid()
  {
    In2(cfg, v, pc) || In3(cfg, v, pc)
  }

  /** Making room pushes that copy out of the hierarchy: L2 gives it up and there is no L3, or L3 gives it up. */
  predicate PushedOut(cfg: Config, v: Levels, pc: Addr, w: Victims)
    requires cfg.Valid()
  {
    && Hits(v.l1, w.l1) && Hits(v.l2, w.l2)
    && if In2(cfg, v, pc) then !cfg.enableL3 && w.l2 == Some(cfg.Key2(pc)) else w.l3 == Some(cfg.Key3(pc))
  }

  lemma InstallPlaces(cfg: Config, U: set<Addr>, v: Levels, pc: Addr, e: Entry, w: Victims, a: Addr)
    requires cfg.Valid() && ToldApart(cfg, U) && pc in U && a in U
    ensures var v', room := Install(cfg, v, pc, e, w), FreeUpL1(cfg, v, w);
            && (In1(cfg, v', a) <==> a == pc || In1(cfg, room, a))
            && (In2(cfg, v', a) <==> In2(cfg, room, a)) && (In3(cfg, v', a) <==> In3(cfg, room, a))
  {
    assert cfg.Key1(a) == cfg.Key1(pc) ==> a == pc;
  }

  lemma InstalledIsSingleIff(cfg: Config, U: set<Addr>, v: Levels, pc: Addr, e: Entry, w: Victims)
    requires cfg.Valid() && ToldApart(cfg, U) && AllKeyed(cfg, U, v) && NonRedundant(cfg, U, v) && pc in U
    requires !cfg.nonexclusive && !In1(cfg, v, pc)
    ensures Single(cfg, Install(cfg, v, pc, e, w), pc) <==> !Below(cfg, v, pc) || PushedOut(cfg, v, pc, w)
  {
    InstallPlaces(cfg, U, v, pc, e, w, pc);
    assert Single(cfg, v, pc);
    if Hits(v.l1, w.l1) {
      FreeUpPlaces(cfg, U, v, w, pc);
    }
  }

  /** Installing a branch in L1 leaves it there alone iff no copy is below, or making room pushes the copy out. */
  lemma InstallNonRedundantIff(cfg: Config, U: set<Addr>, v: Levels, pc: Addr, e: Entry, w: Victims)
    requires cfg.Valid() && ToldApart(cfg, U) && AllKeyed(cfg, U, v) && NonRedundant(cfg, U, v) && pc in U
    requires !cfg.nonexclusive && !In1(cfg, v, pc)
    ensures NonRedundant(cfg, U, Install(cfg, v, pc, e, w)) <==> !Below(cfg, v, pc) || PushedOut(cfg, v, pc, w)
  {
    InstalledIsSingleIff(cfg, U, v, pc, e, w);
    forall a | a in U && a != pc ensures Single(cfg, Install(cfg, v, pc, e, w), a) {
      InstallPlaces(cfg, U, v, pc, e, w, a);
      FreeUpKeepsSingle(cfg, U, v, w, a);
    }
  }

  // ---------------------------------------------------------------- the inclusive hierarchy

  /** L3 gives up a branch that stays in L2, to hold a victim of L1 it did not have. */
  predicate LosesCover(cfg: Config, v: Levels, w: Victims)
    requires cfg.Valid()
  {
    && Hits(v.l1, w.l1) && !In3(cfg, v, v.l1[w.l1.value].branchAddr)
    && Hits(v.l3, w.l3Mirror)
    && var z := v.l3[w.l3Mirror.value].branchAddr; In2(cfg, v, z) && w.l2 != Some(cfg.Key2(z))
  }

  /** The victim of L1 arrives in L2; what L2 gives up for it is in L3 already. */
  lemma DemoteCovers(cfg: Config, U: set<Addr>, v: Levels, w: Victims, a: Addr)
    requires cfg.Valid() && ToldApart(cfg, U) && AllKeyed(cfg, U, v) && Inclusive(cfg, U, v) && a in U
    requires cfg.enableL3 && Hits(v.l1, w.l1)
    ensures var v', x := DemoteL1(cfg, v, w.l1.value, w), v.l1[w.l1.value].branchAddr;
            && (In2(cfg, v', a) <==> a == x || (In2(cfg, v, a) && (In2(cfg, v, x) || w.l2 != Some(cfg.Key2(a)))))
            && (cfg.Key3(a) in v'.l3 <==> cfg.Key3(a) in v.l3)
  {
    var x := v.l1[w.l1.value].branchAddr;
    assert cfg.Key2(a) == cfg.Key2(x) ==> a == x;
    if Hits(v.l2, w.l2) {
      var y := v.l2[w.l2.value].branchAddr;
      assert In2(cfg, v, y) && In3(cfg, v, y);
    }
  }

  /** What is in L2 and in L3 after room was made in an inclusive hierarchy. */
  lemma FreeUpCovers(cfg: Config, U: set<Addr>, v: Levels, w: Victims, a: Addr)
    requires cfg.Valid() && ToldApart(cfg, U) && AllKeyed(cfg, U, v) && Inclusive(cfg, U, v) && a in U
    requires cfg.nonexclusive && cfg.enableL3 && Hits(v.l1, w.l1)
    ensures var v', x := FreeUpL1(cfg, v, w), v.l1[w.l1.value].branchAddr;
            && (In2(cfg, v', a) <==> a == x || (In2(cfg, v, a) && (In2(cfg, v, x) || w.l2 != Some(cfg.Key2(a)))))
            && (In3(cfg, v', a) <==> a == x || (In3(cfg, v, a) && (In3(cfg, v, x) || w.l3Mirror != Some(cfg.Key3(a)))))
  {
    var x := v.l1[w.l1.value].branchAddr;
    DemoteCovers(cfg, U, v, w, a);
    DemoteCovers(cfg, U, v, w, x);
    var demoted := DemoteL1(cfg, v, w.l1.value, w);
    assert FreeUpL1(cfg, v, w) == demoted.(l3 := WriteBack(demoted.l3, cfg.Key3(x), w.l3Mirror, v.l1[w.l1.value]));
    assert cfg.Key3(a) == cfg.Key3(x) ==> a == x;
  }

  lemma FreeUpInclusiveIff(cfg: Config, U: set<Addr>, v: Levels, w: Victims)
    requires cfg.Valid() && ToldApart(cfg, U) && AllKeyed(cfg, U, v) && Inclusive(cfg, U, v)
    requires cfg.nonexclusive && cfg.enableL3
    ensures Inclusive(cfg, U, FreeUpL1(cfg, v, w)) <==> !LosesCover(cfg, v, w)
  {
    if Hits(v.l1, w.l1) {
      var v', x := FreeUpL1(cfg, v, w), v.l1[w.l1.value].branchAddr;
      if LosesCover(cfg, v, w) {
        var z := v.l3[w.l3Mirror.value].branchAddr;
        FreeUpCovers(cfg, U, v, w, z);
        assert In2(cfg, v', z) && !In3(cfg, v', z);
      } else {
        forall a | a in U && In2(cfg, v', a) ensures In3(cfg, v', a) {
          FreeUpCovers(cfg, U, v, w, a);
          if a != x && !In3(cfg, v, x) && w.l3Mirror == Some(cfg.Key3(a)) {
            FoundBranch(cfg, cfg.g3, U, v.l3, a);
          }
        }
      }
    }
  }

  /** Installing a branch keeps L2 inside L3 iff L3 does not give up a branch that stays in L2. */
  lemma InstallInclusiveIff(cfg: Config, U: set<Addr>, v: Levels, pc: Addr, e: Entry, w: Victims)
    requires cfg.Valid() && ToldApart(cfg, U) && AllKeyed(cfg, U, v) && Inclusive(cfg, U, v)
    requires cfg.nonexclusive && cfg.enableL3
    ensures Inclusive(cfg, U, Install(cfg, v, pc, e, w)) <==> !LosesCover(cfg, v, w)
  {
    FreeUpInclusiveIff(cfg, U, v, w);
    var v', room := Install(cfg, v, pc, e, w), FreeUpL1(cfg, v, w);
    assert v'.l2 == room.l2 && v'.l3 == room.l3;
    assert Inclusive(cfg, U, v') <==> Inclusive(cfg, U, room);
  }

  // ---------------------------------------------------------------- keys along every operation

  /** Entries under their own keys, and a queue of branches of U. */
  ghost predicate KeyedState(cfg: Config, U: set<Addr>, s: State)
    requires cfg.Valid()
  {
    AllKeyed(cfg, U, s.levels) && QueueIn(U, s.engine.queue)
  }

  /** Only the buffer changed, and its entries are under their own keys. */
  ghost predicate OnlyBuffer(cfg: Config, U: set<Addr>, v: Levels, v': Levels)
    requires cfg.Valid()
  {
    v'.l1 == v.l1 && v'.l2 == v.l2 && v'.l3 == v.l3 && AllKeyed(cfg, U, v')
  }

  lemma FillOnlyBuffer(cfg: Config, U: set<Addr>, v: Levels, pc: Addr, e: Entry, arrival: nat, origin: Origin, victim: Option<Key>)
    requires cfg.Valid() && AllKeyed(cfg, U, v) && pc in U
    ensures OnlyBuffer(cfg, U, v, FillBuffer(cfg, v, pc, e, arrival, origin, victim))
  {
  }

  lemma {:induction false} MarkovOnlyBuffer(cfg: Config, U: set<Addr>, v: Levels, now: nat, table: MarkovTable, pc: Addr, base: nat,
                                            depth: nat, victims: seq<Option<Key>>)
    requires cfg.Valid() && AllKeyed(cfg, U, v) && TableIn(U, table)
    ensures OnlyBuffer(cfg, U, v, MarkovFill(cfg, v, now, table, pc, base, depth, victims))
    decreases depth
  {
    var hop := HopMarkov(cfg, v, now, table, pc, base, NextVictim(victims));
    if hop.Hop? {
      var arrival, origin := HopPicks(cfg, U, v, now, table, pc, base, NextVictim(victims));
      FillOnlyBuffer(cfg, U, v, hop.pc, PrefetchSource(cfg, v, hop.pc).entry, arrival, origin, NextVictim(victims));
      if depth > 2 {
        MarkovOnlyBuffer(cfg, U, hop.levels, now, table, hop.pc, hop.charged, depth - 1, LaterVictims(victims));
      }
    }
  }

  lemma ProcessOneOnlyBuffer(cfg: Config, U: set<Addr>, s: State, blocks: BlockMap, d: Deferred, victim: Option<Key>)
    returns (s': State)
    requires cfg.Valid() && |s.engine.chains| == cfg.maxChains && KeyedState(cfg, U, s) && MapIn(U, blocks) && d.pc in U
    ensures s' == ProcessOne(cfg, s, blocks, d, victim)
    ensures OnlyBuffer(cfg, U, s.levels, s'.levels) && KeyedState(cfg, U, s')
  {
    s' := ProcessOne(cfg, s, blocks, d, victim);
    ProcessOneIn(cfg, U, s, blocks, d, victim);
    ProcessOneLevels(cfg, s, blocks, d, victim);
    if Issues(cfg, s, d) {
      var source := PrefetchSource(cfg, s.levels, d.pc);
      FillOnlyBuffer(cfg, U, s.levels, d.pc, source.entry, d.issueTime + source.latency,
                     ByFerret(source.fromL3, d.issueTime), victim);
      assert s'.levels == FillBuffer(cfg, s.levels, d.pc, source.entry, d.issueTime + source.latency,
                                     ByFerret(source.fromL3, d.issueTime), victim);
    }
  }

  lemma {:induction false} ProcessAllOnlyBuffer(cfg: Config, U: set<Addr>, s: State, blocks: BlockMap, due: seq<Deferred>,
                                                victims: seq<Option<Key>>) returns (s': State)
    requires cfg.Valid() && |s.engine.chains| == cfg.maxChains && |victims| == |due|
    requires KeyedState(cfg, U, s) && MapIn(U, blocks) && QueueIn(U, due)
    ensures s' == ProcessAll(cfg, s, blocks, due, victims)
    ensures OnlyBuffer(cfg, U, s.levels, s'.levels) && KeyedState(cfg, U, s')
    decreases |due|
  {
    if due == [] {
      s' := s;
    } else {
      var mid := ProcessOneOnlyBuffer(cfg, U, s, blocks, due[0], victims[0]);
      assert QueueIn(U, due[1..]);
      s' := ProcessAllOnlyBuffer(cfg, U, mid, blocks, due[1..], victims[1..]);
    }
  }

  lemma CycleOnlyBuffer(cfg: Config, U: set<Addr>, s: State, blocks: BlockMap, victims: seq<Option<Key>>)
    requires cfg.Valid() && KeyedState(cfg, U, s) && MapIn(U, blocks)
    requires |s.engine.chains| == cfg.maxChains && |victims| == DueCount(cfg, s.engine.queue, s.now)
    ensures OnlyBuffer(cfg, U, s.levels, Cycle(cfg, s, blocks, victims).levels)
    ensures KeyedState(cfg, U, Cycle(cfg, s, blocks, victims))
  {
    DueInRange(cfg, s.engine.queue, s.now);
    var n := DueCount(cfg, s.engine.queue, s.now);
    assert QueueIn(U, s.engine.queue[..n]) && QueueIn(U, s.engine.queue[n..]);
    var done := ProcessAllOnlyBuffer(cfg, U, s.(engine := s.engine.(queue := s.engine.queue[n..])), blocks,
                                     s.engine.queue[..n], victims);
  }

  /** Whatever is found is the branch itself. */
  lemma FoundKeyed(cfg: Config, U: set<Addr>, v: Levels, pc: Addr)
    requires cfg.Valid() && ToldApart(cfg, U) && AllKeyed(cfg, U, v) && pc in U && FirstHit(cfg, v, pc) != Nowhere
    ensures HitEntry(cfg, v, pc).branchAddr == pc
  {
    match FirstHit(cfg, v, pc)
    case InL1 => FoundBranch(cfg, cfg.g1, U, v.l1, pc);
    case InBuffer => FoundBranch(cfg, cfg.gp, U, v.pb, pc);
    case InL2 => FoundBranch(cfg, cfg.g2, U, v.l2, pc);
    case InL3 => FoundBranch(cfg, cfg.g3, U, v.l3, pc);
  }

  /** What a lookup that moves a branch installs in L1. */
  function Moved(cfg: Config, v: Levels, pc: Addr): Entry
    requires cfg.Valid() && FirstHit(cfg, v, pc) != Nowhere
  {
    var e := HitEntry(cfg, v, pc);
    if FirstHit(cfg, v, pc) == InL3 then Merge(Blank(pc), e) else Promoted(cfg, pc, e)
  }

  /** Moving a branch up installs it in the levels without its copy, and a buffered copy is dropped. */
  lemma PromoteInstalls(cfg: Config, U: set<Addr>, v: Levels, pc: Addr, w: Victims)
    requires cfg.Valid() && ToldApart(cfg, U) && AllKeyed(cfg, U, v) && pc in U
    requires FirstHit(cfg, v, pc) != Nowhere && FirstHit(cfg, v, pc) != InL1
    ensures AllKeyed(cfg, U, RoomAt(cfg, v, pc)) && AllKeyed(cfg, U, Promote(cfg, v, pc, w))
    ensures var installed, v' := Install(cfg, RoomAt(cfg, v, pc), pc, Moved(cfg, v, pc), w), Promote(cfg, v, pc, w);
            v'.l1 == installed.l1 && v'.l2 == installed.l2 && v'.l3 == installed.l3
  {
    FoundKeyed(cfg, U, v, pc);
    InstallKeyed(cfg, U, RoomAt(cfg, v, pc), pc, Moved(cfg, v, pc), w);
  }

  lemma TrainPlaces(cfg: Config, U: set<Addr>, s: State, blockStart: Addr)
    requires cfg.Valid() && AllKeyed(cfg, U, s.levels)
    ensures var v := TrainOnLookup(cfg, s, blockStart);
            AllKeyed(cfg, U, v) && SamePlaces(s.levels, v) && v.pb == s.levels.pb
  {
  }

  /** Both promises depend only on which branches are where. */
  lemma SamePlacesSameState(cfg: Config, U: set<Addr>, v: Levels, v': Levels)
    requires cfg.Valid() && SamePlaces(v, v')
    ensures NonRedundant(cfg, U, v) <==> NonRedundant(cfg, U, v')
    ensures Inclusive(cfg, U, v) <==> Inclusive(cfg, U, v')
  {
    forall a | a in U
      ensures (In1(cfg, v, a) <==> In1(cfg, v', a)) && (In2(cfg, v, a) <==> In2(cfg, v', a))
      ensures In3(cfg, v, a) <==> In3(cfg, v', a)
    {
      assert forall k :: k in v.l1.Keys <==> k in v'.l1.Keys;
      assert forall k :: k in v.l2.Keys <==> k in v'.l2.Keys;
      assert forall k :: k in v.l3.Keys <==> k in v'.l3.Keys;
    }
  }

  // ---------------------------------------------------------------- the exclusive hierarchy: every operation

  /** A branch is brought to L1 past a copy below that stays: by a commit that misses L1, or by a hit in the
      prefetch buffer. */
  predicate Duplicates(cfg: Config, s: State, op: Op)
    requires cfg.Valid()
  {
    match op
    case UpdateOp(pc, _, _, w) =>
      !In1(cfg, s.levels, pc) && Below(cfg, s.levels, pc) && !PushedOut(cfg, s.levels, pc, w)
    case LookupOp(pc, _, _, _, _, _, _, w, _) =>
      && FirstHit(cfg, s.levels, pc) == InBuffer && LookupAnswer(cfg, s.levels, s.now, pc) != Threw
      && Below(cfg, s.levels, pc) && !PushedOut(cfg, s.levels, pc, w)
    case _ => false
  }

  lemma PromoteNonRedundantIff(cfg: Config, U: set<Addr>, v: Levels, pc: Addr, w: Victims)
    requires cfg.Valid() && ToldApart(cfg, U) && AllKeyed(cfg, U, v) && NonRedundant(cfg, U, v) && pc in U && !cfg.nonexclusive
    requires FirstHit(cfg, v, pc) != Nowhere && FirstHit(cfg, v, pc) != InL1
    ensures NonRedundant(cfg, U, Promote(cfg, v, pc, w)) <==>
            FirstHit(cfg, v, pc) != InBuffer || !Below(cfg, v, pc) || PushedOut(cfg, v, pc, w)
  {
    PromoteInstalls(cfg, U, v, pc, w);
    var room := RoomAt(cfg, v, pc);
    assert Single(cfg, v, pc);
    forall a | a in U ensures Single(cfg, room, a) {
      assert Single(cfg, v, a);
    }
    InstallNonRedundantIff(cfg, U, room, pc, Moved(cfg, v, pc), w);
    SamePlacesSameState(cfg, U, Install(cfg, room, pc, Moved(cfg, v, pc), w), Promote(cfg, v, pc, w));
  }

  lemma UpdateNonRedundantIff(cfg: Config, U: set<Addr>, v: Levels, pc: Addr, target: Addr, kind: BranchType, w: Victims)
    requires cfg.Valid() && ToldApart(cfg, U) && AllKeyed(cfg, U, v) && NonRedundant(cfg, U, v) && pc in U && !cfg.nonexclusive
    ensures NonRedundant(cfg, U, Update(cfg, v, pc, target, kind, w)) <==>
            In1(cfg, v, pc) || !Below(cfg, v, pc) || PushedOut(cfg, v, pc, w)
  {
    if In1(cfg, v, pc) {
      SamePlacesSameState(cfg, U, v, Update(cfg, v, pc, target, kind, w));
    } else {
      InstallNonRedundantIff(cfg, U, v, pc, Blank(pc).(target := target, kind := kind, pfTarget := cfg.UsesBits()), w);
    }
  }

  /** The lookup brings a branch to L1. */
  predicate Brings(cfg: Config, s: State, op: Op)
    requires cfg.Valid() && op.LookupOp?
  {
    var hit := FirstHit(cfg, s.levels, op.pc);
    hit != Nowhere && hit != InL1 && LookupAnswer(cfg, s.levels, s.now, op.pc) != Threw
  }

  lemma TrainedFinds(cfg: Config, U: set<Addr>, s: State, blockStart: Addr, pc: Addr)
    requires cfg.Valid() && AllKeyed(cfg, U, s.levels)
    ensures var v := TrainOnLookup(cfg, s, blockStart);
            && FirstHit(cfg, v, pc) == FirstHit(cfg, s.levels, pc)
            && LookupAnswer(cfg, v, s.now, pc) == LookupAnswer(cfg, s.levels, s.now, pc)
  {
  }

  lemma AfterHitKeyed(cfg: Config, U: set<Addr>, s: State, op: Op, hit: HitLevel, e: Entry) returns (s': State)
    requires cfg.Valid() && KeyedState(cfg, U, s) && op.LookupOp? && OpIn(U, op) && hit != Nowhere
    ensures s' == AfterHit(cfg, s, op, hit, e)
    ensures KeyedState(cfg, U, s') && OnlyBuffer(cfg, U, s.levels, s'.levels)
  {
    s' := AfterHit(cfg, s, op, hit, e);
    MarkovOnlyBuffer(cfg, U, s.levels, s.now, op.markov, op.pc, TriggerBase(cfg, hit, e, s.now), cfg.prefetchDepth, op.fills);
    TriggerIn(cfg, U, s.levels, s.engine, s.now, op.bbMap, op.pc, op.kind, e,
              if hit == InL1 || hit == InBuffer then op.basePrediction else op.taken,
              TriggerAt(hit), TriggerBase(cfg, hit, e, s.now), hit != InL1);
  }

  lemma PromoteKeyedLevels(cfg: Config, U: set<Addr>, v: Levels, pc: Addr, w: Victims)
    requires cfg.Valid() && ToldApart(cfg, U) && AllKeyed(cfg, U, v) && pc in U
    ensures AllKeyed(cfg, U, Promote(cfg, v, pc, w))
  {
    if FirstHit(cfg, v, pc) != Nowhere && FirstHit(cfg, v, pc) != InL1 {
      PromoteInstalls(cfg, U, v, pc, w);
    }
  }

  /** A lookup leaves L1, L2 and L3 as they are, up to training, unless it brings the branch to L1. */
  lemma LookupPlaces(cfg: Config, U: set<Addr>, s: State, op: Op) returns (v: Levels)
    requires cfg.Valid() && ToldApart(cfg, U) && KeyedState(cfg, U, s) && op.LookupOp? && OpIn(U, op)
    ensures v == TrainOnLookup(cfg, s, op.blockStart) && AllKeyed(cfg, U, v) && SamePlaces(s.levels, v)
    ensures KeyedState(cfg, U, Lookup(cfg, s, op))
    ensures SamePlaces(if Brings(cfg, s, op) then Promote(cfg, v, op.pc, op.w) else v, Lookup(cfg, s, op).levels)
  {
    v := TrainOnLookup(cfg, s, op.blockStart);
    TrainPlaces(cfg, U, s, op.blockStart);
    TrainedFinds(cfg, U, s, op.blockStart, op.pc);
    var hit := FirstHit(cfg, v, op.pc);
    if hit != Nowhere && LookupAnswer(cfg, v, s.now, op.pc) != Threw {
      PromoteKeyedLevels(cfg, U, v, op.pc, op.w);
      var moved := s.(levels := Promote(cfg, v, op.pc, op.w), engine := s.engine.(demand := s.engine.demand + {op.pc}));
      var s' := AfterHitKeyed(cfg, U, moved, op, hit, HitEntry(cfg, v, op.pc));
    }
  }

  lemma TrainedDuplicates(cfg: Config, U: set<Addr>, s: State, op: Op)
    requires cfg.Valid() && AllKeyed(cfg, U, s.levels) && op.LookupOp?
    ensures var v := TrainOnLookup(cfg, s, op.blockStart);
            && (Below(cfg, v, op.pc) <==> Below(cfg, s.levels, op.pc))
            && (PushedOut(cfg, v, op.pc, op.w) <==> PushedOut(cfg, s.levels, op.pc, op.w))
  {
  }

  lemma LookupNonRedundantIff(cfg: Config, U: set<Addr>, s: State, op: Op)
    requires cfg.Valid() && ToldApart(cfg, U) && KeyedState(cfg, U, s) && op.LookupOp? && OpIn(U, op)
    requires !cfg.nonexclusive && NonRedundant(cfg, U, s.levels)
    ensures NonRedundant(cfg, U, Lookup(cfg, s, op).levels) <==> !Duplicates(cfg, s, op)
  {
    var v := LookupPlaces(cfg, U, s, op);
    TrainedFinds(cfg, U, s, op.blockStart, op.pc);
    TrainedDuplicates(cfg, U, s, op);
    SamePlacesSameState(cfg, U, s.levels, v);
    if Brings(cfg, s, op) {
      SamePlacesSameState(cfg, U, Promote(cfg, v, op.pc, op.w), Lookup(cfg, s, op).levels);
      PromoteNonRedundantIff(cfg, U, v, op.pc, op.w);
    } else {
      SamePlacesSameState(cfg, U, v, Lookup(cfg, s, op).levels);
    }
  }

  /** Levels with nothing in them that counts. */
  lemma EmptyIsKeyed(cfg: Config, U: set<Addr>, v: Levels)
    requires cfg.Valid() && v.l1 == map[] && v.pb == map[] && v.l2 == map[] && Keyed(cfg, cfg.g3, U, v.l3)
    ensures AllKeyed(cfg, U, v) && NonRedundant(cfg, U, v) && Inclusive(cfg, U, v)
  {
  }

  /** Every operation over branches of U keeps all entries under their own keys. */
  lemma StepKeyed(cfg: Config, U: set<Addr>, s: State, op: Op)
    requires cfg.Valid() && ToldApart(cfg, U) && Enabled(cfg, s, op) && OpIn(U, op) && KeyedState(cfg, U, s)
    ensures KeyedState(cfg, U, Step(cfg, s, op))
  {
    match op {
      case LookupOp(_, _, _, _, _, _, _, _, _) => var v := LookupPlaces(cfg, U, s, op);
      case UpdateOp(pc, target, kind, w) => UpdateKeyed(cfg, U, s.levels, pc, target, kind, w);
      case CommitOp(pc, taken) =>
      case DirectionOp(pc, taken) =>
      case CycleOp(blocks, victims) => CycleOnlyBuffer(cfg, U, s, blocks, victims);
      case InvalidateOp => EmptyIsKeyed(cfg, U, Step(cfg, s, op).levels);
    }
  }

  /** An operation leaves every branch in one level iff it does not bring one to L1 past a copy that stays. */
  lemma StepNonRedundantIff(cfg: Config, U: set<Addr>, s: State, op: Op)
    requires cfg.Valid() && ToldApart(cfg, U) && Enabled(cfg, s, op) && OpIn(U, op) && KeyedState(cfg, U, s)
    requires !cfg.nonexclusive && NonRedundant(cfg, U, s.levels)
    ensures NonRedundant(cfg, U, Step(cfg, s, op).levels) <==> !Duplicates(cfg, s, op)
  {
    var v' := Step(cfg, s, op).levels;
    match op {
      case LookupOp(_, _, _, _, _, _, _, _, _) => LookupNonRedundantIff(cfg, U, s, op);
      case UpdateOp(pc, target, kind, w) => UpdateNonRedundantIff(cfg, U, s.levels, pc, target, kind, w);
      case CommitOp(pc, taken) => SamePlacesSameState(cfg, U, s.levels, v');
      case DirectionOp(pc, taken) => SamePlacesSameState(cfg, U, s.levels, v');
      case CycleOp(blocks, victims) =>
        CycleOnlyBuffer(cfg, U, s, blocks, victims);
        SamePlacesSameState(cfg, U, s.levels, v');
      case InvalidateOp => EmptyIsKeyed(cfg, U, v');
    }
  }

  // ---------------------------------------------------------------- the inclusive hierarchy: every operation

  /** An operation that makes room in L1 and lets L3 give up a branch of L2. */
  predicate Uncovers(cfg: Config, s: State, op: Op)
    requires cfg.Valid()
  {
    match op
    case UpdateOp(pc, _, _, w) => !In1(cfg, s.levels, pc) && LosesCover(cfg, s.levels, w)
    case LookupOp(_, _, _, _, _, _, _, w, _) => Brings(cfg, s, op) && LosesCover(cfg, s.levels, w)
    case _ => false
  }

  lemma TrainedCovers(cfg: Config, U: set<Addr>, s: State, blockStart: Addr, w: Victims)
    requires cfg.Valid() && AllKeyed(cfg, U, s.levels)
    ensures LosesCover(cfg, TrainOnLookup(cfg, s, blockStart), w) <==> LosesCover(cfg, s.levels, w)
  {
  }

  lemma PromoteInclusiveIff(cfg: Config, U: set<Addr>, v: Levels, pc: Addr, w: Victims)
    requires cfg.Valid() && ToldApart(cfg, U) && AllKeyed(cfg, U, v) && Inclusive(cfg, U, v) && pc in U
    requires cfg.nonexclusive && cfg.enableL3 && FirstHit(cfg, v, pc) != Nowhere && FirstHit(cfg, v, pc) != InL1
    ensures Inclusive(cfg, U, Promote(cfg, v, pc, w)) <==> !LosesCover(cfg, v, w)
  {
    PromoteInstalls(cfg, U, v, pc, w);
    InstallInclusiveIff(cfg, U, v, pc, Moved(cfg, v, pc), w);
    SamePlacesSameState(cfg, U, Install(cfg, v, pc, Moved(cfg, v, pc), w), Promote(cfg, v, pc, w));
  }

  lemma LookupInclusiveIff(cfg: Config, U: set<Addr>, s: State, op: Op)
    requires cfg.Valid() && ToldApart(cfg, U) && KeyedState(cfg, U, s) && op.LookupOp? && OpIn(U, op)
    requires cfg.nonexclusive && cfg.enableL3 && Inclusive(cfg, U, s.levels)
    ensures Inclusive(cfg, U, Lookup(cfg, s, op).levels) <==> !Uncovers(cfg, s, op)
  {
    var v := LookupPlaces(cfg, U, s, op);
    TrainedFinds(cfg, U, s, op.blockStart, op.pc);
    TrainedCovers(cfg, U, s, op.blockStart, op.w);
    SamePlacesSameState(cfg, U, s.levels, v);
    if Brings(cfg, s, op) {
      PromoteInclusiveIff(cfg, U, v, op.pc, op.w);
      SamePlacesSameState(cfg, U, Promote(cfg, v, op.pc, op.w), Lookup(cfg, s, op).levels);
    } else {
      SamePlacesSameState(cfg, U, v, Lookup(cfg, s, op).levels);
    }
  }

  lemma UpdateInclusiveIff(cfg: Config, U: set<Addr>, v: Levels, pc: Addr, target: Addr, kind: BranchType, w: Victims)
    requires cfg.Valid() && ToldApart(cfg, U) && AllKeyed(cfg, U, v) && Inclusive(cfg, U, v) && cfg.nonexclusive && cfg.enableL3
    ensures Inclusive(cfg, U, Update(cfg, v, pc, target, kind, w)) <==> In1(cfg, v, pc) || !LosesCover(cfg, v, w)
  {
    if In1(cfg, v, pc) {
      SamePlacesSameState(cfg, U, v, Update(cfg, v, pc, target, kind, w));
    } else {
      InstallInclusiveIff(cfg, U, v, pc, Blank(pc).(target := target, kind := kind, pfTarget := cfg.UsesBits()), w);
    }
  }

  /** An operation keeps L2 inside L3 iff it does not make L3 give up a branch that stays in L2. */
  lemma StepInclusiveIff(cfg: Config, U: set<Addr>, s: State, op: Op)
    requires cfg.Valid() && ToldApart(cfg, U) && Enabled(cfg, s, op) && OpIn(U, op) && KeyedState(cfg, U, s)
    requires cfg.nonexclusive && cfg.enableL3 && Inclusive(cfg, U, s.levels)
    ensures Inclusive(cfg, U, Step(cfg, s, op).levels) <==> !Uncovers(cfg, s, op)
  {
    var v' := Step(cfg, s, op).levels;
    match op {
      case LookupOp(_, _, _, _, _, _, _, _, _) => LookupInclusiveIff(cfg, U, s, op);
      case UpdateOp(pc, target, kind, w) => UpdateInclusiveIff(cfg, U, s.levels, pc, target, kind, w);
      case CommitOp(pc, taken) => SamePlacesSameState(cfg, U, s.levels, v');
      case DirectionOp(pc, taken) => SamePlacesSameState(cfg, U, s.levels, v');
      case CycleOp(blocks, victims) =>
        CycleOnlyBuffer(cfg, U, s, blocks, victims);
        SamePlacesSameState(cfg, U, s.levels, v');
      case InvalidateOp => EmptyIsKeyed(cfg, U, v');
    }
  }

  // ---------------------------------------------------------------- whole runs

  /** The promise of the configured hierarchy, and the operations that break it. */
  ghost predicate Promised(cfg: Config, U: set<Addr>, v: Levels)
    requires cfg.Valid()
  {
    if cfg.nonexclusive then cfg.enableL3 ==> Inclusive(cfg, U, v) else NonRedundant(cfg, U, v)
  }

  predicate Breaks(cfg: Config, s: State, op: Op)
    requires cfg.Valid()
  {
    if cfg.nonexclusive then cfg.enableL3 && Uncovers(cfg, s, op) else Duplicates(cfg, s, op)
  }

  ghost predicate AlwaysPromised(cfg: Config, U: set<Addr>, s: State, ops: seq<Op>)
    requires cfg.Valid() && Legal(cfg, s, ops)
    decreases |ops|
  {
    Promised(cfg, U, s.levels) && (ops != [] ==> AlwaysPromised(cfg, U, Step(cfg, s, ops[0]), ops[1..]))
  }

  ghost predicate NeverBreaks(cfg: Config, s: State, ops: seq<Op>)
    requires cfg.Valid() && Legal(cfg, s, ops)
    decreases |ops|
  {
    ops != [] ==> !Breaks(cfg, s, ops[0]) && NeverBreaks(cfg, Step(cfg, s, ops[0]), ops[1..])
  }

  ghost predicate OpsIn(U: set<Addr>, ops: seq<Op>) {
    forall i | 0 <= i < |ops| :: OpIn(U, ops[i])
  }

  lemma StepPromisedIff(cfg: Config, U: set<Addr>, s: State, op: Op)
    requires cfg.Valid() && ToldApart(cfg, U) && Enabled(cfg, s, op) && OpIn(U, op) && KeyedState(cfg, U, s)
    requires Promised(cfg, U, s.levels)
    ensures Promised(cfg, U, Step(cfg, s, op).levels) <==> !Breaks(cfg, s, op)
  {
    if !cfg.nonexclusive {
      StepNonRedundantIff(cfg, U, s, op);
    } else if cfg.enableL3 {
      StepInclusiveIff(cfg, U, s, op);
    }
  }

  lemma {:induction false} RunPromisedIff(cfg: Config, U: set<Addr>, s: State, ops: seq<Op>)
    requires cfg.Valid() && ToldApart(cfg, U) && Legal(cfg, s, ops) && OpsIn(U, ops)
    requires KeyedState(cfg, U, s) && Promised(cfg, U, s.levels)
    ensures AlwaysPromised(cfg, U, s, ops) <==> NeverBreaks(cfg, s, ops)
    decreases |ops|
  {
    if ops != [] {
      StepPromisedIff(cfg, U, s, ops[0]);
      StepKeyed(cfg, U, s, ops[0]);
      if !Breaks(cfg, s, ops[0]) {
        RunPromisedIff(cfg, U, Step(cfg, s, ops[0]), ops[1..]);
      }
    }
  }

  /** A run from the empty hierarchy keeps the promise throughout iff none of its operations breaks it. */
  lemma RunsKeepPromiseIff(cfg: Config, U: set<Addr>, ops: seq<Op>)
    requires cfg.Valid() && ToldApart(cfg, U) && Legal(cfg, Init(cfg), ops) && OpsIn(U, ops)
    ensures AlwaysPromised(cfg, U, Init(cfg), ops) <==> NeverBreaks(cfg, Init(cfg), ops)
  {
    EmptyIsKeyed(cfg, U, Init(cfg).levels);
    RunPromisedIff(cfg, U, Init(cfg), ops);
  }
}
