/**
 Coherence of the BTB hierarchy: copies of a branch may disagree, but the first level a lookup
 finds it in holds the target committed last. The prefetch buffer is the weak point.

 Everything is said of the branches of a program whose addresses no level confuses.
 */
module BtbCoherence {
  import opened Wrappers
  import opened AssociativeCache
  import opened BtbModel
  import opened BtbRuns

  /** No two of the addresses select the same key of an array. */
  ghost predicate Separated(cfg: Config, g: Geometry, U: set<Addr>)
    requires cfg.Valid() && g.Valid()
  {
    forall a, b | a in U && b in U && cfg.KeyIn(g, a) == cfg.KeyIn(g, b) :: a == b
  }

  /** The tags of every level tell the addresses of U apart. */
  ghost predicate ToldApart(cfg: Config, U: set<Addr>)
    requires cfg.Valid()
  {
    Separated(cfg, cfg.g1, U) && Separated(cfg, cfg.gp, U) && Separated(cfg, cfg.g2, U) && Separated(cfg, cfg.g3, U)
  }

  /** Every entry of a level is a branch of U under its own key. */
  ghost predicate Keyed(cfg: Config, g: Geometry, U: set<Addr>, level: Level)
    requires cfg.Valid() && g.Valid()
  {
    forall k | k in level :: level[k].branchAddr in U && cfg.KeyIn(g, level[k].branchAddr) == k
  }

  ghost predicate AllKeyed(cfg: Config, U: set<Addr>, v: Levels)
    requires cfg.Valid()
  {
    && Keyed(cfg, cfg.g1, U, v.l1) && Keyed(cfg, cfg.gp, U, v.pb)
    && Keyed(cfg, cfg.g2, U, v.l2) && Keyed(cfg, cfg.g3, U, v.l3)
  }

  // ---------------------------------------------------------------- the copies of one branch

  function TargetAt(level: Level, k: Key): Option<Addr> {
    if k in level then Some(level[k].target) else None
  }

  /** The targets that the four levels have for one branch. */
  datatype Copies = Copies(t1: Option<Addr>, tp: Option<Addr>, t2: Option<Addr>, t3: Option<Addr>)

  function CopiesOf(cfg: Config, v: Levels, a: Addr): Copies
    requires cfg.Valid()
  {
    Copies(TargetAt(v.l1, cfg.Key1(a)), TargetAt(v.pb, cfg.KeyP(a)), TargetAt(v.l2, cfg.Key2(a)),
           if cfg.enableL3 then TargetAt(v.l3, cfg.Key3(a)) else None)
  }

  /** Each copy that no level in front of it hides has the committed target. A masked branch may have
      another target in the buffer for as long as L1 hides it. */
  predicate UpToDate(c: Copies, committed: Option<Addr>, masked: bool) {
    && (c.t1.Some? ==> c.t1 == committed)
    && (c.tp.Some? ==> c.tp == committed || (masked && c.t1.Some?))
    && (c.t1.None? && c.t2.Some? ==> c.t2 == committed)
    && (c.t1.None? && c.t2.None? && c.t3.Some? ==> c.t3 == committed)
  }

  /** What making room in L1 can do to the copies of one branch: it is the victim and moves to L2, or
      it is pushed out of L2, or it may lose its copy in L3. */
  predicate MadeRoom(c: Copies, c': Copies) {
    && c'.tp == c.tp
    && if c'.t1 != c.t1 then c'.t1.None? && c'.t2 == c.t1
       else if c'.t2 != c.t2 then c'.t2.None? && (c'.t3 == c.t2 || c'.t3.None?)
       else c'.t3 == c.t3 || c'.t3.None?
  }

  lemma MadeRoomUpToDate(c: Copies, c': Copies, committed: Option<Addr>, masked: bool)
    requires UpToDate(c, committed, masked) && MadeRoom(c, c') && (masked ==> c'.t1 == c.t1)
    ensures UpToDate(c', committed, masked)
  {
  }

  // ---------------------------------------------------------------- writing to a level

  lemma WriteBackKeyed(cfg: Config, g: Geometry, U: set<Addr>, level: Level, e: Entry, victim: Option<Key>)
    requires cfg.Valid() && g.Valid() && Keyed(cfg, g, U, level) && e.branchAddr in U
    ensures Keyed(cfg, g, U, WriteBack(level, cfg.KeyIn(g, e.branchAddr), victim, e))
  {
  }

  lemma WriteBackTarget(cfg: Config, g: Geometry, U: set<Addr>, level: Level, e: Entry, victim: Option<Key>, a: Addr)
    requires cfg.Valid() && g.Valid() && Separated(cfg, g, U) && e.branchAddr in U && a in U
    ensures var t := TargetAt(WriteBack(level, cfg.KeyIn(g, e.branchAddr), victim, e), cfg.KeyIn(g, a));
            if a == e.branchAddr then t == Some(e.target)
            else t == TargetAt(level, cfg.KeyIn(g, a)) || (t.None? && victim == Some(cfg.KeyIn(g, a)))
  {
  }

  /** Dropping the entry of one branch leaves the others. */
  lemma DropTarget(cfg: Config, g: Geometry, U: set<Addr>, level: Level, k: Key, a: Addr)
    requires cfg.Valid() && g.Valid() && Separated(cfg, g, U) && Keyed(cfg, g, U, level) && a in U && k in level
    ensures TargetAt(level - {k}, cfg.KeyIn(g, a)) ==
            if level[k].branchAddr == a then None else TargetAt(level, cfg.KeyIn(g, a))
    ensures level[k].branchAddr == a ==> TargetAt(level, cfg.KeyIn(g, a)) == Some(level[k].target)
  {
  }

  lemma FoundBranch(cfg: Config, g: Geometry, U: set<Addr>, level: Level, a: Addr)
    requires cfg.Valid() && g.Valid() && Separated(cfg, g, U) && Keyed(cfg, g, U, level) && a in U
    requires cfg.KeyIn(g, a) in level
    ensures level[cfg.KeyIn(g, a)].branchAddr == a
  {
  }

  // ---------------------------------------------------------------- making room in L1

  lemma SpillKeyed(cfg: Config, U: set<Addr>, v: Levels, w2: Option<Key>, w3: Option<Key>)
    requires cfg.Valid() && AllKeyed(cfg, U, v)
    ensures AllKeyed(cfg, U, SpillL2(cfg, v, w2, w3))
  {
    if w2.Some? && w2.value in v.l2 {
      WriteBackKeyed(cfg, cfg.g3, U, v.l3, v.l2[w2.value], w3);
    }
  }

  lemma SpillCopies(cfg: Config, U: set<Addr>, v: Levels, w2: Option<Key>, w3: Option<Key>, a: Addr)
    requires cfg.Valid() && ToldApart(cfg, U) && AllKeyed(cfg, U, v) && a in U
    ensures var c, c' := CopiesOf(cfg, v, a), CopiesOf(cfg, SpillL2(cfg, v, w2, w3), a);
            && c'.t1 == c.t1 && c'.tp == c.tp
            && if c'.t2 != c.t2 then c'.t2.None? && (c'.t3 == c.t2 || c'.t3.None?)
               else c'.t3 == c.t3 || c'.t3.None?
  {
    if w2.Some? && w2.value in v.l2 {
      DropTarget(cfg, cfg.g2, U, v.l2, w2.value, a);
      if cfg.enableL3 {
        WriteBackTarget(cfg, cfg.g3, U, v.l3, v.l2[w2.value], w3, a);
      }
    }
  }

  /** The levels when L2 has room for the victim of L1. */
  function RoomBelow(cfg: Config, v: Levels, k: Key, w: Victims): Levels
    requires cfg.Valid() && k in v.l1
  {
    if cfg.Key2(v.l1[k].branchAddr) in v.l2 then v else SpillL2(cfg, v, w.l2, w.l3)
  }

  lemma DemoteKeyed(cfg: Config, U: set<Addr>, v: Levels, k: Key, w: Victims)
    requires cfg.Valid() && AllKeyed(cfg, U, v) && k in v.l1
    ensures AllKeyed(cfg, U, DemoteL1(cfg, v, k, w))
  {
    SpillKeyed(cfg, U, v, w.l2, w.l3);
    WriteBackKeyed(cfg, cfg.g2, U, RoomBelow(cfg, v, k, w).l2, v.l1[k], None);
  }

  lemma DemoteCopies(cfg: Config, U: set<Addr>, v: Levels, k: Key, w: Victims, a: Addr)
    requires cfg.Valid() && ToldApart(cfg, U) && AllKeyed(cfg, U, v) && k in v.l1 && a in U
    ensures MadeRoom(CopiesOf(cfg, v, a), CopiesOf(cfg, DemoteL1(cfg, v, k, w), a))
    ensures a == v.l1[k].branchAddr <==> CopiesOf(cfg, DemoteL1(cfg, v, k, w), a).t1 != CopiesOf(cfg, v, a).t1
  {
    SpillCopies(cfg, U, v, w.l2, w.l3, a);
    DropTarget(cfg, cfg.g1, U, v.l1, k, a);
    WriteBackTarget(cfg, cfg.g2, U, RoomBelow(cfg, v, k, w).l2, v.l1[k], None, a);
  }

  lemma FreeUpKeyed(cfg: Config, U: set<Addr>, v: Levels, w: Victims)
    requires cfg.Valid() && AllKeyed(cfg, U, v)
    ensures AllKeyed(cfg, U, FreeUpL1(cfg, v, w))
  {
    if w.l1.Some? && w.l1.value in v.l1 {
      DemoteKeyed(cfg, U, v, w.l1.value, w);
      WriteBackKeyed(cfg, cfg.g3, U, DemoteL1(cfg, v, w.l1.value, w).l3, v.l1[w.l1.value], w.l3Mirror);
    }
  }

  /** Making room moves copies down and never leaves an older one in front. */
  lemma FreeUpCopies(cfg: Config, U: set<Addr>, v: Levels, w: Victims, a: Addr)
    requires cfg.Valid() && ToldApart(cfg, U) && AllKeyed(cfg, U, v) && a in U
    ensures MadeRoom(CopiesOf(cfg, v, a), CopiesOf(cfg, FreeUpL1(cfg, v, w), a))
    ensures w.l1 != Some(cfg.Key1(a)) ==> CopiesOf(cfg, FreeUpL1(cfg, v, w), a).t1 == CopiesOf(cfg, v, a).t1
  {
    if w.l1.Some? && w.l1.value in v.l1 {
      DemoteCopies(cfg, U, v, w.l1.value, w, a);
      if cfg.nonexclusive && cfg.enableL3 {
        WriteBackTarget(cfg, cfg.g3, U, DemoteL1(cfg, v, w.l1.value, w).l3, v.l1[w.l1.value], w.l3Mirror, a);
      }
    }
  }

  // ---------------------------------------------------------------- coherence

  /** The target committed last for each branch. */
  type Committed = map<Addr, Addr>

  function CommittedTarget(com: Committed, a: Addr): Option<Addr> {
    if a in com then Some(com[a]) else None
  }

  ghost predicate BranchOk(cfg: Config, v: Levels, com: Committed, m: Option<Addr>, a: Addr)
    requires cfg.Valid()
  {
    UpToDate(CopiesOf(cfg, v, a), CommittedTarget(com, a), Some(a) == m)
  }

  /** The copies of every branch are up to date, the buffer copy of a masked one behind L1 apart. */
  ghost predicate Coherent(cfg: Config, U: set<Addr>, v: Levels, com: Committed, m: Option<Addr>)
    requires cfg.Valid()
  {
    AllKeyed(cfg, U, v) && forall a | a in U :: BranchOk(cfg, v, com, m, a)
  }

  lemma MaskMore(cfg: Config, U: set<Addr>, v: Levels, com: Committed, m: Option<Addr>)
    requires cfg.Valid() && Coherent(cfg, U, v, com, None)
    ensures Coherent(cfg, U, v, com, m)
  {
    forall a | a in U ensures BranchOk(cfg, v, com, m, a) {
      assert BranchOk(cfg, v, com, None, a);
    }
  }

  /** The masked branch, if any, is not the one that leaves L1. */
  predicate SparesMasked(cfg: Config, m: Option<Addr>, w: Victims)
    requires cfg.Valid()
  {
    m.Some? ==> w.l1 != Some(cfg.Key1(m.value))
  }

  /** Making room keeps a newer copy in front of every older one. */
  lemma FreeUpKeepsCoherence(cfg: Config, U: set<Addr>, v: Levels, com: Committed, m: Option<Addr>, w: Victims, a: Addr)
    requires cfg.Valid() && ToldApart(cfg, U) && AllKeyed(cfg, U, v) && a in U && BranchOk(cfg, v, com, m, a)
    requires SparesMasked(cfg, m, w)
    ensures BranchOk(cfg, FreeUpL1(cfg, v, w), com, m, a)
  {
    FreeUpCopies(cfg, U, v, w, a);
    MadeRoomUpToDate(CopiesOf(cfg, v, a), CopiesOf(cfg, FreeUpL1(cfg, v, w), a), CommittedTarget(com, a), Some(a) == m);
  }

  lemma InstallKeyed(cfg: Config, U: set<Addr>, v: Levels, pc: Addr, e: Entry, w: Victims)
    requires cfg.Valid() && AllKeyed(cfg, U, v) && pc in U && e.branchAddr == pc
    ensures AllKeyed(cfg, U, Install(cfg, v, pc, e, w))
  {
    FreeUpKeyed(cfg, U, v, w);
  }

  /** Installing the committed target of `pc`; its copies elsewhere may be anything, as L1 hides them. */
  lemma InstallKeepsBranch(cfg: Config, U: set<Addr>, v: Levels, com: Committed, m: Option<Addr>, pc: Addr, e: Entry,
                           w: Victims, a: Addr)
    requires cfg.Valid() && ToldApart(cfg, U) && AllKeyed(cfg, U, v) && pc in U && a in U
    requires a != pc ==> BranchOk(cfg, v, com, m, a) && SparesMasked(cfg, m, w)
    requires a == pc ==> CommittedTarget(com, pc) == Some(e.target)
    requires a == pc ==> CopiesOf(cfg, v, pc).tp in {None, Some(e.target)} || m == Some(pc)
    ensures BranchOk(cfg, Install(cfg, v, pc, e, w), com, m, a)
  {
    FreeUpCopies(cfg, U, v, w, a);
    if a != pc {
      FreeUpKeepsCoherence(cfg, U, v, com, m, w, a);
      assert cfg.Key1(a) != cfg.Key1(pc);
    }
  }

  /** The buffer copy, if any, already has the target being committed. */
  predicate BufferAgrees(cfg: Config, v: Levels, pc: Addr, target: Addr)
    requires cfg.Valid()
  {
    cfg.KeyP(pc) in v.pb ==> v.pb[cfg.KeyP(pc)].target == target
  }

  lemma UpdateKeyed(cfg: Config, U: set<Addr>, v: Levels, pc: Addr, target: Addr, kind: BranchType, w: Victims)
    requires cfg.Valid() && ToldApart(cfg, U) && AllKeyed(cfg, U, v) && pc in U
    ensures AllKeyed(cfg, U, Update(cfg, v, pc, target, kind, w))
  {
    if cfg.Key1(pc) in v.l1 {
      FoundBranch(cfg, cfg.g1, U, v.l1, pc);
    } else {
      InstallKeyed(cfg, U, v, pc, Blank(pc).(target := target, kind := kind, pfTarget := cfg.UsesBits()), w);
    }
  }

  /** Committing a target makes it the one that every lookup of the branch finds, unless the buffer
      contradicts it; it disturbs no other branch. */
  lemma UpdateKeepsCoherence(cfg: Config, U: set<Addr>, v: Levels, com: Committed, m: Option<Addr>, pc: Addr, target: Addr,
                             kind: BranchType, w: Victims)
    requires cfg.Valid() && ToldApart(cfg, U) && Coherent(cfg, U, v, com, m) && pc in U
    requires BufferAgrees(cfg, v, pc, target) || m == Some(pc)
    requires cfg.Key1(pc) !in v.l1 ==> SparesMasked(cfg, m, w)
    ensures Coherent(cfg, U, Update(cfg, v, pc, target, kind, w), com[pc := target], m)
  {
    UpdateKeyed(cfg, U, v, pc, target, kind, w);
    forall a | a in U ensures BranchOk(cfg, Update(cfg, v, pc, target, kind, w), com[pc := target], m, a) {
      assert BranchOk(cfg, v, com, m, a);
      if cfg.Key1(pc) !in v.l1 {
        InstallKeepsBranch(cfg, U, v, com[pc := target], m, pc,
                           Blank(pc).(target := target, kind := kind, pfTarget := cfg.UsesBits()), w, a);
      } else {
        UpdateHitKeepsBranch(cfg, U, v, com, m, pc, target, kind, w, a);
      }
    }
  }

  lemma UpdateHitKeepsBranch(cfg: Config, U: set<Addr>, v: Levels, com: Committed, m: Option<Addr>, pc: Addr, target: Addr,
                             kind: BranchType, w: Victims, a: Addr)
    requires cfg.Valid() && ToldApart(cfg, U) && pc in U && a in U && cfg.Key1(pc) in v.l1 && BranchOk(cfg, v, com, m, a)
    requires BufferAgrees(cfg, v, pc, target) || m == Some(pc)
    ensures BranchOk(cfg, Update(cfg, v, pc, target, kind, w), com[pc := target], m, a)
  {
    if a != pc {
      assert cfg.Key1(a) != cfg.Key1(pc);
      assert CopiesOf(cfg, Update(cfg, v, pc, target, kind, w), a) == CopiesOf(cfg, v, a);
    }
  }

  /** Whatever a lookup finds first is the branch itself, with the committed target. */
  lemma FirstHitIsFresh(cfg: Config, U: set<Addr>, v: Levels, com: Committed, m: Option<Addr>, pc: Addr)
    requires cfg.Valid() && ToldApart(cfg, U) && Coherent(cfg, U, v, com, m) && pc in U
    requires FirstHit(cfg, v, pc) != Nowhere
    ensures CommittedTarget(com, pc) == Some(HitEntry(cfg, v, pc).target)
    ensures HitEntry(cfg, v, pc).branchAddr == pc
  {
    assert BranchOk(cfg, v, com, m, pc);
    match FirstHit(cfg, v, pc)
    case InL1 => FoundBranch(cfg, cfg.g1, U, v.l1, pc);
    case InBuffer => FoundBranch(cfg, cfg.gp, U, v.pb, pc);
    case InL2 => FoundBranch(cfg, cfg.g2, U, v.l2, pc);
    case InL3 => FoundBranch(cfg, cfg.g3, U, v.l3, pc);
  }

  lemma PromoteKeyed(cfg: Config, U: set<Addr>, v: Levels, com: Committed, m: Option<Addr>, pc: Addr, w: Victims)
    requires cfg.Valid() && ToldApart(cfg, U) && Coherent(cfg, U, v, com, m) && pc in U
    ensures AllKeyed(cfg, U, Promote(cfg, v, pc, w))
  {
    if FirstHit(cfg, v, pc) != Nowhere {
      FirstHitIsFresh(cfg, U, v, com, m, pc);
      var e := HitEntry(cfg, v, pc);
      match FirstHit(cfg, v, pc)
      case InL1 =>
      case InBuffer => InstallKeyed(cfg, U, v, pc, Promoted(cfg, pc, e), w);
      case InL2 => InstallKeyed(cfg, U, WithoutL2(cfg, v, cfg.Key2(pc)), pc, Promoted(cfg, pc, e), w);
      case InL3 => InstallKeyed(cfg, U, WithoutL3(cfg, v, cfg.Key3(pc)), pc, Merge(Blank(pc), e), w);
    }
  }

  lemma PromoteBufferKeepsBranch(cfg: Config, U: set<Addr>, v: Levels, com: Committed, m: Option<Addr>, pc: Addr, w: Victims,
                                 a: Addr)
    requires cfg.Valid() && ToldApart(cfg, U) && AllKeyed(cfg, U, v) && pc in U && a in U && SparesMasked(cfg, m, w)
    requires cfg.KeyP(pc) in v.pb && CommittedTarget(com, pc) == Some(v.pb[cfg.KeyP(pc)].target)
    requires BranchOk(cfg, v, com, m, a)
    ensures BranchOk(cfg, PromoteFromBuffer(cfg, v, pc, w), com, m, a)
  {
    InstallKeepsBranch(cfg, U, v, com, m, pc, Promoted(cfg, pc, v.pb[cfg.KeyP(pc)]), w, a);
    assert a != pc ==> cfg.KeyP(a) != cfg.KeyP(pc);
  }

  lemma PromoteL2KeepsBranch(cfg: Config, U: set<Addr>, v: Levels, com: Committed, m: Option<Addr>, pc: Addr, w: Victims,
                             a: Addr)
    requires cfg.Valid() && ToldApart(cfg, U) && AllKeyed(cfg, U, v) && pc in U && a in U && SparesMasked(cfg, m, w)
    requires cfg.Key2(pc) in v.l2 && CommittedTarget(com, pc) == Some(v.l2[cfg.Key2(pc)].target)
    requires cfg.Key1(pc) !in v.l1 && BranchOk(cfg, v, com, m, a)
    ensures BranchOk(cfg, PromoteFromL2(cfg, v, pc, w), com, m, a)
  {
    var source := WithoutL2(cfg, v, cfg.Key2(pc));
    assert AllKeyed(cfg, U, source);
    if a != pc {
      assert cfg.Key2(a) != cfg.Key2(pc);
      assert CopiesOf(cfg, source, a) == CopiesOf(cfg, v, a);
    }
    InstallKeepsBranch(cfg, U, source, com, m, pc, Promoted(cfg, pc, v.l2[cfg.Key2(pc)]), w, a);
  }

  lemma PromoteL3KeepsBranch(cfg: Config, U: set<Addr>, v: Levels, com: Committed, m: Option<Addr>, pc: Addr, w: Victims,
                             a: Addr)
    requires cfg.Valid() && ToldApart(cfg, U) && AllKeyed(cfg, U, v) && pc in U && a in U && SparesMasked(cfg, m, w)
    requires cfg.Key3(pc) in v.l3 && CommittedTarget(com, pc) == Some(v.l3[cfg.Key3(pc)].target)
    requires cfg.Key1(pc) !in v.l1 && BranchOk(cfg, v, com, m, a)
    ensures BranchOk(cfg, PromoteFromL3(cfg, v, pc, w), com, m, a)
  {
    var source := WithoutL3(cfg, v, cfg.Key3(pc));
    assert AllKeyed(cfg, U, source);
    if a != pc {
      assert cfg.Key3(a) != cfg.Key3(pc);
      assert CopiesOf(cfg, source, a) == CopiesOf(cfg, v, a);
    }
    InstallKeepsBranch(cfg, U, source, com, m, pc, Merge(Blank(pc), v.l3[cfg.Key3(pc)]), w, a);
  }

  /** Moving what a lookup found to L1 keeps the hierarchy coherent. */
  lemma PromoteKeepsCoherence(cfg: Config, U: set<Addr>, v: Levels, com: Committed, m: Option<Addr>, pc: Addr, w: Victims)
    requires cfg.Valid() && ToldApart(cfg, U) && Coherent(cfg, U, v, com, m) && pc in U
    requires FirstHit(cfg, v, pc) == InL1 || SparesMasked(cfg, m, w)
    ensures Coherent(cfg, U, Promote(cfg, v, pc, w), com, m)
  {
    PromoteKeyed(cfg, U, v, com, m, pc, w);
    if FirstHit(cfg, v, pc) != Nowhere && FirstHit(cfg, v, pc) != InL1 {
      FirstHitIsFresh(cfg, U, v, com, m, pc);
      forall a | a in U ensures BranchOk(cfg, Promote(cfg, v, pc, w), com, m, a) {
        assert BranchOk(cfg, v, com, m, a);
        match FirstHit(cfg, v, pc)
        case InBuffer => PromoteBufferKeepsBranch(cfg, U, v, com, m, pc, w, a);
        case InL2 => PromoteL2KeepsBranch(cfg, U, v, com, m, pc, w, a);
        case InL3 => PromoteL3KeepsBranch(cfg, U, v, com, m, pc, w, a);
      }
    }
  }

  /** A prefetched copy is taken from the level that is up to date. */
  lemma FillKeepsCoherence(cfg: Config, U: set<Addr>, v: Levels, com: Committed, m: Option<Addr>, pc: Addr, e: Entry,
                           arrival: nat, origin: Origin, victim: Option<Key>)
    requires cfg.Valid() && ToldApart(cfg, U) && Coherent(cfg, U, v, com, m) && pc in U
    requires CommittedTarget(com, pc) == Some(e.target)
    ensures Coherent(cfg, U, FillBuffer(cfg, v, pc, e, arrival, origin, victim), com, m)
  {
    forall a | a in U ensures BranchOk(cfg, FillBuffer(cfg, v, pc, e, arrival, origin, victim), com, m, a) {
      assert BranchOk(cfg, v, com, m, a);
      assert a != pc ==> cfg.KeyP(a) != cfg.KeyP(pc);
    }
  }

  lemma SourceIsFresh(cfg: Config, U: set<Addr>, v: Levels, com: Committed, m: Option<Addr>, pc: Addr)
    requires cfg.Valid() && Coherent(cfg, U, v, com, m) && pc in U
    requires cfg.Key1(pc) !in v.l1 && PrefetchSource(cfg, v, pc) != NoSource
    ensures CommittedTarget(com, pc) == Some(PrefetchSource(cfg, v, pc).entry.target)
  {
    assert BranchOk(cfg, v, com, m, pc);
  }

  /** Changing training bits or a direction counter in L1 changes no copy. */
  lemma RetrainKeepsCoherence(cfg: Config, U: set<Addr>, v: Levels, com: Committed, m: Option<Addr>, k: Key, e: Entry)
    requires cfg.Valid() && Coherent(cfg, U, v, com, m) && k in v.l1
    requires e.branchAddr == v.l1[k].branchAddr && e.target == v.l1[k].target
    ensures Coherent(cfg, U, v.(l1 := v.l1[k := e]), com, m)
  {
    var v' := v.(l1 := v.l1[k := e]);
    assert AllKeyed(cfg, U, v');
    forall a | a in U ensures BranchOk(cfg, v', com, m, a) {
      assert BranchOk(cfg, v, com, m, a);
      SameTargets(v.l1, k, e, cfg.Key1(a));
      assert CopiesOf(cfg, v', a) == CopiesOf(cfg, v, a);
    }
  }

  lemma SameTargets(level: Level, k: Key, e: Entry, j: Key)
    requires k in level && level[k].target == e.target
    ensures TargetAt(level[k := e], j) == TargetAt(level, j)
  {
  }

  // ---------------------------------------------------------------- prefetching

  ghost predicate MapIn(U: set<Addr>, blocks: BlockMap) {
    forall a | a in blocks :: blocks[a] in U
  }

  ghost predicate TableIn(U: set<Addr>, table: MarkovTable) {
    forall a, x | a in table && x in table[a] :: x == 0 || x in U
  }

  ghost predicate QueueIn(U: set<Addr>, queue: seq<Deferred>) {
    forall i | 0 <= i < |queue| :: queue[i].pc in U
  }

  lemma {:induction false} EnqueueIn(U: set<Addr>, queue: seq<Deferred>, d: Deferred)
    requires QueueIn(U, queue) && d.pc in U
    ensures QueueIn(U, Enqueue(queue, d))
  {
    if queue != [] && queue[0].issueTime < d.issueTime {
      EnqueueIn(U, queue[1..], d);
    }
  }

  lemma DeferBlockIn(cfg: Config, U: set<Addr>, v: Levels, queue: seq<Deferred>, now: nat, blocks: BlockMap,
                     start: Option<Addr>, depth: nat, base: nat, trigger: BranchType, chainId: nat, allocate: bool)
    requires cfg.Valid() && MapIn(U, blocks) && QueueIn(U, queue)
    ensures QueueIn(U, DeferBlock(cfg, v, queue, now, blocks, start, depth, base, trigger, chainId, allocate))
  {
    if start.Some? && start.value in blocks {
      EnqueueIn(U, queue, Deferred(blocks[start.value], now + base + 1, trigger, chainId, allocate, depth));
    }
  }

  lemma DeferPairIn(cfg: Config, U: set<Addr>, v: Levels, queue: seq<Deferred>, now: nat, blocks: BlockMap,
                    target: Option<Addr>, through: Option<Addr>,
                    depth: nat, base: nat, trigger: BranchType, chainId: nat, allocate: bool)
    requires cfg.Valid() && MapIn(U, blocks) && QueueIn(U, queue)
    ensures QueueIn(U, DeferPair(cfg, v, queue, now, blocks, target, through, depth, base, trigger, chainId, allocate))
  {
    DeferBlockIn(cfg, U, v, queue, now, blocks, target, depth, base, trigger, chainId, allocate);
    DeferBlockIn(cfg, U, v, DeferBlock(cfg, v, queue, now, blocks, target, depth, base, trigger, chainId, allocate), now,
                 blocks, through, depth, if target.Some? then base + 1 else base, trigger, chainId, allocate);
  }

  lemma FollowPathIn(cfg: Config, U: set<Addr>, v: Levels, g: Engine, now: nat, blocks: BlockMap, kind: BranchType,
                     target: Addr, through: Addr, pick: (bool, bool), base: nat)
    requires cfg.Valid() && MapIn(U, blocks) && QueueIn(U, g.queue)
    ensures QueueIn(U, FollowPath(cfg, v, g, now, blocks, kind, target, through, pick, base).queue)
  {
    DeferPairIn(cfg, U, v, g.queue, now, blocks, When(pick.0, target), When(pick.1, through), EffectiveDepth(cfg, kind),
                base, kind, g.nextChain, true);
  }

  lemma TriggerIn(cfg: Config, U: set<Addr>, v: Levels, g: Engine, now: nat, bbMap: Option<BlockMap>, pc: Addr,
                  kind: BranchType, e: Entry, taken: bool, loc: Location, base: nat, l1Miss: bool)
    requires cfg.Valid() && (bbMap.Some? ==> MapIn(U, bbMap.value)) && QueueIn(U, g.queue)
    ensures QueueIn(U, Trigger(cfg, v, g, now, bbMap, pc, kind, e, taken, loc, base, l1Miss).queue)
  {
    if bbMap.Some? {
      var backward := e.target < pc;
      FollowPathIn(cfg, U, v, g.(prevBackward := backward, prevL1Miss := l1Miss), now, bbMap.value, kind, e.target,
                   pc + cfg.minInstSize,
                   ApplyNewPBits(cfg, g.prevBackward && g.prevL1Miss, kind, taken, backward, e.pfTarget, e.pfThrough, loc),
                   base);
    }
  }

  lemma FollowIn(cfg: Config, U: set<Addr>, s: State, blocks: BlockMap, d: Deferred, e: Entry, arrival: nat)
    requires cfg.Valid() && MapIn(U, blocks) && QueueIn(U, s.engine.queue)
    ensures QueueIn(U, Follow(cfg, s, blocks, d, e, arrival).queue)
  {
    DeferPairIn(cfg, U, s.levels, s.engine.queue, s.now, blocks, When(e.pfTarget, e.target),
                When(e.pfThrough, d.pc + cfg.minInstSize), 1, if arrival > s.now then arrival - s.now else 0, e.kind,
                d.chainId, false);
  }

  /** Levels that are coherent, and a queue that names branches of U only. */
  ghost predicate CoherentState(cfg: Config, U: set<Addr>, s: State, com: Committed, m: Option<Addr>)
    requires cfg.Valid()
  {
    Coherent(cfg, U, s.levels, com, m) && QueueIn(U, s.engine.queue)
  }

  lemma FillFromSource(cfg: Config, U: set<Addr>, v: Levels, com: Committed, m: Option<Addr>, pc: Addr, arrival: nat,
                       origin: Origin, victim: Option<Key>) returns (filled: Levels)
    requires cfg.Valid() && ToldApart(cfg, U) && Coherent(cfg, U, v, com, m) && pc in U
    requires cfg.Key1(pc) !in v.l1 && PrefetchSource(cfg, v, pc) != NoSource
    ensures filled == FillBuffer(cfg, v, pc, PrefetchSource(cfg, v, pc).entry, arrival, origin, victim)
    ensures Coherent(cfg, U, filled, com, m)
  {
    SourceIsFresh(cfg, U, v, com, m, pc);
    filled := FillBuffer(cfg, v, pc, PrefetchSource(cfg, v, pc).entry, arrival, origin, victim);
    FillKeepsCoherence(cfg, U, v, com, m, pc, PrefetchSource(cfg, v, pc).entry, arrival, origin, victim);
  }

  lemma IssueKeepsCoherence(cfg: Config, U: set<Addr>, s: State, com: Committed, m: Option<Addr>, d: Deferred, victim: Option<Key>)
    requires cfg.Valid() && ToldApart(cfg, U) && |s.engine.chains| == cfg.maxChains
    requires Coherent(cfg, U, s.levels, com, m) && d.pc in U && Issues(cfg, s, d)
    ensures Coherent(cfg, U, Issue(cfg, s, d, victim).levels, com, m)
  {
    var source := PrefetchSource(cfg, s.levels, d.pc);
    var filled := FillFromSource(cfg, U, s.levels, com, m, d.pc, d.issueTime + source.latency,
                                 ByFerret(source.fromL3, d.issueTime), victim);
    assert Issue(cfg, s, d, victim).levels == filled;
  }

  lemma ProcessOneIn(cfg: Config, U: set<Addr>, s: State, blocks: BlockMap, d: Deferred, victim: Option<Key>)
    requires cfg.Valid() && |s.engine.chains| == cfg.maxChains && QueueIn(U, s.engine.queue) && MapIn(U, blocks)
    ensures QueueIn(U, ProcessOne(cfg, s, blocks, d, victim).engine.queue)
  {
    if Issues(cfg, s, d) && Continues(cfg, s.engine.chains, d) {
      var source := PrefetchSource(cfg, s.levels, d.pc);
      FollowIn(cfg, U, Issue(cfg, s, d, victim), blocks, d, source.entry, d.issueTime + source.latency);
    }
  }

  lemma ProcessOneLevels(cfg: Config, s: State, blocks: BlockMap, d: Deferred, victim: Option<Key>)
    requires cfg.Valid() && |s.engine.chains| == cfg.maxChains
    ensures ProcessOne(cfg, s, blocks, d, victim).levels ==
            if Issues(cfg, s, d) then Issue(cfg, s, d, victim).levels else s.levels
  {
  }

  lemma ProcessOneKeepsCoherence(cfg: Config, U: set<Addr>, s: State, com: Committed, m: Option<Addr>, blocks: BlockMap,
                                 d: Deferred, victim: Option<Key>) returns (s': State)
    requires cfg.Valid() && ToldApart(cfg, U) && |s.engine.chains| == cfg.maxChains
    requires CoherentState(cfg, U, s, com, m) && MapIn(U, blocks) && d.pc in U
    ensures s' == ProcessOne(cfg, s, blocks, d, victim) && CoherentState(cfg, U, s', com, m)
  {
    s' := ProcessOne(cfg, s, blocks, d, victim);
    ProcessOneIn(cfg, U, s, blocks, d, victim);
    ProcessOneLevels(cfg, s, blocks, d, victim);
    if Issues(cfg, s, d) {
      IssueKeepsCoherence(cfg, U, s, com, m, d, victim);
    }
  }

  lemma {:induction false} ProcessAllKeepsCoherence(cfg: Config, U: set<Addr>, s: State, com: Committed, m: Option<Addr>,
                                                    blocks: BlockMap, due: seq<Deferred>, victims: seq<Option<Key>>)
    requires cfg.Valid() && ToldApart(cfg, U) && |s.engine.chains| == cfg.maxChains && |victims| == |due|
    requires CoherentState(cfg, U, s, com, m) && MapIn(U, blocks) && QueueIn(U, due)
    ensures CoherentState(cfg, U, ProcessAll(cfg, s, blocks, due, victims), com, m)
    decreases |due|
  {
    if due != [] {
      var s' := ProcessOneKeepsCoherence(cfg, U, s, com, m, blocks, due[0], victims[0]);
      assert QueueIn(U, due[1..]);
      ProcessAllKeepsCoherence(cfg, U, s', com, m, blocks, due[1..], victims[1..]);
    }
  }

  /** A hop prefetches a branch of U that is in L2 and not in L1. */
  lemma HopPicks(cfg: Config, U: set<Addr>, v: Levels, now: nat, table: MarkovTable, pc: Addr, base: nat, victim: Option<Key>)
    returns (arrival: nat, origin: Origin)
    requires cfg.Valid() && TableIn(U, table) && HopMarkov(cfg, v, now, table, pc, base, victim).Hop?
    ensures var hop := HopMarkov(cfg, v, now, table, pc, base, victim);
            && hop.pc in U && cfg.Key1(hop.pc) !in v.l1 && PrefetchSource(cfg, v, hop.pc) != NoSource
            && hop.levels == FillBuffer(cfg, v, hop.pc, PrefetchSource(cfg, v, hop.pc).entry, arrival, origin, victim)
  {
    PickedIsMissing(cfg, v, table[pc], 0);
    var extra := base + PickMarkov(cfg, v, table[pc], 0).skipped;
    arrival, origin := now + cfg.l2Latency + extra, ByMarkov(now, extra);
  }

  lemma {:induction false} MarkovKeepsCoherence(cfg: Config, U: set<Addr>, v: Levels, com: Committed, m: Option<Addr>, now: nat,
                                                table: MarkovTable, pc: Addr, base: nat, depth: nat, victims: seq<Option<Key>>)
    requires cfg.Valid() && ToldApart(cfg, U) && Coherent(cfg, U, v, com, m) && TableIn(U, table)
    ensures Coherent(cfg, U, MarkovFill(cfg, v, now, table, pc, base, depth, victims), com, m)
    decreases depth
  {
    var hop := HopMarkov(cfg, v, now, table, pc, base, NextVictim(victims));
    if hop.Hop? {
      var arrival, origin := HopPicks(cfg, U, v, now, table, pc, base, NextVictim(victims));
      var filled := FillFromSource(cfg, U, v, com, m, hop.pc, arrival, origin, NextVictim(victims));
      if depth > 2 {
        MarkovKeepsCoherence(cfg, U, hop.levels, com, m, now, table, hop.pc, hop.charged, depth - 1, LaterVictims(victims));
      }
    }
  }

  // ---------------------------------------------------------------- whole runs

  /** The operation names only branches of U. */
  ghost predicate OpIn(U: set<Addr>, op: Op) {
    match op
    case LookupOp(pc, _, _, _, _, bbMap, table, _, _) =>
      pc in U && (bbMap.Some? ==> MapIn(U, bbMap.value)) && TableIn(U, table)
    case UpdateOp(pc, _, _, _) => pc in U
    case CycleOp(blocks, _) => MapIn(U, blocks)
    case _ => true
  }

  /** The only operation that can go wrong: committing a target that the buffer contradicts. */
  ghost predicate Guarded(cfg: Config, s: State, op: Op)
    requires cfg.Valid()
  {
    op.UpdateOp? ==> BufferAgrees(cfg, s.levels, op.pc, op.target)
  }

  ghost function CommitAfter(com: Committed, op: Op): Committed {
    if op.UpdateOp? then com[op.pc := op.target] else com
  }

  /** The levels in which the operation makes room in L1, if it does, and for which branch. */
  function RoomFor(cfg: Config, s: State, op: Op): Option<(Levels, Addr, Victims)>
    requires cfg.Valid()
  {
    match op
    case UpdateOp(pc, _, _, w) => if cfg.Key1(pc) in s.levels.l1 then None else Some((s.levels, pc, w))
    case LookupOp(pc, _, _, _, blockStart, _, _, w, _) =>
      var v := TrainOnLookup(cfg, s, blockStart);
      var hit := FirstHit(cfg, v, pc);
      if hit == Nowhere || hit == InL1 || LookupAnswer(cfg, v, s.now, pc) == Threw then None
      else Some((RoomAt(cfg, v, pc), pc, w))
    case _ => None
  }

  ghost predicate OpSpares(cfg: Config, s: State, op: Op, m: Option<Addr>)
    requires cfg.Valid()
  {
    var room := RoomFor(cfg, s, op);
    room.Some? ==> SparesMasked(cfg, m, room.value.2)
  }

  lemma TrainedIsCoherent(cfg: Config, U: set<Addr>, s: State, com: Committed, m: Option<Addr>, blockStart: Addr)
    requires cfg.Valid() && Coherent(cfg, U, s.levels, com, m)
    ensures Coherent(cfg, U, TrainOnLookup(cfg, s, blockStart), com, m)
  {
    var v := TrainOnLookup(cfg, s, blockStart);
    if v != s.levels {
      var k := cfg.Key1(s.prevBlock.value.branchPC);
      RetrainKeepsCoherence(cfg, U, s.levels, com, m, k, v.l1[k]);
    }
  }

  lemma AfterHitKeepsCoherence(cfg: Config, U: set<Addr>, s: State, com: Committed, m: Option<Addr>, op: Op, hit: HitLevel, e: Entry)
    requires cfg.Valid() && ToldApart(cfg, U) && CoherentState(cfg, U, s, com, m) && op.LookupOp? && OpIn(U, op) && hit != Nowhere
    ensures CoherentState(cfg, U, AfterHit(cfg, s, op, hit, e), com, m)
  {
    MarkovKeepsCoherence(cfg, U, s.levels, com, m, s.now, op.markov, op.pc, TriggerBase(cfg, hit, e, s.now), cfg.prefetchDepth,
                         op.fills);
    TriggerIn(cfg, U, s.levels, s.engine, s.now, op.bbMap, op.pc, op.kind, e,
              if hit == InL1 || hit == InBuffer then op.basePrediction else op.taken,
              TriggerAt(hit), TriggerBase(cfg, hit, e, s.now), hit != InL1);
  }

  lemma LookupKeepsCoherence(cfg: Config, U: set<Addr>, s: State, com: Committed, m: Option<Addr>, op: Op)
    requires cfg.Valid() && ToldApart(cfg, U) && CoherentState(cfg, U, s, com, m) && op.LookupOp? && OpIn(U, op)
    requires OpSpares(cfg, s, op, m)
    ensures CoherentState(cfg, U, Lookup(cfg, s, op), com, m)
  {
    TrainedIsCoherent(cfg, U, s, com, m, op.blockStart);
    var v := TrainOnLookup(cfg, s, op.blockStart);
    var hit := FirstHit(cfg, v, op.pc);
    if hit != Nowhere && LookupAnswer(cfg, v, s.now, op.pc) != Threw {
      PromoteKeepsCoherence(cfg, U, v, com, m, op.pc, op.w);
      var moved := s.(levels := Promote(cfg, v, op.pc, op.w), engine := s.engine.(demand := s.engine.demand + {op.pc}));
      AfterHitKeepsCoherence(cfg, U, moved, com, m, op, hit, HitEntry(cfg, v, op.pc));
    }
  }

  lemma TrainKeepsCoherence(cfg: Config, U: set<Addr>, v: Levels, com: Committed, m: Option<Addr>, pc: Addr, taken: bool)
    requires cfg.Valid() && Coherent(cfg, U, v, com, m)
    ensures Coherent(cfg, U, TrainOnCommit(cfg, v, pc, taken), com, m)
    ensures Coherent(cfg, U, UpdateDirection(cfg, v, pc, taken), com, m)
  {
    var k := cfg.Key1(pc);
    if k in v.l1 {
      RetrainKeepsCoherence(cfg, U, v, com, m, k, TrainOnCommit(cfg, v, pc, taken).l1[k]);
      RetrainKeepsCoherence(cfg, U, v, com, m, k, UpdateDirection(cfg, v, pc, taken).l1[k]);
    }
  }

  lemma EmptyIsCoherent(cfg: Config, U: set<Addr>, v: Levels, com: Committed, m: Option<Addr>)
    requires cfg.Valid() && v.l1 == map[] && v.pb == map[] && v.l2 == map[] && Keyed(cfg, cfg.g3, U, v.l3)
    requires cfg.enableL3 ==> v.l3 == map[]
    ensures Coherent(cfg, U, v, com, m)
  {
  }

  lemma CycleKeepsCoherence(cfg: Config, U: set<Addr>, s: State, com: Committed, m: Option<Addr>, blocks: BlockMap,
                            victims: seq<Option<Key>>)
    requires cfg.Valid() && ToldApart(cfg, U) && CoherentState(cfg, U, s, com, m) && MapIn(U, blocks)
    requires |s.engine.chains| == cfg.maxChains && |victims| == DueCount(cfg, s.engine.queue, s.now)
    ensures CoherentState(cfg, U, Cycle(cfg, s, blocks, victims), com, m)
  {
    DueInRange(cfg, s.engine.queue, s.now);
    var n := DueCount(cfg, s.engine.queue, s.now);
    assert QueueIn(U, s.engine.queue[..n]) && QueueIn(U, s.engine.queue[n..]);
    ProcessAllKeepsCoherence(cfg, U, s.(engine := s.engine.(queue := s.engine.queue[n..])), com, m, blocks,
                             s.engine.queue[..n], victims);
  }

  /** Every guarded operation keeps the hierarchy coherent, whatever the replacement policies pick. */
  lemma StepKeepsCoherence(cfg: Config, U: set<Addr>, s: State, com: Committed, m: Option<Addr>, op: Op)
    requires cfg.Valid() && ToldApart(cfg, U) && Enabled(cfg, s, op) && OpIn(U, op) && CoherentState(cfg, U, s, com, m)
    requires Guarded(cfg, s, op) || (op.UpdateOp? && m == Some(op.pc))
    requires OpSpares(cfg, s, op, m)
    ensures CoherentState(cfg, U, Step(cfg, s, op), CommitAfter(com, op), m)
  {
    match op {
      case LookupOp(_, _, _, _, _, _, _, _, _) => LookupKeepsCoherence(cfg, U, s, com, m, op);
      case UpdateOp(pc, target, kind, w) => UpdateKeepsCoherence(cfg, U, s.levels, com, m, pc, target, kind, w);
      case CommitOp(pc, taken) => TrainKeepsCoherence(cfg, U, s.levels, com, m, pc, taken);
      case DirectionOp(pc, taken) => TrainKeepsCoherence(cfg, U, s.levels, com, m, pc, taken);
      case CycleOp(blocks, victims) => CycleKeepsCoherence(cfg, U, s, com, m, blocks, victims);
      case InvalidateOp => EmptyIsCoherent(cfg, U, Step(cfg, s, op).levels, com, m);
    }
  }

  /** A legal run over branches of U in which every commit agrees with the buffer. */
  ghost predicate GuardedRun(cfg: Config, U: set<Addr>, s: State, ops: seq<Op>)
    requires cfg.Valid()
    decreases |ops|
  {
    ops == [] ||
    (&& Enabled(cfg, s, ops[0]) && OpIn(U, ops[0]) && Guarded(cfg, s, ops[0])
     && GuardedRun(cfg, U, Step(cfg, s, ops[0]), ops[1..]))
  }

  ghost function CommittedBy(com: Committed, ops: seq<Op>): Committed
    decreases |ops|
  {
    if ops == [] then com else CommittedBy(CommitAfter(com, ops[0]), ops[1..])
  }

  lemma {:induction false} RunKeepsCoherence(cfg: Config, U: set<Addr>, s: State, com: Committed, ops: seq<Op>)
    requires cfg.Valid() && ToldApart(cfg, U) && CoherentState(cfg, U, s, com, None) && GuardedRun(cfg, U, s, ops)
    ensures Legal(cfg, s, ops)
    ensures CoherentState(cfg, U, Run(cfg, s, ops), CommittedBy(com, ops), None)
    decreases |ops|
  {
    if ops != [] {
      StepKeepsCoherence(cfg, U, s, com, None, ops[0]);
      RunKeepsCoherence(cfg, U, Step(cfg, s, ops[0]), CommitAfter(com, ops[0]), ops[1..]);
    }
  }

  lemma InitIsCoherent(cfg: Config, U: set<Addr>)
    requires cfg.Valid()
    ensures CoherentState(cfg, U, Init(cfg), map[], None)
  {
    EmptyIsCoherent(cfg, U, Init(cfg).levels, map[], None);
  }

  /** The lookup of `pc`, if it finds anything, finds the target committed last. */
  ghost predicate FindsCommitted(cfg: Config, s: State, com: Committed, pc: Addr)
    requires cfg.Valid()
  {
    FirstHit(cfg, s.levels, pc) != Nowhere ==> CommittedTarget(com, pc) == Some(HitEntry(cfg, s.levels, pc).target)
  }

  /** From the empty buffer, after any guarded run over branches that the tags tell apart, every lookup
      finds the committed target. */
  lemma LookupsFindCommittedTargets(cfg: Config, U: set<Addr>, ops: seq<Op>, pc: Addr)
    requires cfg.Valid() && ToldApart(cfg, U) && GuardedRun(cfg, U, Init(cfg), ops) && pc in U
    ensures Legal(cfg, Init(cfg), ops)
    ensures FindsCommitted(cfg, Run(cfg, Init(cfg), ops), CommittedBy(map[], ops), pc)
  {
    InitIsCoherent(cfg, U);
    RunKeepsCoherence(cfg, U, Init(cfg), map[], ops);
    var s := Run(cfg, Init(cfg), ops);
    if FirstHit(cfg, s.levels, pc) != Nowhere {
      FirstHitIsFresh(cfg, U, s.levels, CommittedBy(map[], ops), None, pc);
    }
  }

  // ---------------------------------------------------------------- what is forgotten

  /** Some level has the branch. */
  ghost predicate Known(cfg: Config, v: Levels, a: Addr)
    requires cfg.Valid()
  {
    var c := CopiesOf(cfg, v, a);
    c.t1.Some? || c.t2.Some? || c.t3.Some?
  }

  /** The replacement policies gave up the branch in the last level. */
  predicate LastVictim(cfg: Config, w: Victims, a: Addr)
    requires cfg.Valid()
  {
    if cfg.enableL3 then w.l3 == Some(cfg.Key3(a)) || w.l3Mirror == Some(cfg.Key3(a)) else w.l2 == Some(cfg.Key2(a))
  }

  lemma SpillRemembers(cfg: Config, U: set<Addr>, v: Levels, w: Victims, a: Addr)
    requires cfg.Valid() && ToldApart(cfg, U) && AllKeyed(cfg, U, v) && a in U && Known(cfg, v, a)
    ensures Known(cfg, SpillL2(cfg, v, w.l2, w.l3), a) || LastVictim(cfg, w, a)
  {
    if w.l2.Some? && w.l2.value in v.l2 {
      DropTarget(cfg, cfg.g2, U, v.l2, w.l2.value, a);
      if cfg.enableL3 {
        WriteBackTarget(cfg, cfg.g3, U, v.l3, v.l2[w.l2.value], w.l3, a);
      }
    }
  }

  lemma DemoteRemembers(cfg: Config, U: set<Addr>, v: Levels, k: Key, w: Victims, a: Addr)
    requires cfg.Valid() && ToldApart(cfg, U) && AllKeyed(cfg, U, v) && k in v.l1 && a in U && Known(cfg, v, a)
    ensures Known(cfg, DemoteL1(cfg, v, k, w), a) || LastVictim(cfg, w, a)
  {
    SpillRemembers(cfg, U, v, w, a);
    DropTarget(cfg, cfg.g1, U, v.l1, k, a);
    WriteBackTarget(cfg, cfg.g2, U, RoomBelow(cfg, v, k, w).l2, v.l1[k], None, a);
  }

  lemma FreeUpRemembers(cfg: Config, U: set<Addr>, v: Levels, w: Victims, a: Addr)
    requires cfg.Valid() && ToldApart(cfg, U) && AllKeyed(cfg, U, v) && a in U && Known(cfg, v, a)
    ensures Known(cfg, FreeUpL1(cfg, v, w), a) || LastVictim(cfg, w, a)
  {
    if w.l1.Some? && w.l1.value in v.l1 {
      DemoteRemembers(cfg, U, v, w.l1.value, w, a);
      if cfg.nonexclusive && cfg.enableL3 {
        WriteBackTarget(cfg, cfg.g3, U, DemoteL1(cfg, v, w.l1.value, w).l3, v.l1[w.l1.value], w.l3Mirror, a);
      }
    }
  }

  lemma InstallRemembers(cfg: Config, U: set<Addr>, v: Levels, pc: Addr, e: Entry, w: Victims, a: Addr)
    requires cfg.Valid() && ToldApart(cfg, U) && AllKeyed(cfg, U, v) && a in U
    requires a == pc || Known(cfg, v, a)
    ensures Known(cfg, Install(cfg, v, pc, e, w), a) || LastVictim(cfg, w, a)
    ensures cfg.Key1(pc) in Install(cfg, v, pc, e, w).l1
  {
    if a != pc {
      FreeUpRemembers(cfg, U, v, w, a);
    }
  }

  /** A lookup moves branches between levels; it forgets none but the victims of the last level, and
      what it found is in L1 afterwards. */
  lemma LookupForgetsOnlyLastVictims(cfg: Config, U: set<Addr>, v: Levels, pc: Addr, w: Victims, a: Addr)
    requires cfg.Valid() && ToldApart(cfg, U) && AllKeyed(cfg, U, v) && pc in U && a in U && Known(cfg, v, a)
    ensures Known(cfg, Promote(cfg, v, pc, w), a) || LastVictim(cfg, w, a)
    ensures FirstHit(cfg, v, pc) != Nowhere ==> cfg.Key1(pc) in Promote(cfg, v, pc, w).l1
  {
    match FirstHit(cfg, v, pc)
    case InL1 =>
    case InBuffer =>
      InstallRemembers(cfg, U, v, pc, Promoted(cfg, pc, v.pb[cfg.KeyP(pc)]), w, a);
    case InL2 =>
      assert a != pc ==> cfg.Key2(a) != cfg.Key2(pc);
      InstallRemembers(cfg, U, WithoutL2(cfg, v, cfg.Key2(pc)), pc, Promoted(cfg, pc, v.l2[cfg.Key2(pc)]), w, a);
    case InL3 =>
      assert a != pc ==> cfg.Key3(a) != cfg.Key3(pc);
      InstallRemembers(cfg, U, WithoutL3(cfg, v, cfg.Key3(pc)), pc, Merge(Blank(pc), v.l3[cfg.Key3(pc)]), w, a);
    case Nowhere =>
  }

  /** The same for committing a branch. */
  lemma UpdateForgetsOnlyLastVictims(cfg: Config, U: set<Addr>, v: Levels, pc: Addr, target: Addr, kind: BranchType, w: Victims,
                                     a: Addr)
    requires cfg.Valid() && ToldApart(cfg, U) && AllKeyed(cfg, U, v) && pc in U && a in U && Known(cfg, v, a)
    ensures Known(cfg, Update(cfg, v, pc, target, kind, w), a) || LastVictim(cfg, w, a)
    ensures cfg.Key1(pc) in Update(cfg, v, pc, target, kind, w).l1
  {
    if cfg.Key1(pc) !in v.l1 {
      InstallRemembers(cfg, U, v, pc, Blank(pc).(target := target, kind := kind, pfTarget := cfg.UsesBits()), w, a);
    }
  }
}
