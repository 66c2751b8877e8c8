/**
 When committing a target is safe. A copy in the prefetch buffer that contradicts a commit does no harm
 while L1 hides it; the question is whether the branch can be pushed out of L1.
 */
module BtbHazard {
  import opened Wrappers
  import opened AssociativeCache
  import opened BtbModel
  import opened BtbRuns
  import opened BtbChains
  import opened BtbCoherence
  import opened BtbPrefetch

  // ---------------------------------------------------------------- sets of L1

  /** The branches of U that compete with `p` for the ways of one set of L1. */
  ghost function SetMates(cfg: Config, U: set<Addr>, p: Addr): set<Addr>
    requires cfg.Valid()
  {
    set a | a in U && cfg.g1.SetOf(cfg.Key1(a)) == cfg.g1.SetOf(cfg.Key1(p))
  }

  /** The set of `p` has a way for every branch of U that uses it. */
  ghost predicate Roomy(cfg: Config, U: set<Addr>, p: Addr)
    requires cfg.Valid()
  {
    |SetMates(cfg, U, p)| <= cfg.g1.ways
  }

  ghost function KeysOf(cfg: Config, A: set<Addr>): set<Key>
    requires cfg.Valid()
  {
    set a | a in A :: cfg.Key1(a)
  }

  lemma {:induction false} KeysOfAtMost(cfg: Config, A: set<Addr>)
    requires cfg.Valid()
    ensures |KeysOf(cfg, A)| <= |A|
    decreases |A|
  {
    if A != {} {
      var a :| a in A;
      var rest := A - {a};
      assert A == rest + {a} && |rest| < |A|;
      KeysOfAtMost(cfg, rest);
      assert KeysOf(cfg, A) == KeysOf(cfg, rest) + {cfg.Key1(a)};
    }
  }

  lemma {:induction false} KeysOfDistinct(cfg: Config, U: set<Addr>, A: set<Addr>)
    requires cfg.Valid() && Separated(cfg, cfg.g1, U) && A <= U
    ensures |KeysOf(cfg, A)| == |A|
    decreases |A|
  {
    if A != {} {
      var a :| a in A;
      var rest := A - {a};
      assert A == rest + {a} && |rest| < |A|;
      KeysOfDistinct(cfg, U, rest);
      assert KeysOf(cfg, A) == KeysOf(cfg, rest) + {cfg.Key1(a)};
      assert cfg.Key1(a) !in KeysOf(cfg, rest);
    }
  }

  lemma Smaller<T>(a: set<T>, b: set<T>)
    requires a <= b
    ensures |a| <= |b|
  {
    assert b == a + (b - a);
  }

  /** A branch that is not in L1 has fewer rivals there than branches that use its set. */
  lemma FewerRivals(cfg: Config, U: set<Addr>, l1: Level, pc: Addr)
    requires cfg.Valid() && Keyed(cfg, cfg.g1, U, l1) && pc in U && cfg.Key1(pc) !in l1
    ensures |Rivals(cfg.g1, l1.Keys, cfg.Key1(pc))| < |SetMates(cfg, U, pc)|
  {
    var mates := SetMates(cfg, U, pc);
    var present := set a | a in mates && cfg.Key1(a) in l1;
    var rivals := Rivals(cfg.g1, l1.Keys, cfg.Key1(pc));
    forall k | k in rivals ensures k in KeysOf(cfg, present) {
      var a := l1[k].branchAddr;
      assert a in present && cfg.Key1(a) == k;
    }
    Smaller(rivals, KeysOf(cfg, present));
    KeysOfAtMost(cfg, present);
    assert present <= mates - {pc};
    Smaller(present, mates - {pc});
  }

  /** In a roomy set nothing is ever given up. */
  lemma RoomyIsSpared(cfg: Config, U: set<Addr>, l1: Level, pc: Addr, p: Addr, victim: Option<Key>)
    requires cfg.Valid() && Keyed(cfg, cfg.g1, U, l1) && pc in U && cfg.Key1(pc) !in l1 && Roomy(cfg, U, p)
    requires Picks(cfg.g1, l1.Keys, cfg.Key1(pc), victim)
    ensures victim != Some(cfg.Key1(p))
  {
    FewerRivals(cfg, U, l1, pc);
    if cfg.g1.SetOf(cfg.Key1(p)) == cfg.g1.SetOf(cfg.Key1(pc)) {
      assert SetMates(cfg, U, p) == SetMates(cfg, U, pc);
      assert victim == None;
    } else {
      assert cfg.Key1(p) !in Rivals(cfg.g1, l1.Keys, cfg.Key1(pc));
    }
  }

  // ---------------------------------------------------------------- L1 stays within its ways

  ghost predicate Fits(cfg: Config, v: Levels)
    requires cfg.Valid()
  {
    forall k: Key :: |Rivals(cfg.g1, v.l1.Keys, k)| <= cfg.g1.ways
  }

  lemma RivalsAdded(g: Geometry, keys: set<Key>, key: Key, k: Key)
    requires g.Valid()
    ensures Rivals(g, keys + {key}, k) == Rivals(g, keys, k) + (if g.SetOf(key) == g.SetOf(k) then {key} else {})
  {
  }

  lemma RivalsRemoved(g: Geometry, keys: set<Key>, key: Key, k: Key)
    requires g.Valid()
    ensures Rivals(g, keys - {key}, k) == Rivals(g, keys, k) - {key}
  {
  }

  lemma PickedFits(g: Geometry, keys: set<Key>, key: Key, victim: Option<Key>, k: Key)
    requires g.Valid() && key !in keys && Picks(g, keys, key, victim)
    requires |Rivals(g, keys, k)| <= g.ways && |Rivals(g, keys, key)| <= g.ways
    ensures |Rivals(g, (if victim.Some? then keys - {victim.value} else keys) + {key}, k)| <= g.ways
  {
    var less := if victim.Some? then keys - {victim.value} else keys;
    RivalsAdded(g, less, key, k);
    if victim.Some? {
      RivalsRemoved(g, keys, victim.value, k);
    }
    if g.SetOf(key) == g.SetOf(k) {
      assert Rivals(g, keys, k) == Rivals(g, keys, key);
    }
  }

  lemma FreeUpKeys(cfg: Config, v: Levels, w: Victims)
    requires cfg.Valid()
    ensures FreeUpL1(cfg, v, w).l1.Keys == if w.l1.Some? then v.l1.Keys - {w.l1.value} else v.l1.Keys
    ensures FreeUpL1(cfg, v, w).pb == v.pb
  {
  }

  lemma InstallFits(cfg: Config, v: Levels, pc: Addr, e: Entry, w: Victims)
    requires cfg.Valid() && Fits(cfg, v) && cfg.Key1(pc) !in v.l1 && Picks(cfg.g1, v.l1.Keys, cfg.Key1(pc), w.l1)
    ensures Fits(cfg, Install(cfg, v, pc, e, w))
  {
    FreeUpKeys(cfg, v, w);
    forall k: Key ensures |Rivals(cfg.g1, Install(cfg, v, pc, e, w).l1.Keys, k)| <= cfg.g1.ways {
      PickedFits(cfg.g1, v.l1.Keys, cfg.Key1(pc), w.l1, k);
      assert Install(cfg, v, pc, e, w).l1.Keys == FreeUpL1(cfg, v, w).l1.Keys + {cfg.Key1(pc)};
    }
  }

  lemma SameKeysFit(cfg: Config, v: Levels, v': Levels)
    requires cfg.Valid() && Fits(cfg, v) && v'.l1.Keys == v.l1.Keys
    ensures Fits(cfg, v')
  {
  }

  lemma {:induction false} ProcessAllKeepsL1(cfg: Config, s: State, blocks: BlockMap, due: seq<Deferred>, victims: seq<Option<Key>>)
    requires cfg.Valid() && |s.engine.chains| == cfg.maxChains && |victims| == |due|
    ensures ProcessAll(cfg, s, blocks, due, victims).levels.l1 == s.levels.l1
    decreases |due|
  {
    if due != [] {
      ProcessAllKeepsL1(cfg, ProcessOne(cfg, s, blocks, due[0], victims[0]), blocks, due[1..], victims[1..]);
    }
  }

  lemma TrainKeepsKeys(cfg: Config, s: State, blockStart: Addr)
    requires cfg.Valid()
    ensures TrainOnLookup(cfg, s, blockStart).l1.Keys == s.levels.l1.Keys
  {
  }

  lemma PromoteFits(cfg: Config, v: Levels, pc: Addr, w: Victims)
    requires cfg.Valid() && Fits(cfg, v)
    requires FirstHit(cfg, v, pc) != InL1 && FirstHit(cfg, v, pc) != Nowhere ==>
               Picks(cfg.g1, v.l1.Keys, cfg.Key1(pc), w.l1)
    ensures Fits(cfg, Promote(cfg, v, pc, w))
  {
    match FirstHit(cfg, v, pc)
    case InBuffer => InstallFits(cfg, v, pc, Promoted(cfg, pc, v.pb[cfg.KeyP(pc)]), w);
    case InL2 => InstallFits(cfg, WithoutL2(cfg, v, cfg.Key2(pc)), pc, Promoted(cfg, pc, v.l2[cfg.Key2(pc)]), w);
    case InL3 => InstallFits(cfg, WithoutL3(cfg, v, cfg.Key3(pc)), pc, Merge(Blank(pc), v.l3[cfg.Key3(pc)]), w);
    case _ =>
  }

  lemma LookupFits(cfg: Config, s: State, op: Op)
    requires cfg.Valid() && Enabled(cfg, s, op) && op.LookupOp? && Realistic(cfg, s, op) && Fits(cfg, s.levels)
    ensures Fits(cfg, Lookup(cfg, s, op).levels)
  {
    var v := TrainOnLookup(cfg, s, op.blockStart);
    TrainKeepsKeys(cfg, s, op.blockStart);
    SameKeysFit(cfg, s.levels, v);
    var hit := FirstHit(cfg, v, op.pc);
    if hit != Nowhere && LookupAnswer(cfg, v, s.now, op.pc) != Threw {
      PromoteFits(cfg, v, op.pc, op.w);
      MarkovKeepsL1(cfg, Promote(cfg, v, op.pc, op.w), s.now, op.markov, op.pc,
                    TriggerBase(cfg, hit, HitEntry(cfg, v, op.pc), s.now), cfg.prefetchDepth, op.fills);
    }
  }

  lemma UpdateFits(cfg: Config, s: State, op: Op)
    requires cfg.Valid() && Enabled(cfg, s, op) && op.UpdateOp? && Realistic(cfg, s, op) && Fits(cfg, s.levels)
    ensures Fits(cfg, Step(cfg, s, op).levels)
  {
    if cfg.Key1(op.pc) in s.levels.l1 {
      SameKeysFit(cfg, s.levels, Step(cfg, s, op).levels);
    } else {
      InstallFits(cfg, s.levels, op.pc, Blank(op.pc).(target := op.target, kind := op.kind, pfTarget := cfg.UsesBits()), op.w);
    }
  }

  lemma EmptyFits(cfg: Config, v: Levels)
    requires cfg.Valid() && v.l1 == map[]
    ensures Fits(cfg, v)
  {
    forall k: Key ensures |Rivals(cfg.g1, v.l1.Keys, k)| <= cfg.g1.ways {
      assert Rivals(cfg.g1, v.l1.Keys, k) == {};
    }
  }

  /** With possible victims no set of L1 ever holds more branches than it has ways. */
  lemma StepFits(cfg: Config, s: State, op: Op)
    requires cfg.Valid() && Enabled(cfg, s, op) && Realistic(cfg, s, op) && Fits(cfg, s.levels)
    ensures Fits(cfg, Step(cfg, s, op).levels)
  {
    match op {
      case LookupOp(_, _, _, _, _, _, _, _, _) => LookupFits(cfg, s, op);
      case UpdateOp(_, _, _, _) => UpdateFits(cfg, s, op);
      case CommitOp(_, _) => SameKeysFit(cfg, s.levels, Step(cfg, s, op).levels);
      case DirectionOp(_, _) => SameKeysFit(cfg, s.levels, Step(cfg, s, op).levels);
      case CycleOp(blocks, victims) =>
        DueInRange(cfg, s.engine.queue, s.now);
        var n := DueCount(cfg, s.engine.queue, s.now);
        ProcessAllKeepsL1(cfg, s.(engine := s.engine.(queue := s.engine.queue[n..])), blocks, s.engine.queue[..n], victims);
        SameKeysFit(cfg, s.levels, Step(cfg, s, op).levels);
      case InvalidateOp => EmptyFits(cfg, Step(cfg, s, op).levels);
    }
  }

  lemma {:induction false} RunFits(cfg: Config, s: State, ops: seq<Op>)
    requires cfg.Valid() && Legal(cfg, s, ops) && RealisticRun(cfg, s, ops) && Fits(cfg, s.levels)
    ensures Fits(cfg, Run(cfg, s, ops).levels)
    decreases |ops|
  {
    if ops != [] {
      StepFits(cfg, s, ops[0]);
      RunFits(cfg, Step(cfg, s, ops[0]), ops[1..]);
    }
  }

  // ---------------------------------------------------------------- safe commits

  /** No possible guarded continuation ever lets a lookup find a target other than the committed one. */
  ghost predicate StaysCoherent(cfg: Config, U: set<Addr>, s: State, com: Committed)
    requires cfg.Valid()
  {
    forall ops, pc | GuardedRun(cfg, U, s, ops) && Legal(cfg, s, ops) && RealisticRun(cfg, s, ops) && pc in U ::
      FindsCommitted(cfg, Run(cfg, s, ops), CommittedBy(com, ops), pc)
  }

  /** An operation with possible victims does not push a branch out of a roomy set. */
  lemma RealisticSpares(cfg: Config, U: set<Addr>, s: State, op: Op, p: Addr)
    requires cfg.Valid() && Enabled(cfg, s, op) && Realistic(cfg, s, op) && OpIn(U, op)
    requires AllKeyed(cfg, U, s.levels) && Roomy(cfg, U, p)
    ensures OpSpares(cfg, s, op, Some(p))
  {
    var room := RoomFor(cfg, s, op);
    if room.Some? {
      match op {
        case UpdateOp(pc, _, _, w) => RoomyIsSpared(cfg, U, s.levels.l1, pc, p, w.l1);
        case LookupOp(pc, _, _, _, blockStart, _, _, w, _) =>
          var v := TrainOnLookup(cfg, s, blockStart);
          RoomyIsSpared(cfg, U, v.l1, pc, p, w.l1);
        case _ =>
      }
    }
  }

  lemma {:induction false} MaskedRunKeepsCoherence(cfg: Config, U: set<Addr>, s: State, com: Committed, p: Addr, ops: seq<Op>)
    requires cfg.Valid() && ToldApart(cfg, U) && CoherentState(cfg, U, s, com, Some(p)) && Roomy(cfg, U, p)
    requires GuardedRun(cfg, U, s, ops) && Legal(cfg, s, ops) && RealisticRun(cfg, s, ops)
    ensures CoherentState(cfg, U, Run(cfg, s, ops), CommittedBy(com, ops), Some(p))
    decreases |ops|
  {
    if ops != [] {
      RealisticSpares(cfg, U, s, ops[0], p);
      StepKeepsCoherence(cfg, U, s, com, Some(p), ops[0]);
      MaskedRunKeepsCoherence(cfg, U, Step(cfg, s, ops[0]), CommitAfter(com, ops[0]), p, ops[1..]);
    }
  }

  lemma CoherentStays(cfg: Config, U: set<Addr>, s: State, com: Committed)
    requires cfg.Valid() && ToldApart(cfg, U) && CoherentState(cfg, U, s, com, None)
    ensures StaysCoherent(cfg, U, s, com)
  {
    forall ops, pc | GuardedRun(cfg, U, s, ops) && Legal(cfg, s, ops) && RealisticRun(cfg, s, ops) && pc in U
      ensures FindsCommitted(cfg, Run(cfg, s, ops), CommittedBy(com, ops), pc)
    {
      RunKeepsCoherence(cfg, U, s, com, ops);
      if FirstHit(cfg, Run(cfg, s, ops).levels, pc) != Nowhere {
        FirstHitIsFresh(cfg, U, Run(cfg, s, ops).levels, CommittedBy(com, ops), None, pc);
      }
    }
  }

  lemma MaskedStays(cfg: Config, U: set<Addr>, s: State, com: Committed, p: Addr)
    requires cfg.Valid() && ToldApart(cfg, U) && CoherentState(cfg, U, s, com, Some(p)) && Roomy(cfg, U, p)
    ensures StaysCoherent(cfg, U, s, com)
  {
    forall ops, pc | GuardedRun(cfg, U, s, ops) && Legal(cfg, s, ops) && RealisticRun(cfg, s, ops) && pc in U
      ensures FindsCommitted(cfg, Run(cfg, s, ops), CommittedBy(com, ops), pc)
    {
      MaskedRunKeepsCoherence(cfg, U, s, com, p, ops);
      if FirstHit(cfg, Run(cfg, s, ops).levels, pc) != Nowhere {
        FirstHitIsFresh(cfg, U, Run(cfg, s, ops).levels, CommittedBy(com, ops), Some(p), pc);
      }
    }
  }

  // ---------------------------------------------------------------- pushing a branch out of L1

  lemma SomeMember<T>(s: set<T>) returns (x: T)
    requires s != {}
    ensures x in s
  {
    x :| x in s;
  }

  /** A replacement policy always has a way to give up. */
  lemma AnyPick(g: Geometry, keys: set<Key>, key: Key) returns (victim: Option<Key>)
    requires g.Valid()
    ensures Picks(g, keys, key, victim)
  {
    if |Rivals(g, keys, key)| < g.ways {
      victim := None;
    } else {
      assert Rivals(g, keys, key) != {};
      var k := SomeMember(Rivals(g, keys, key));
      victim := Some(k);
    }
  }

  lemma AnyPickBelow(cfg: Config, v: Levels, k: Key) returns (w: Victims)
    requires cfg.Valid() && k in v.l1
    ensures w.l1 == Some(k) && PicksBelow(cfg, v, k, w)
  {
    var pc := v.l1[k].branchAddr;
    var l2 := AnyPick(cfg.g2, v.l2.Keys, cfg.Key2(pc));
    var l3 := None;
    if l2.Some? && l2.value in v.l2 {
      l3 := AnyPick(cfg.g3, v.l3.Keys, cfg.Key3(v.l2[l2.value].branchAddr));
    }
    var demoted := DemoteL1(cfg, v, k, Victims(Some(k), l2, l3, None));
    var mirror := AnyPick(cfg.g3, demoted.l3.Keys, cfg.Key3(pc));
    w := Victims(Some(k), l2, l3, mirror);
    assert DemoteL1(cfg, v, k, w) == demoted;
  }

  /** When more branches use a set than it has ways, one of them is outside. */
  lemma Outsider(cfg: Config, U: set<Addr>, l1: Level, p: Addr) returns (a: Addr)
    requires cfg.Valid() && Separated(cfg, cfg.g1, U) && !Roomy(cfg, U, p)
    requires |Rivals(cfg.g1, l1.Keys, cfg.Key1(p))| <= cfg.g1.ways
    ensures a in U && cfg.Key1(a) !in l1 && cfg.g1.SetOf(cfg.Key1(a)) == cfg.g1.SetOf(cfg.Key1(p))
  {
    var mates := SetMates(cfg, U, p);
    var outside := set b | b in mates && cfg.Key1(b) !in l1;
    if outside == {} {
      forall k | k in KeysOf(cfg, mates) ensures k in Rivals(cfg.g1, l1.Keys, cfg.Key1(p)) {
        var b :| b in mates && cfg.Key1(b) == k;
        assert b !in outside;
      }
      Smaller(KeysOf(cfg, mates), Rivals(cfg.g1, l1.Keys, cfg.Key1(p)));
      KeysOfDistinct(cfg, U, mates);
      assert false;
    }
    a := SomeMember(outside);
  }

  /** The buffer contradicts the committed target of `p`, and L1 hides it. */
  ghost predicate Hidden(cfg: Config, s: State, com: Committed, p: Addr)
    requires cfg.Valid()
  {
    && cfg.Key1(p) in s.levels.l1 && cfg.KeyP(p) in s.levels.pb
    && CommittedTarget(com, p) != Some(s.levels.pb[cfg.KeyP(p)].target)
  }

  /** A commit of `a` that the buffer does not contradict. */
  ghost function SafeUpdate(cfg: Config, s: State, a: Addr, w: Victims): (op: Op)
    requires cfg.Valid()
    ensures Guarded(cfg, s, op)
  {
    UpdateOp(a, if cfg.KeyP(a) in s.levels.pb then s.levels.pb[cfg.KeyP(a)].target else 0, DirectUncond, w)
  }

  /** Committing an outsider while the set has a way left: nothing leaves. */
  lemma AddOutsider(cfg: Config, s: State, com: Committed, p: Addr, a: Addr) returns (op: Op)
    requires cfg.Valid() && |s.engine.chains| == cfg.maxChains && Hidden(cfg, s, com, p) && a != p
    requires cfg.Key1(a) !in s.levels.l1 && cfg.g1.SetOf(cfg.Key1(a)) == cfg.g1.SetOf(cfg.Key1(p))
    requires |Rivals(cfg.g1, s.levels.l1.Keys, cfg.Key1(p))| < cfg.g1.ways
    ensures op.UpdateOp? && op.pc == a && Guarded(cfg, s, op) && Realistic(cfg, s, op)
    ensures Hidden(cfg, Step(cfg, s, op), CommitAfter(com, op), p)
    ensures |Rivals(cfg.g1, Step(cfg, s, op).levels.l1.Keys, cfg.Key1(p))| ==
            |Rivals(cfg.g1, s.levels.l1.Keys, cfg.Key1(p))| + 1
  {
    op := SafeUpdate(cfg, s, a, Victims(None, None, None, None));
    assert Rivals(cfg.g1, s.levels.l1.Keys, cfg.Key1(a)) == Rivals(cfg.g1, s.levels.l1.Keys, cfg.Key1(p));
    RivalsAdded(cfg.g1, s.levels.l1.Keys, cfg.Key1(a), cfg.Key1(p));
    assert Step(cfg, s, op).levels.l1.Keys == s.levels.l1.Keys + {cfg.Key1(a)};
  }

  /** Committing an outsider of a full set: the policy may give up `p`, and its copy in the buffer shows. */
  lemma PushOut(cfg: Config, s: State, com: Committed, p: Addr, a: Addr) returns (op: Op)
    requires cfg.Valid() && cfg.LooksInBuffer() && |s.engine.chains| == cfg.maxChains && Hidden(cfg, s, com, p) && a != p
    requires cfg.Key1(a) !in s.levels.l1 && cfg.g1.SetOf(cfg.Key1(a)) == cfg.g1.SetOf(cfg.Key1(p))
    requires |Rivals(cfg.g1, s.levels.l1.Keys, cfg.Key1(p))| >= cfg.g1.ways
    ensures op.UpdateOp? && op.pc == a && Guarded(cfg, s, op) && Realistic(cfg, s, op)
    ensures !FindsCommitted(cfg, Step(cfg, s, op), CommitAfter(com, op), p)
  {
    var w := AnyPickBelow(cfg, s.levels, cfg.Key1(p));
    op := SafeUpdate(cfg, s, a, w);
    assert Rivals(cfg.g1, s.levels.l1.Keys, cfg.Key1(a)) == Rivals(cfg.g1, s.levels.l1.Keys, cfg.Key1(p));
    FreeUpKeys(cfg, s.levels, w);
    assert FirstHit(cfg, Step(cfg, s, op).levels, p) == InBuffer;
  }

  /** A branch of a crowded set can be pushed out of L1 by guarded commits of others, and then the
      lookup finds what the buffer holds. */
  lemma {:induction false} PushOutEventually(cfg: Config, U: set<Addr>, s: State, com: Committed, p: Addr)
      returns (ops: seq<Op>)
    requires cfg.Valid() && cfg.LooksInBuffer() && Separated(cfg, cfg.g1, U) && |s.engine.chains| == cfg.maxChains
    requires !Roomy(cfg, U, p) && Hidden(cfg, s, com, p)
    requires |Rivals(cfg.g1, s.levels.l1.Keys, cfg.Key1(p))| <= cfg.g1.ways
    ensures GuardedRun(cfg, U, s, ops) && Legal(cfg, s, ops) && RealisticRun(cfg, s, ops)
    ensures !FindsCommitted(cfg, Run(cfg, s, ops), CommittedBy(com, ops), p)
    decreases cfg.g1.ways - |Rivals(cfg.g1, s.levels.l1.Keys, cfg.Key1(p))|
  {
    var a := Outsider(cfg, U, s.levels.l1, p);
    if |Rivals(cfg.g1, s.levels.l1.Keys, cfg.Key1(p))| < cfg.g1.ways {
      var op := AddOutsider(cfg, s, com, p, a);
      var rest := PushOutEventually(cfg, U, Step(cfg, s, op), CommitAfter(com, op), p);
      ops := [op] + rest;
      assert ops[1..] == rest;
    } else {
      var op := PushOut(cfg, s, com, p, a);
      ops := [op];
      assert ops[1..] == [];
    }
  }

  /** What holds after every possible guarded run from the empty buffer. */
  lemma Reached(cfg: Config, U: set<Addr>, ops: seq<Op>)
    requires cfg.Valid() && ToldApart(cfg, U) && GuardedRun(cfg, U, Init(cfg), ops)
    requires Legal(cfg, Init(cfg), ops) && RealisticRun(cfg, Init(cfg), ops)
    ensures var s := Run(cfg, Init(cfg), ops);
            && CoherentState(cfg, U, s, CommittedBy(map[], ops), None)
            && Quiet(cfg, s) && Fits(cfg, s.levels) && |s.engine.chains| == cfg.maxChains
  {
    InitIsCoherent(cfg, U);
    RunKeepsCoherence(cfg, U, Init(cfg), map[], ops);
    RunStaysQuiet(cfg, Init(cfg), ops);
    EmptyFits(cfg, Init(cfg).levels);
    RunFits(cfg, Init(cfg), ops);
    InitWithinBudget(cfg, 0);
    RunKeepsBudget(cfg, Init(cfg), ops, 0);
  }

  lemma RoomyUpdateIsSafe(cfg: Config, U: set<Addr>, s: State, com: Committed, op: Op)
    requires cfg.Valid() && ToldApart(cfg, U) && CoherentState(cfg, U, s, com, None) && Enabled(cfg, s, op)
    requires op.UpdateOp? && op.pc in U && Realistic(cfg, s, op) && Roomy(cfg, U, op.pc)
    ensures StaysCoherent(cfg, U, Step(cfg, s, op), CommitAfter(com, op))
  {
    MaskMore(cfg, U, s.levels, com, Some(op.pc));
    RealisticSpares(cfg, U, s, op, op.pc);
    StepKeepsCoherence(cfg, U, s, com, Some(op.pc), op);
    MaskedStays(cfg, U, Step(cfg, s, op), CommitAfter(com, op), op.pc);
  }

  lemma ContradictedUpdateHides(cfg: Config, s: State, com: Committed, op: Op)
    requires cfg.Valid() && Enabled(cfg, s, op) && op.UpdateOp? && !BufferAgrees(cfg, s.levels, op.pc, op.target)
    ensures Hidden(cfg, Step(cfg, s, op), CommitAfter(com, op), op.pc)
  {
    FreeUpKeys(cfg, s.levels, op.w);
  }

  lemma CrowdedUpdateIsUnsafe(cfg: Config, U: set<Addr>, s: State, com: Committed, op: Op)
    requires cfg.Valid() && ToldApart(cfg, U) && Quiet(cfg, s) && Fits(cfg, s.levels) && Enabled(cfg, s, op)
    requires op.UpdateOp? && op.pc in U && Realistic(cfg, s, op)
    requires !BufferAgrees(cfg, s.levels, op.pc, op.target) && !Roomy(cfg, U, op.pc)
    ensures !StaysCoherent(cfg, U, Step(cfg, s, op), CommitAfter(com, op))
  {
    StepFits(cfg, s, op);
    ContradictedUpdateHides(cfg, s, com, op);
    var ops := PushOutEventually(cfg, U, Step(cfg, s, op), CommitAfter(com, op), op.pc);
    assert op.pc in U;
  }

  /** After any possible guarded run from the empty buffer, committing a target is safe for every
      possible continuation if and only if the buffer does not contradict it, or the set of L1 that
      the branch uses has a way for every branch of the program that uses it. */
  lemma UpdateSafeIff(cfg: Config, U: set<Addr>, before: seq<Op>, op: Op)
    requires cfg.Valid() && ToldApart(cfg, U) && GuardedRun(cfg, U, Init(cfg), before)
    requires Legal(cfg, Init(cfg), before) && RealisticRun(cfg, Init(cfg), before)
    requires op.UpdateOp? && op.pc in U
    requires Enabled(cfg, Run(cfg, Init(cfg), before), op) && Realistic(cfg, Run(cfg, Init(cfg), before), op)
    ensures var s := Run(cfg, Init(cfg), before);
            StaysCoherent(cfg, U, Step(cfg, s, op), CommitAfter(CommittedBy(map[], before), op)) <==>
            BufferAgrees(cfg, s.levels, op.pc, op.target) || Roomy(cfg, U, op.pc)
  {
    var s, com := Run(cfg, Init(cfg), before), CommittedBy(map[], before);
    Reached(cfg, U, before);
    if BufferAgrees(cfg, s.levels, op.pc, op.target) {
      StepKeepsCoherence(cfg, U, s, com, None, op);
      CoherentStays(cfg, U, Step(cfg, s, op), CommitAfter(com, op));
    } else if Roomy(cfg, U, op.pc) {
      RoomyUpdateIsSafe(cfg, U, s, com, op);
    } else {
      CrowdedUpdateIsUnsafe(cfg, U, s, com, op);
    }
  }
}
