/**
 The scheduling loop of the checkpoint migration script, as a pure function of the
 dependency graph: every round applies all pending migrations whose dependences are
 satisfied, until nothing is pending or nothing is ready.
 */
module MigrationSchedule {

  datatype Tag = Tag(name: string)

  /** What the loop reads: the tags with an upgrader, the tags with a downgrader, the
      dependences of each known tag, and the tags whose registered script is a downgrader. */
  datatype Catalog = Catalog(tagSet: set<Tag>, untagSet: set<Tag>, deps: map<Tag, set<Tag>>, down: set<Tag>) {

    ghost predicate Valid() {
      && deps.Keys == tagSet + untagSet
      && down <= untagSet
      && deps.Keys - down <= tagSet
    }

    /** "A tag can only be used once": no tag has both an upgrader and a downgrader. */
    predicate TagsUsedOnce() {
      tagSet !! untagSet
    }
  }

  /** The rounds that were applied, the resulting tags, and what could not be applied. */
  datatype Run = Run(rounds: seq<set<Tag>>, tags: set<Tag>, stuck: set<Tag>)

  function Pending(c: Catalog, tags: set<Tag>): set<Tag> {
    (c.tagSet - tags) + (c.untagSet * tags)
  }

  function Ready(c: Catalog, pending: set<Tag>, tags: set<Tag>): set<Tag>
    requires pending <= c.deps.Keys
  {
    set t | t in pending && c.deps[t] <= tags
  }

  function Apply(c: Catalog, tags: set<Tag>, batch: set<Tag>): set<Tag> {
    (tags + (batch - c.down)) - (batch * c.down)
  }

  function RunFrom(c: Catalog, pending: set<Tag>, tags: set<Tag>): Run
    requires pending <= c.deps.Keys
    decreases |pending|
  {
    var ready := Ready(c, pending, tags);
    if pending == {} || ready == {} then
      Run([], tags, pending)
    else
      ReadyShrinks(pending, ready);
      var rest := RunFrom(c, pending - ready, Apply(c, tags, ready));
      Run([ready] + rest.rounds, rest.tags, rest.stuck)
  }

  function Schedule(c: Catalog, tags: set<Tag>): Run
    requires c.tagSet + c.untagSet <= c.deps.Keys
  {
    RunFrom(c, Pending(c, tags), tags)
  }

  /** The tags in force just before round `i`. */
  function TagsBefore(c: Catalog, tags: set<Tag>, rounds: seq<set<Tag>>, i: nat): set<Tag>
    requires i <= |rounds|
    decreases i
  {
    if i == 0 then tags else TagsBefore(c, Apply(c, tags, rounds[0]), rounds[1..], i - 1)
  }

  function UnionOf(rounds: seq<set<Tag>>): set<Tag> {
    if rounds == [] then {} else rounds[0] + UnionOf(rounds[1..])
  }

  // ---------------------------------------------------------------- when it aborts

  /** A set of pending migrations none of which can ever become ready: each member needs an
      absent tag that is either another member or is not going to be added at all. */
  ghost predicate StuckSet(c: Catalog, pending: set<Tag>, tags: set<Tag>, u: set<Tag>)
    requires pending <= c.deps.Keys
  {
    && u != {}
    && u <= pending
    && forall t | t in u :: Blocked(c, pending, tags, u, t)
  }

  ghost predicate Blocked(c: Catalog, pending: set<Tag>, tags: set<Tag>, u: set<Tag>, t: Tag)
    requires t in c.deps.Keys
  {
    exists d :: d in c.deps[t] && d !in tags && (d in u || d !in pending)
  }

  /** No pending migration depends on a tag that is itself waiting to be downgraded. */
  ghost predicate NoPendingDowngradeDeps(c: Catalog, pending: set<Tag>)
    requires pending <= c.deps.Keys
  {
    forall t | t in pending :: c.deps[t] !! (pending * c.down)
  }

  lemma {:induction false} StuckSetSurvives(c: Catalog, pending: set<Tag>, tags: set<Tag>, u: set<Tag>)
    requires pending <= c.deps.Keys
    requires StuckSet(c, pending, tags, u)
    ensures u <= RunFrom(c, pending, tags).stuck
    decreases |pending|
  {
    var ready := Ready(c, pending, tags);
    if ready != {} {
      forall t | t in u ensures t !in ready {
        assert Blocked(c, pending, tags, u, t);
      }
      var pending', tags' := pending - ready, Apply(c, tags, ready);
      forall t | t in u ensures Blocked(c, pending', tags', u, t) {
        assert Blocked(c, pending, tags, u, t);
        var d :| d in c.deps[t] && d !in tags && (d in u || d !in pending);
        assert d !in tags';
      }
      ReadyShrinks(pending, ready);
      StuckSetSurvives(c, pending', tags', u);
    }
  }

  lemma {:induction false} LeftoverIsStuckSet(c: Catalog, pending: set<Tag>, tags: set<Tag>)
    requires pending <= c.deps.Keys
    requires NoPendingDowngradeDeps(c, pending)
    requires RunFrom(c, pending, tags).stuck != {}
    ensures StuckSet(c, pending, tags, RunFrom(c, pending, tags).stuck)
    decreases |pending|
  {
    var ready := Ready(c, pending, tags);
    var u := RunFrom(c, pending, tags).stuck;
    if ready == {} {
      forall t | t in u ensures Blocked(c, pending, tags, u, t) {
        assert t !in ready;
        var d :| d in c.deps[t] && d !in tags;
      }
    } else {
      var pending', tags' := pending - ready, Apply(c, tags, ready);
      ReadyShrinks(pending, ready);
      LeftoverIsStuckSet(c, pending', tags');
      forall t | t in u ensures Blocked(c, pending, tags, u, t) {
        assert Blocked(c, pending', tags', u, t);
        var d :| d in c.deps[t] && d !in tags' && (d in u || d !in pending');
        assert d !in pending * c.down;
      }
    }
  }

  /** The loop gives up exactly when some set of pending migrations blocks itself. */
  lemma AbortsIffBlocked(c: Catalog, tags: set<Tag>)
    requires c.tagSet + c.untagSet <= c.deps.Keys
    requires NoPendingDowngradeDeps(c, Pending(c, tags))
    ensures Schedule(c, tags).stuck != {} <==> exists u :: StuckSet(c, Pending(c, tags), tags, u)
  {
    if Schedule(c, tags).stuck != {} {
      LeftoverIsStuckSet(c, Pending(c, tags), tags);
    }
    if exists u :: StuckSet(c, Pending(c, tags), tags, u) {
      var u :| StuckSet(c, Pending(c, tags), tags, u);
      StuckSetSurvives(c, Pending(c, tags), tags, u);
    }
  }

  /** Every member of `u` depends on a member of `u`: a cycle, or several. */
  ghost predicate Cyclic(c: Catalog, u: set<Tag>)
    requires u <= c.deps.Keys
  {
    u != {} && forall t | t in u :: c.deps[t] * u != {}
  }

  /** With dependences that name upgrader tags only, abort means exactly a pending cycle. */
  lemma AbortsIffCycle(c: Catalog, tags: set<Tag>)
    requires c.Valid() && c.TagsUsedOnce()
    requires forall t | t in Pending(c, tags) :: c.deps[t] <= c.tagSet
    ensures Schedule(c, tags).stuck != {} <==> exists u :: u <= Pending(c, tags) && Cyclic(c, u)
  {
    var pending := Pending(c, tags);
    assert NoPendingDowngradeDeps(c, pending);
    AbortsIffBlocked(c, tags);
    if u :| StuckSet(c, pending, tags, u) {
      StuckSetIsCycle(c, tags, u);
      assert u <= pending && Cyclic(c, u);
    }
    if u :| u <= pending && Cyclic(c, u) {
      StuckSetIsCycle(c, tags, u);
      assert StuckSet(c, pending, tags, u);
    }
  }

  lemma StuckSetIsCycle(c: Catalog, tags: set<Tag>, u: set<Tag>)
    requires c.Valid() && c.TagsUsedOnce()
    requires u <= Pending(c, tags)
    requires forall t | t in u :: c.deps[t] <= c.tagSet
    ensures StuckSet(c, Pending(c, tags), tags, u) <==> Cyclic(c, u)
  {
    forall t | t in u ensures Blocked(c, Pending(c, tags), tags, u, t) <==> c.deps[t] * u != {} {
      if Blocked(c, Pending(c, tags), tags, u, t) {
        var d :| d in c.deps[t] && d !in tags && (d in u || d !in Pending(c, tags));
        assert d in c.tagSet;
        assert d in c.deps[t] * u;
      }
      if c.deps[t] * u != {} {
        var d :| d in c.deps[t] * u;
        assert d in c.tagSet && d in Pending(c, tags);
        assert d !in tags;
      }
    }
  }

  /** A graph that can be topologically numbered is always migrated completely. */
  lemma AcyclicNeverAborts(c: Catalog, tags: set<Tag>, rank: map<Tag, nat>)
    requires c.Valid() && c.TagsUsedOnce()
    requires forall t | t in Pending(c, tags) :: c.deps[t] <= c.tagSet
    requires c.deps.Keys <= rank.Keys
    requires forall t, d | t in Pending(c, tags) && d in c.deps[t] :: rank[d] < rank[t]
    ensures Schedule(c, tags).stuck == {}
  {
    AbortsIffCycle(c, tags);
    forall u | u <= Pending(c, tags) ensures !Cyclic(c, u) {
      RankedIsAcyclic(c, u, rank);
    }
  }

  lemma RankedIsAcyclic(c: Catalog, u: set<Tag>, rank: map<Tag, nat>)
    requires u <= c.deps.Keys <= rank.Keys
    requires forall t, d | t in u && d in c.deps[t] && d in u :: rank[d] < rank[t]
    ensures !Cyclic(c, u)
  {
    if u != {} {
      var t := LowestRanked(u, rank);
      assert c.deps[t] * u == {};
    }
  }

  lemma {:induction false} LowestRanked(u: set<Tag>, rank: map<Tag, nat>) returns (t: Tag)
    requires u != {} && u <= rank.Keys
    ensures t in u && forall x | x in u :: rank[t] <= rank[x]
    decreases |u|
  {
    t :| t in u;
    if u != {t} {
      assert |u - {t}| < |u|;
      assert u - {t} != {};
      var m := LowestRanked(u - {t}, rank);
      if rank[m] < rank[t] {
        t := m;
      }
    }
  }

  // ---------------------------------------------------------------- layers

  /** The tag `d` is in force before round `i`, if each pending tag is applied in the round of its layer. */
  ghost predicate InForce(c: Catalog, pending: set<Tag>, tags: set<Tag>, layer: map<Tag, nat>, d: Tag, i: nat)
    requires pending <= layer.Keys
  {
    if d in pending && layer[d] < i then d !in c.down else d in tags
  }

  ghost predicate ReadyAt(c: Catalog, pending: set<Tag>, tags: set<Tag>, layer: map<Tag, nat>, t: Tag, i: nat)
    requires pending <= layer.Keys && t in c.deps
  {
    forall d | d in c.deps[t] :: InForce(c, pending, tags, layer, d, i)
  }

  /** Each pending tag is ready in the round of its layer and in no earlier one, and no layer is left out. */
  ghost predicate Layered(c: Catalog, pending: set<Tag>, tags: set<Tag>, layer: map<Tag, nat>)
    requires pending <= c.deps.Keys
  {
    && pending <= layer.Keys
    && (forall t | t in pending :: ReadyAt(c, pending, tags, layer, t, layer[t]))
    && (forall t, i | t in pending && 0 <= i < layer[t] :: !ReadyAt(c, pending, tags, layer, t, i))
    && (forall t, i | t in pending && 0 <= i < layer[t] :: InLayer(pending, layer, i))
  }

  ghost predicate InLayer(pending: set<Tag>, layer: map<Tag, nat>, i: nat)
    requires pending <= layer.Keys
  {
    exists t :: t in pending && layer[t] == i
  }

  function Lower(layer: map<Tag, nat>): map<Tag, nat> {
    map t | t in layer :: if layer[t] > 0 then layer[t] - 1 else 0
  }

  lemma ReadyNow(c: Catalog, pending: set<Tag>, tags: set<Tag>, layer: map<Tag, nat>, t: Tag)
    requires pending <= layer.Keys && t in c.deps
    ensures ReadyAt(c, pending, tags, layer, t, 0) <==> c.deps[t] <= tags
  {
    assert forall d :: InForce(c, pending, tags, layer, d, 0) <==> d in tags;
  }

  /** The bottom layer is what is ready. */
  lemma BottomLayer(c: Catalog, pending: set<Tag>, tags: set<Tag>, layer: map<Tag, nat>)
    requires pending <= c.deps.Keys && Layered(c, pending, tags, layer)
    ensures forall t | t in pending :: t in Ready(c, pending, tags) <==> layer[t] == 0
    ensures pending != {} ==> Ready(c, pending, tags) != {}
  {
    forall t | t in pending ensures t in Ready(c, pending, tags) <==> layer[t] == 0 {
      ReadyNow(c, pending, tags, layer, t);
    }
    if pending != {} {
      var t :| t in pending;
      if layer[t] > 0 {
        assert InLayer(pending, layer, 0);
      }
    }
  }

  /** Readiness in a later round is readiness one round earlier, once the bottom layer is applied. */
  lemma ReadyLater(c: Catalog, pending: set<Tag>, tags: set<Tag>, layer: map<Tag, nat>, ready: set<Tag>, t: Tag, i: nat)
    requires pending <= layer.Keys && t in c.deps && ready <= pending
    requires forall x | x in pending :: x in ready <==> layer[x] == 0
    ensures ReadyAt(c, pending, tags, layer, t, i + 1) <==>
            ReadyAt(c, pending - ready, Apply(c, tags, ready), Lower(layer), t, i)
  {
    forall d ensures InForce(c, pending, tags, layer, d, i + 1) <==>
                     InForce(c, pending - ready, Apply(c, tags, ready), Lower(layer), d, i) {
    }
  }

  lemma UpperLayers(c: Catalog, pending: set<Tag>, tags: set<Tag>, layer: map<Tag, nat>, ready: set<Tag>)
    requires pending <= c.deps.Keys && pending <= layer.Keys && ready <= pending
    requires forall t | t in pending :: t in ready <==> layer[t] == 0
    requires Layered(c, pending, tags, layer)
    ensures Layered(c, pending - ready, Apply(c, tags, ready), Lower(layer))
  {
    var pending', tags', layer' := pending - ready, Apply(c, tags, ready), Lower(layer);
    forall t | t in pending' ensures ReadyAt(c, pending', tags', layer', t, layer'[t]) {
      ReadyLater(c, pending, tags, layer, ready, t, layer'[t]);
    }
    forall t, i | t in pending' && 0 <= i < layer'[t]
      ensures !ReadyAt(c, pending', tags', layer', t, i) && InLayer(pending', layer', i)
    {
      ReadyLater(c, pending, tags, layer, ready, t, i);
      assert InLayer(pending, layer, i + 1);
      var x :| x in pending && layer[x] == i + 1;
      assert x in pending' && layer'[x] == i;
    }
  }

  lemma {:induction false} LayeredCompletes(c: Catalog, pending: set<Tag>, tags: set<Tag>, layer: map<Tag, nat>)
    requires pending <= c.deps.Keys && Layered(c, pending, tags, layer)
    ensures RunFrom(c, pending, tags).stuck == {}
    decreases |pending|
  {
    if pending != {} {
      BottomLayer(c, pending, tags, layer);
      var ready := Ready(c, pending, tags);
      ReadyShrinks(pending, ready);
      UpperLayers(c, pending, tags, layer, ready);
      LayeredCompletes(c, pending - ready, Apply(c, tags, ready), Lower(layer));
    }
  }

  /** The layers of a run: the bottom one is what is ready, the others are those of the rest. */
  function Raise(ready: set<Tag>, upper: map<Tag, nat>): map<Tag, nat> {
    map t | t in ready + upper.Keys :: if t in ready then 0 else upper[t] + 1
  }

  lemma RaisedLayers(c: Catalog, pending: set<Tag>, tags: set<Tag>, ready: set<Tag>, upper: map<Tag, nat>)
    requires pending <= c.deps.Keys && ready == Ready(c, pending, tags) && ready != {}
    requires Layered(c, pending - ready, Apply(c, tags, ready), upper)
    ensures Layered(c, pending, tags, Raise(ready, upper))
  {
    var layer := Raise(ready, upper);
    var pending', tags' := pending - ready, Apply(c, tags, ready);
    forall t | t in pending ensures ReadyAt(c, pending, tags, layer, t, layer[t]) {
      if t in ready {
        ReadyNow(c, pending, tags, layer, t);
      } else {
        RaisedReady(c, pending, tags, ready, upper, t, upper[t]);
      }
    }
    forall t, i | t in pending && 0 <= i < layer[t]
      ensures !ReadyAt(c, pending, tags, layer, t, i) && InLayer(pending, layer, i)
    {
      if i == 0 {
        ReadyNow(c, pending, tags, layer, t);
        var x :| x in ready;
        assert x in pending && layer[x] == 0;
      } else {
        RaisedReady(c, pending, tags, ready, upper, t, i - 1);
        assert !ReadyAt(c, pending', tags', upper, t, i - 1) && InLayer(pending', upper, i - 1);
        var x :| x in pending' && upper[x] == i - 1;
        assert x in pending && layer[x] == i;
      }
    }
  }

  lemma RaisedReady(c: Catalog, pending: set<Tag>, tags: set<Tag>, ready: set<Tag>, upper: map<Tag, nat>, t: Tag, i: nat)
    requires t in c.deps && ready <= pending && pending - ready <= upper.Keys
    ensures ReadyAt(c, pending, tags, Raise(ready, upper), t, i + 1) <==>
            ReadyAt(c, pending - ready, Apply(c, tags, ready), upper, t, i)
  {
    forall d ensures InForce(c, pending, tags, Raise(ready, upper), d, i + 1) <==>
                     InForce(c, pending - ready, Apply(c, tags, ready), upper, d, i) {
    }
  }

  lemma {:induction false} CompletedIsLayered(c: Catalog, pending: set<Tag>, tags: set<Tag>) returns (layer: map<Tag, nat>)
    requires pending <= c.deps.Keys && RunFrom(c, pending, tags).stuck == {}
    ensures Layered(c, pending, tags, layer)
    decreases |pending|
  {
    if pending == {} {
      layer := map[];
    } else {
      var ready := Ready(c, pending, tags);
      ReadyShrinks(pending, ready);
      var upper := CompletedIsLayered(c, pending - ready, Apply(c, tags, ready));
      layer := Raise(ready, upper);
      RaisedLayers(c, pending, tags, ready, upper);
    }
  }

  /** Whatever depends on what: the loop applies everything if and only if the pending tags can be put in
      layers, each tag ready when its layer is applied and not before. */
  lemma CompletesIffLayered(c: Catalog, tags: set<Tag>)
    requires c.tagSet + c.untagSet <= c.deps.Keys
    ensures Schedule(c, tags).stuck == {} <==> exists layer :: Layered(c, Pending(c, tags), tags, layer)
  {
    if Schedule(c, tags).stuck == {} {
      var layer := CompletedIsLayered(c, Pending(c, tags), tags);
    }
    if layer :| Layered(c, Pending(c, tags), tags, layer) {
      LayeredCompletes(c, Pending(c, tags), tags, layer);
    }
  }

  // ---------------------------------------------------------------- what it applies

  lemma ReadyShrinks(pending: set<Tag>, ready: set<Tag>)
    requires ready != {} && ready <= pending
    ensures |pending - ready| < |pending|
  {
    assert pending == (pending - ready) + ready;
  }

  /** What is applied and what is left over partition the pending migrations. */
  lemma {:induction false} RoundsCover(c: Catalog, pending: set<Tag>, tags: set<Tag>)
    requires pending <= c.deps.Keys
    ensures var r := RunFrom(c, pending, tags);
            UnionOf(r.rounds) + r.stuck == pending && UnionOf(r.rounds) !! r.stuck
    decreases |pending|
  {
    var ready := Ready(c, pending, tags);
    if ready != {} {
      ReadyShrinks(pending, ready);
      RoundsCover(c, pending - ready, Apply(c, tags, ready));
      var rest := RunFrom(c, pending - ready, Apply(c, tags, ready));
      assert RunFrom(c, pending, tags).rounds[1..] == rest.rounds;
    }
  }

  /** Every round makes progress, and no migration is in two rounds. */
  ghost predicate ProperRounds(rounds: seq<set<Tag>>, pending: set<Tag>) {
    && (forall i | 0 <= i < |rounds| :: rounds[i] != {} && rounds[i] <= pending)
    && (forall i, j | 0 <= i < j < |rounds| :: rounds[i] !! rounds[j])
  }

  lemma {:induction false} RoundsAreProper(c: Catalog, pending: set<Tag>, tags: set<Tag>)
    requires pending <= c.deps.Keys
    ensures ProperRounds(RunFrom(c, pending, tags).rounds, pending)
    decreases |pending|
  {
    var ready := Ready(c, pending, tags);
    if ready != {} {
      ReadyShrinks(pending, ready);
      RoundsAreProper(c, pending - ready, Apply(c, tags, ready));
      PrependRound(ready, RunFrom(c, pending - ready, Apply(c, tags, ready)).rounds, pending);
    }
  }

  lemma PrependRound(ready: set<Tag>, rest: seq<set<Tag>>, pending: set<Tag>)
    requires ready != {} && ready <= pending && ProperRounds(rest, pending - ready)
    ensures ProperRounds([ready] + rest, pending)
  {
    var rounds := [ready] + rest;
    forall i | 0 <= i < |rounds| ensures rounds[i] != {} && rounds[i] <= pending {
      if i > 0 { assert rest[i - 1] <= pending - ready; }
    }
    forall i, j | 0 <= i < j < |rounds| ensures rounds[i] !! rounds[j] {
      assert rounds[j] == rest[j - 1] && (i > 0 ==> rounds[i] == rest[i - 1]);
    }
  }

  /** A migration runs only when all its dependences are in force. */
  lemma {:induction false} DepsInForce(c: Catalog, pending: set<Tag>, tags: set<Tag>, i: nat, t: Tag)
    requires pending <= c.deps.Keys
    requires i < |RunFrom(c, pending, tags).rounds| && t in RunFrom(c, pending, tags).rounds[i]
    ensures t in c.deps && c.deps[t] <= TagsBefore(c, tags, RunFrom(c, pending, tags).rounds, i)
    decreases |pending|
  {
    var r := RunFrom(c, pending, tags);
    var ready := Ready(c, pending, tags);
    if i > 0 {
      var tags' := Apply(c, tags, ready);
      ReadyShrinks(pending, ready);
      var rest := RunFrom(c, pending - ready, tags');
      assert r.rounds[1..] == rest.rounds;
      DepsInForce(c, pending - ready, tags', i - 1, t);
      assert TagsBefore(c, tags, r.rounds, i) == TagsBefore(c, tags', rest.rounds, i - 1);
    }
  }

  /** A dependence that was not there initially was added by an earlier round. */
  lemma {:induction false} DepsFromEarlierRounds(c: Catalog, pending: set<Tag>, tags: set<Tag>, i: nat, t: Tag)
    requires pending <= c.deps.Keys
    requires i < |RunFrom(c, pending, tags).rounds| && t in RunFrom(c, pending, tags).rounds[i]
    ensures t in c.deps
    ensures forall d | d in c.deps[t] && d !in tags ::
              exists j :: 0 <= j < i && d in RunFrom(c, pending, tags).rounds[j]
    decreases |pending|
  {
    var r := RunFrom(c, pending, tags);
    var ready := Ready(c, pending, tags);
    if i > 0 {
      var tags' := Apply(c, tags, ready);
      ReadyShrinks(pending, ready);
      var rest := RunFrom(c, pending - ready, tags');
      assert r.rounds[1..] == rest.rounds;
      DepsFromEarlierRounds(c, pending - ready, tags', i - 1, t);
      forall d | d in c.deps[t] && d !in tags
        ensures exists j :: 0 <= j < i && d in r.rounds[j]
      {
        if d in tags' {
          assert d in r.rounds[0];
        } else {
          var j :| 0 <= j < i - 1 && d in rest.rounds[j];
          assert d in r.rounds[j + 1];
        }
      }
    }
  }

  /** The final tags of a run, whatever its dependences: what was applied is added, or
      removed where the registered script is a downgrader. */
  lemma {:induction false} RunTags(c: Catalog, pending: set<Tag>, tags: set<Tag>)
    requires pending <= c.deps.Keys
    ensures var r := RunFrom(c, pending, tags);
            r.tags == Apply(c, tags, UnionOf(r.rounds))
            && r.tags == TagsBefore(c, tags, r.rounds, |r.rounds|)
    decreases |pending|
  {
    var ready := Ready(c, pending, tags);
    if ready != {} {
      ReadyShrinks(pending, ready);
      RunTags(c, pending - ready, Apply(c, tags, ready));
      var r := RunFrom(c, pending, tags);
      var rest := RunFrom(c, pending - ready, Apply(c, tags, ready));
      assert r.rounds[1..] == rest.rounds;
      assert UnionOf(r.rounds) == ready + UnionOf(rest.rounds);
    }
  }

  /** A completed migration leaves exactly the wanted tags, no downgrade ever removes an absent
      tag, and running the script again finds nothing to do. */
  lemma CompletedRun(c: Catalog, tags: set<Tag>)
    requires c.Valid() && c.TagsUsedOnce()
    requires Schedule(c, tags).stuck == {}
    ensures Schedule(c, tags).tags == (tags + c.tagSet) - c.untagSet
    ensures Pending(c, Schedule(c, tags).tags) == {}
    ensures Schedule(c, Schedule(c, tags).tags) == Run([], Schedule(c, tags).tags, {})
  {
    RunTags(c, Pending(c, tags), tags);
    RoundsCover(c, Pending(c, tags), tags);
    assert UnionOf(Schedule(c, tags).rounds) == Pending(c, tags);
    assert c.down == c.untagSet;
    assert Pending(c, Schedule(c, tags).tags) == {};
  }

  /** A pending downgrade stays in the tag set until its own round. */
  lemma {:induction false} DowngradesFindTheirTag(c: Catalog, pending: set<Tag>, tags: set<Tag>, i: nat, t: Tag)
    requires pending <= c.deps.Keys
    requires pending * c.down <= tags
    requires i < |RunFrom(c, pending, tags).rounds| && t in RunFrom(c, pending, tags).rounds[i] && t in c.down
    ensures t in TagsBefore(c, tags, RunFrom(c, pending, tags).rounds, i)
    decreases |pending|
  {
    var r := RunFrom(c, pending, tags);
    var ready := Ready(c, pending, tags);
    if i > 0 {
      ReadyShrinks(pending, ready);
      var tags' := Apply(c, tags, ready);
      var rest := RunFrom(c, pending - ready, tags');
      assert r.rounds[1..] == rest.rounds;
      DowngradesFindTheirTag(c, pending - ready, tags', i - 1, t);
      assert TagsBefore(c, tags, r.rounds, i) == TagsBefore(c, tags', rest.rounds, i - 1);
    }
  }

  ghost predicate Closed(c: Catalog, tags: set<Tag>) {
    forall t | t in tags && t in c.deps :: c.deps[t] <= tags
  }

  /** Starting from a dependency-closed tag set, an upgrade-only run never leaves one. */
  lemma {:induction false} TagsStayClosed(c: Catalog, pending: set<Tag>, tags: set<Tag>, i: nat)
    requires pending <= c.deps.Keys
    requires pending !! c.down
    requires Closed(c, tags)
    requires i <= |RunFrom(c, pending, tags).rounds|
    ensures Closed(c, TagsBefore(c, tags, RunFrom(c, pending, tags).rounds, i))
    decreases |pending|
  {
    var ready := Ready(c, pending, tags);
    if i > 0 {
      ReadyShrinks(pending, ready);
      var tags' := Apply(c, tags, ready);
      assert tags <= tags';
      assert Closed(c, tags');
      assert RunFrom(c, pending, tags).rounds[1..] == RunFrom(c, pending - ready, tags').rounds;
      TagsStayClosed(c, pending - ready, tags', i - 1);
    }
  }

  // ---------------------------------------------------------------- depending on a downgraded tag

  /** The documented meaning of a dependence on a downgraded tag: the migration completes, and
      such a tag is gone before the round of the migration that depends on it. */
  ghost predicate DowngradesComeFirst(c: Catalog, tags: set<Tag>)
    requires c.tagSet + c.untagSet <= c.deps.Keys
  {
    var r := Schedule(c, tags);
    && r.stuck == {}
    && forall i, t, d | 0 <= i < |r.rounds| && t in r.rounds[i] && t in c.deps && d in c.deps[t] * c.down ::
         d !in TagsBefore(c, tags, r.rounds, i)
  }

  /** The loop meets that meaning exactly when no pending migration names a downgraded tag. */
  lemma DowngradesComeFirstIff(c: Catalog, tags: set<Tag>)
    requires c.Valid()
    ensures DowngradesComeFirst(c, tags) <==>
            && (forall t | t in Pending(c, tags) :: c.deps[t] !! c.down)
            && !exists u :: StuckSet(c, Pending(c, tags), tags, u)
  {
    var pending, r := Pending(c, tags), Schedule(c, tags);
    if forall t | t in pending :: c.deps[t] !! c.down {
      AbortsIffBlocked(c, tags);
      RoundsAreProper(c, pending, tags);
    }
    if DowngradesComeFirst(c, tags) {
      RoundsCover(c, pending, tags);
      forall t | t in pending ensures c.deps[t] !! c.down {
        var i := RoundOf(r.rounds, t);
        DepsInForce(c, pending, tags, i, t);
        assert forall d | d in c.deps[t] * c.down :: d in TagsBefore(c, tags, r.rounds, i);
      }
      assert NoPendingDowngradeDeps(c, pending);
      AbortsIffBlocked(c, tags);
    }
  }

  lemma {:induction false} RoundOf(rounds: seq<set<Tag>>, t: Tag) returns (i: nat)
    requires t in UnionOf(rounds)
    ensures i < |rounds| && t in rounds[i]
  {
    if t in rounds[0] {
      i := 0;
    } else {
      i := RoundOf(rounds[1..], t);
      i := i + 1;
    }
  }

  /** Without any cycle, a migration that depends on an already removed tag is never applied. */
  lemma RemovedDependenceAborts()
    ensures var added, removed := Tag("new"), Tag("old");
            var c := Catalog({added}, {removed}, map[added := {removed}, removed := {}], {removed});
            && c.Valid() && c.TagsUsedOnce()
            && Schedule(c, {}).stuck == {added}
            && Schedule(c, {removed}) == Run([{added, removed}], {added}, {})
  {
    var added, removed := Tag("new"), Tag("old");
    var c := Catalog({added}, {removed}, map[added := {removed}, removed := {}], {removed});
    assert Pending(c, {}) == {added};
    assert Ready(c, {added}, {}) == {};
    assert Pending(c, {removed}) == {added, removed};
    assert Ready(c, {added, removed}, {removed}) == {added, removed};
    assert Apply(c, {removed}, {added, removed}) == {added};
    assert RunFrom(c, {added, removed} - {added, removed}, {added}) == Run([], {added}, {});
  }

  // ---------------------------------------------------------------- iteration order

  /** `log` lists the members of each round, round after round, each round in any order. */
  ghost predicate Linearizes(log: seq<Tag>, rounds: seq<set<Tag>>) {
    if rounds == [] then log == []
    else
      var n := |rounds[0]|;
      n <= |log| && multiset(log[..n]) == multiset(rounds[0]) && Linearizes(log[n..], rounds[1..])
  }

  lemma {:induction false} LinearizesMembers(log: seq<Tag>, rounds: seq<set<Tag>>, x: Tag)
    requires Linearizes(log, rounds)
    ensures x in log <==> x in UnionOf(rounds)
  {
    if rounds != [] {
      var n := |rounds[0]|;
      LinearizesMembers(log[n..], rounds[1..], x);
      assert log == log[..n] + log[n..];
      assert x in multiset(log[..n]) <==> x in log[..n];
    }
  }

  ghost predicate NoDuplicates(log: seq<Tag>) {
    forall i, j | 0 <= i < j < |log| :: log[i] != log[j]
  }

  lemma {:induction false} MultisetOfSetNoDuplicates(log: seq<Tag>, s: set<Tag>)
    requires multiset(log) == multiset(s)
    ensures NoDuplicates(log)
  {
    forall i, j | 0 <= i < j < |log| ensures log[i] != log[j] {
      assert log == log[..i] + [log[i]] + log[i + 1..j] + [log[j]] + log[j + 1..];
      assert multiset(log)[log[i]] <= 1;
    }
  }

  lemma {:induction false} LinearizesNoDuplicates(log: seq<Tag>, rounds: seq<set<Tag>>)
    requires Linearizes(log, rounds)
    requires forall i, j | 0 <= i < j < |rounds| :: rounds[i] !! rounds[j]
    ensures NoDuplicates(log)
  {
    if rounds != [] {
      var n := |rounds[0]|;
      var first, rest := log[..n], log[n..];
      MultisetOfSetNoDuplicates(first, rounds[0]);
      LinearizesNoDuplicates(rest, rounds[1..]);
      DisjointFromUnion(rounds[0], rounds[1..]);
      forall i, j | 0 <= i < j < |log| ensures log[i] != log[j] {
        if j < n {
          assert log[i] == first[i] && log[j] == first[j];
        } else if i >= n {
          assert log[i] == rest[i - n] && log[j] == rest[j - n];
        } else {
          assert first[i] in multiset(first);
          assert log[i] in rounds[0];
          LinearizesMembers(rest, rounds[1..], log[j]);
          assert log[j] == rest[j - n];
        }
      }
    }
  }

  lemma {:induction false} DisjointFromUnion(s: set<Tag>, rounds: seq<set<Tag>>)
    requires forall i | 0 <= i < |rounds| :: s !! rounds[i]
    ensures s !! UnionOf(rounds)
  {
    if rounds != [] {
      assert s !! rounds[0];
      forall i | 0 <= i < |rounds[1..]| ensures s !! rounds[1..][i] { assert rounds[1..][i] == rounds[i + 1]; }
      DisjointFromUnion(s, rounds[1..]);
    }
  }

  /** Position of round members in the log: everything of an earlier round comes first. */
  lemma {:induction false} EarlierRoundFirst(log: seq<Tag>, rounds: seq<set<Tag>>, k: nat) returns (i: nat)
    requires Linearizes(log, rounds)
    requires k < |log|
    ensures i < |rounds| && log[k] in rounds[i]
    ensures forall j, d | 0 <= j < i && d in rounds[j] :: d in log[..k]
  {
    var n := |rounds[0]|;
    assert rounds != [];
    if k < n {
      i := 0;
      assert log[k] == log[..n][k];
      assert log[k] in multiset(log[..n]);
    } else {
      var i' := EarlierRoundFirst(log[n..], rounds[1..], k - n);
      i := i' + 1;
      forall j, d | 0 <= j < i && d in rounds[j] ensures d in log[..k] {
        assert log[..k] == log[..n] + log[n..][..k - n];
        if j == 0 {
          assert d in multiset(log[..n]);
        } else {
          assert rounds[j] == rounds[1..][j - 1];
        }
      }
    }
  }

  /** Whatever order the ready sets are iterated in, a completed upgrade run applies each
      pending migration exactly once, and only after all its dependences. */
  lemma EveryOrderRespectsDeps(c: Catalog, tags: set<Tag>, log: seq<Tag>)
    requires c.tagSet + c.untagSet <= c.deps.Keys
    requires Schedule(c, tags).stuck == {}
    requires Linearizes(log, Schedule(c, tags).rounds)
    ensures NoDuplicates(log)
    ensures forall t :: t in log <==> t in Pending(c, tags)
    ensures forall k, d | 0 <= k < |log| && log[k] in c.deps && d in c.deps[log[k]] :: d in tags || d in log[..k]
  {
    var r := Schedule(c, tags);
    RoundsCover(c, Pending(c, tags), tags);
    RoundsAreProper(c, Pending(c, tags), tags);
    LinearizesNoDuplicates(log, r.rounds);
    forall t ensures t in log <==> t in Pending(c, tags) { LinearizesMembers(log, r.rounds, t); }
    forall k, d | 0 <= k < |log| && log[k] in c.deps && d in c.deps[log[k]] ensures d in tags || d in log[..k] {
      var i := EarlierRoundFirst(log, r.rounds, k);
      DepsFromEarlierRounds(c, Pending(c, tags), tags, i, log[k]);
    }
  }
}
