/**
 The checkpoint migration script (gem5/util/cpt_upgrader.py): registering upgrader scripts,
 building the dependency graph, and migrating one checkpoint.
 */
module CptUpgrader {
  import opened Wrappers
  import opened MigrationSchedule

  datatype Kind = Upgrade | Downgrade

  datatype Script = Script(tag: Tag, depends: seq<Tag>, fwdDepends: seq<Tag>, kind: Kind,
                           legacyVersion: Option<int>)

  datatype LoadResult =
    | Loaded
    | NoLegacy(version: int)
    | UnknownForward(tag: Tag, missing: Tag)
    | UnknownDepend(tag: Tag, missing: Tag)

  /** Where a checkpoint says what it contains. */
  datatype VersionInfo = LegacyVersion(version: int) | VersionTags(tags: set<Tag>) | NoVersion

  datatype Outcome =
    | Fatal
    | UnknownLegacy(version: int)
    | AbsentTag(tag: Tag)
    | Aborted(stuck: set<Tag>)
    | NothingToDo
    | Written(tags: set<Tag>)

  function Elems(s: seq<Tag>): set<Tag> {
    set d | d in s
  }

  /** Version `v` is reached by the loop that chains the legacy versions from 3 upwards. */
  predicate InChain(legacy: map<int, nat>, v: int) {
    v >= 3 && forall j | 3 <= j <= v :: j in legacy
  }

  /** What script `k` depends on once the legacy chain has been built. */
  function Linked(scripts: seq<Script>, legacy: map<int, nat>, k: nat): seq<Tag>
    requires k < |scripts|
    requires forall v | v in legacy :: legacy[v] < |scripts|
  {
    var version := scripts[k].legacyVersion;
    if version.Some? && InChain(legacy, version.value) && legacy[version.value] == k && version.value - 1 in legacy
    then [scripts[legacy[version.value - 1]].tag]
    else scripts[k].depends
  }

  /** The same, when the chain has been built below version `i` only. */
  function LinkedBelow(scripts: seq<Script>, legacy: map<int, nat>, i: int, k: nat): seq<Tag>
    requires k < |scripts|
    requires forall v | v in legacy :: legacy[v] < |scripts|
  {
    if scripts[k].legacyVersion.Some? && scripts[k].legacyVersion.value < i
    then Linked(scripts, legacy, k) else scripts[k].depends
  }

  /** Every name that script `t` uses is registered. */
  predicate NamesKnown(scripts: seq<Script>, byTag: map<Tag, nat>, depends: seq<seq<Tag>>, t: Tag)
    requires t in byTag && byTag[t] < |scripts| == |depends|
  {
    && (forall fd | fd in scripts[byTag[t]].fwdDepends :: fd in byTag)
    && Elems(depends[byTag[t]]) <= byTag.Keys
  }

  /** The scripts of `among` that push a forward dependence onto `t`. */
  function Forwarders(scripts: seq<Script>, byTag: map<Tag, nat>, among: set<Tag>, t: Tag): set<Tag>
    requires among <= byTag.Keys
    requires forall s | s in byTag :: byTag[s] < |scripts|
  {
    set s | s in among && t in scripts[byTag[s]].fwdDepends
  }

  ghost predicate TagIndex(scripts: seq<Script>, byTag: map<Tag, nat>) {
    forall t | t in byTag :: byTag[t] < |scripts| && scripts[byTag[t]].tag == t
  }

  ghost predicate KindIndex(scripts: seq<Script>, byTag: map<Tag, nat>, tagSet: set<Tag>, untagSet: set<Tag>)
    requires TagIndex(scripts, byTag)
  {
    && byTag.Keys == tagSet + untagSet
    && (forall t | t in byTag :: t in (if scripts[byTag[t]].kind == Upgrade then tagSet else untagSet))
  }

  ghost predicate LegacyIndex(scripts: seq<Script>, legacy: map<int, nat>) {
    forall v | v in legacy :: legacy[v] < |scripts| && scripts[legacy[v]].legacyVersion == Some(v)
  }

  predicate HasScript(files: seq<Script>, kind: Kind, t: Tag) {
    exists k :: 0 <= k < |files| && files[k].tag == t && files[k].kind == kind
  }

  /** The tables hold every file, and of several with one tag or one version the last. */
  ghost predicate Indexed(files: seq<Script>, byTag: map<Tag, nat>, legacy: map<int, nat>, tagSet: set<Tag>,
                          untagSet: set<Tag>)
  {
    && (forall k | 0 <= k < |files| :: files[k].tag in byTag && k <= byTag[files[k].tag] < |files|)
    && (forall k | 0 <= k < |files| && files[k].legacyVersion.Some? ::
          files[k].legacyVersion.value in legacy && k <= legacy[files[k].legacyVersion.value] < |files|)
    && (forall t :: t in tagSet <==> HasScript(files, Upgrade, t))
    && (forall t :: t in untagSet <==> HasScript(files, Downgrade, t))
  }

  lemma HasScriptMore(files: seq<Script>, s: Script, kind: Kind, t: Tag)
    ensures HasScript(files + [s], kind, t) <==> HasScript(files, kind, t) || (s.kind == kind && s.tag == t)
  {
    var more := files + [s];
    assert more[|files|] == s;
    if k :| 0 <= k < |files| && files[k].tag == t && files[k].kind == kind {
      assert more[k] == files[k];
    }
  }

  lemma IndexedMore(files: seq<Script>, byTag: map<Tag, nat>, legacy: map<int, nat>, tagSet: set<Tag>,
                    untagSet: set<Tag>, s: Script)
    requires Indexed(files, byTag, legacy, tagSet, untagSet)
    ensures Indexed(files + [s], byTag[s.tag := |files|],
                    if s.legacyVersion.Some? then legacy[s.legacyVersion.value := |files|] else legacy,
                    if s.kind == Upgrade then tagSet + {s.tag} else tagSet,
                    if s.kind == Upgrade then untagSet else untagSet + {s.tag})
  {
    forall t, kind ensures HasScript(files + [s], kind, t) <==> HasScript(files, kind, t) || (s.kind == kind && s.tag == t) {
      HasScriptMore(files, s, kind, t);
    }
  }

  /** Every script has the dependences it declares. */
  ghost predicate AsDeclared(scripts: seq<Script>, depends: seq<seq<Tag>>) {
    |depends| == |scripts| && forall k | 0 <= k < |scripts| :: depends[k] == scripts[k].depends
  }

  lemma DeclaredMore(scripts: seq<Script>, depends: seq<seq<Tag>>, s: Script)
    requires AsDeclared(scripts, depends)
    ensures AsDeclared(scripts + [s], depends + [s.depends])
  {
  }

  lemma RegisterKeepsIndexes(scripts: seq<Script>, byTag: map<Tag, nat>, legacy: map<int, nat>,
                             tagSet: set<Tag>, untagSet: set<Tag>, s: Script)
    requires TagIndex(scripts, byTag) && KindIndex(scripts, byTag, tagSet, untagSet) && LegacyIndex(scripts, legacy)
    ensures var byTag' := byTag[s.tag := |scripts|];
            && TagIndex(scripts + [s], byTag')
            && KindIndex(scripts + [s], byTag',
                         if s.kind == Upgrade then tagSet + {s.tag} else tagSet,
                         if s.kind == Upgrade then untagSet else untagSet + {s.tag})
    ensures LegacyIndex(scripts + [s], legacy)
    ensures s.legacyVersion.Some? ==> LegacyIndex(scripts + [s], legacy[s.legacyVersion.value := |scripts|])
  {
  }

  /** `after` extends the dependence lists `before` with the forward dependences of `among`. */
  ghost predicate Resolved(scripts: seq<Script>, byTag: map<Tag, nat>, before: seq<seq<Tag>>,
                           after: seq<seq<Tag>>, among: set<Tag>)
    requires TagIndex(scripts, byTag) && |before| == |after| == |scripts| && among <= byTag.Keys
  {
    forall t | t in byTag :: Elems(after[byTag[t]]) == Elems(before[byTag[t]]) + Forwarders(scripts, byTag, among, t)
  }

  lemma ResolvedStep(scripts: seq<Script>, byTag: map<Tag, nat>, before: seq<seq<Tag>>, middle: seq<seq<Tag>>,
                     after: seq<seq<Tag>>, among: set<Tag>, tag: Tag)
    requires TagIndex(scripts, byTag) && |before| == |middle| == |after| == |scripts|
    requires among <= byTag.Keys && tag in byTag
    requires Resolved(scripts, byTag, before, middle, among)
    requires Resolved(scripts, byTag, middle, after, {tag})
    ensures Resolved(scripts, byTag, before, after, among + {tag})
  {
    forall t | t in byTag
      ensures Elems(after[byTag[t]]) == Elems(before[byTag[t]]) + Forwarders(scripts, byTag, among + {tag}, t)
    {
      assert Forwarders(scripts, byTag, among + {tag}, t) ==
             Forwarders(scripts, byTag, among, t) + Forwarders(scripts, byTag, {tag}, t);
    }
  }

  /** Auditing a list after it was extended tells whether the original list passes. */
  lemma AuditSeesOriginal(scripts: seq<Script>, byTag: map<Tag, nat>, before: seq<seq<Tag>>,
                          after: seq<seq<Tag>>, among: set<Tag>, tag: Tag)
    requires TagIndex(scripts, byTag) && |before| == |after| == |scripts| && among <= byTag.Keys && tag in byTag
    requires Resolved(scripts, byTag, before, after, among)
    ensures Elems(after[byTag[tag]]) <= byTag.Keys <==> Elems(before[byTag[tag]]) <= byTag.Keys
  {
    assert Forwarders(scripts, byTag, among, tag) <= byTag.Keys;
  }

  /** Chaining version `i` to its predecessor. */
  ghost function Above(legacy: map<int, nat>, i: int): set<int> {
    set v | v in legacy && v >= i
  }

  lemma FewerAbove(legacy: map<int, nat>, i: int)
    requires i in legacy
    ensures |Above(legacy, i + 1)| < |Above(legacy, i)|
  {
    assert Above(legacy, i) == Above(legacy, i + 1) + {i};
  }

  lemma LinkStep(scripts: seq<Script>, legacy: map<int, nat>, depends: seq<seq<Tag>>, i: int)
    requires LegacyIndex(scripts, legacy) && |depends| == |scripts|
    requires InChain(legacy, i) && i - 1 in legacy
    requires forall k | 0 <= k < |scripts| :: depends[k] == LinkedBelow(scripts, legacy, i, k)
    ensures var depends' := depends[legacy[i] := [scripts[legacy[i - 1]].tag]];
            forall k | 0 <= k < |scripts| :: depends'[k] == LinkedBelow(scripts, legacy, i + 1, k)
  {
  }

  /**
   The class-level tables. A script is known by its position in `scripts`, and `depends[k]` is
   the `depends` list of script `k`, which loading overwrites and extends.
   */
  class Registry {
    var scripts: seq<Script>
    var depends: seq<seq<Tag>>
    var byTag: map<Tag, nat>
    var legacy: map<int, nat>
    var tagSet: set<Tag>
    var untagSet: set<Tag>

    ghost predicate Valid()
      reads this
    {
      && |depends| == |scripts|
      && TagIndex(scripts, byTag)
      && KindIndex(scripts, byTag, tagSet, untagSet)
      && LegacyIndex(scripts, legacy)
    }

    ghost predicate Complete()
      reads this
    {
      Indexed(scripts, byTag, legacy, tagSet, untagSet)
    }

    /** The dependency graph as the migration loop sees it. */
    ghost function Graph(): (c: Catalog)
      requires Valid()
      reads this
      ensures c.Valid()
    {
      Catalog(tagSet, untagSet,
              map t | t in byTag :: Elems(depends[byTag[t]]),
              set t | t in byTag && scripts[byTag[t]].kind == Downgrade)
    }

    constructor ()
      ensures Valid()
      ensures scripts == [] && byTag == map[] && legacy == map[] && tagSet == {} && untagSet == {}
      ensures Complete()
    {
      scripts, depends, byTag, legacy, tagSet, untagSet := [], [], map[], map[], {}, {};
    }

    /** Registering one script file; a later script of the same tag replaces the earlier one. */
    method Register(s: Script)
      requires Valid()
      modifies this
      ensures Valid()
      ensures scripts == old(scripts) + [s] && depends == old(depends) + [s.depends]
      ensures byTag == old(byTag)[s.tag := |old(scripts)|]
      ensures legacy == if s.legacyVersion.Some? then old(legacy)[s.legacyVersion.value := |old(scripts)|] else old(legacy)
      ensures tagSet == if s.kind == Upgrade then old(tagSet) + {s.tag} else old(tagSet)
      ensures untagSet == if s.kind == Upgrade then old(untagSet) else old(untagSet) + {s.tag}
      ensures old(Complete()) ==> Complete()
    {
      if Complete() {
        IndexedMore(scripts, byTag, legacy, tagSet, untagSet, s);
      }
      RegisterKeepsIndexes(scripts, byTag, legacy, tagSet, untagSet, s);
      if s.kind == Upgrade {
        tagSet := tagSet + {s.tag};
      } else {
        untagSet := untagSet + {s.tag};
      }
      if s.legacyVersion.Some? {
        legacy := legacy[s.legacyVersion.value := |scripts|];
      }
      byTag := byTag[s.tag := |scripts|];
      scripts, depends := scripts + [s], depends + [s.depends];
    }

    /** Makes each legacy version from 3 on depend on exactly its predecessor. */
    method LinkLegacy() returns (r: LoadResult)
      requires Valid()
      requires AsDeclared(scripts, depends)
      modifies this`depends
      ensures Valid()
      ensures r == if 3 in legacy && 2 !in legacy then NoLegacy(2) else Loaded
      ensures r.Loaded? ==> forall k | 0 <= k < |scripts| :: depends[k] == Linked(scripts, legacy, k)
    {
      var i := 3;
      while i in legacy
        invariant Valid() && i >= 3
        invariant forall j | 3 <= j < i :: j in legacy
        invariant i > 3 ==> 2 in legacy
        invariant forall k | 0 <= k < |scripts| :: depends[k] == LinkedBelow(scripts, legacy, i, k)
        decreases |Above(legacy, i)|
      {
        if i - 1 !in legacy {
          return NoLegacy(i - 1);
        }
        FewerAbove(legacy, i);
        LinkStep(scripts, legacy, depends, i);
        depends := depends[legacy[i] := [scripts[legacy[i - 1]].tag]];
        i := i + 1;
      }
      return Loaded;
    }

    /** One script's forward dependences, appended to the lists they name. */
    method PushForward(tag: Tag) returns (r: LoadResult)
      requires Valid() && tag in byTag
      modifies this`depends
      ensures Valid()
      ensures r.Loaded? <==> forall fd | fd in scripts[byTag[tag]].fwdDepends :: fd in byTag
      ensures r.Loaded? ==> Resolved(scripts, byTag, old(depends), depends, {tag})
    {
      ghost var before := depends;
      var forward := scripts[byTag[tag]].fwdDepends;
      for j := 0 to |forward|
        invariant Valid()
        invariant forall fd | fd in forward[..j] :: fd in byTag
        invariant forall t | t in byTag ::
                    Elems(depends[byTag[t]]) == Elems(before[byTag[t]]) + (if t in forward[..j] then {tag} else {})
      {
        var fd := forward[j];
        if fd !in byTag {
          return UnknownForward(tag, fd);
        }
        var k := byTag[fd];
        assert Elems(depends[k] + [tag]) == Elems(depends[k]) + {tag};
        depends := depends[k := depends[k] + [tag]];
        assert forward[..j + 1] == forward[..j] + [fd];
      }
      assert forward[..|forward|] == forward;
      return Loaded;
    }

    /** Audits one script's normal dependences. */
    method Audit(tag: Tag) returns (r: LoadResult)
      requires Valid() && tag in byTag
      ensures r.Loaded? <==> Elems(depends[byTag[tag]]) <= byTag.Keys
    {
      var deps := depends[byTag[tag]];
      for j := 0 to |deps|
        invariant forall d | d in deps[..j] :: d in byTag
      {
        if deps[j] !in byTag {
          assert deps[j] in Elems(deps);
          return UnknownDepend(tag, deps[j]);
        }
      }
      assert deps[..|deps|] == deps;
      return Loaded;
    }

    /** Resolves forward dependences and audits the normal ones, taking the scripts in any
        order: succeeds exactly when every name used is registered, and then each script depends
        on what it declared plus every script that named it. */
    method ResolveForward() returns (r: LoadResult)
      requires Valid()
      modifies this`depends
      ensures Valid()
      ensures r.Loaded? <==> forall t | t in byTag :: NamesKnown(scripts, byTag, old(depends), t)
      ensures r.Loaded? ==> Resolved(scripts, byTag, old(depends), depends, byTag.Keys)
    {
      ghost var depends0 := depends;
      var done: set<Tag> := {};
      while byTag.Keys - done != {}
        invariant Valid() && done <= byTag.Keys
        invariant Resolved(scripts, byTag, depends0, depends, done)
        invariant forall t | t in done :: NamesKnown(scripts, byTag, depends0, t)
        decreases byTag.Keys - done
      {
        var tag :| tag in byTag.Keys - done;
        ghost var middle := depends;
        r := PushForward(tag);
        if !r.Loaded? {
          assert !NamesKnown(scripts, byTag, depends0, tag);
          return r;
        }
        ResolvedStep(scripts, byTag, depends0, middle, depends, done, tag);
        r := Audit(tag);
        AuditSeesOriginal(scripts, byTag, depends0, depends, done + {tag}, tag);
        assert r.Loaded? <==> NamesKnown(scripts, byTag, depends0, tag);
        if !r.Loaded? {
          return r;
        }
        done := done + {tag};
      }
      NothingLeft(byTag.Keys, done);
      return Loaded;
    }

    method RegisterAll(files: seq<Script>)
      requires Valid() && scripts == [] && Complete()
      modifies this
      ensures Valid() && scripts == files && Complete() && AsDeclared(scripts, depends)
    {
      for n := 0 to |files|
        invariant Valid() && scripts == files[..n] && Complete() && AsDeclared(scripts, depends)
      {
        DeclaredMore(scripts, depends, files[n]);
        Register(files[n]);
      }
    }

    /** Loading the whole script directory. On success the graph handed to the migration loop
        names registered tags only, and its edges are the legacy chain, the declared
        dependences of the other scripts, and the reversed forward dependences. */
    method LoadAll(files: seq<Script>) returns (r: LoadResult)
      requires Valid() && scripts == [] && Complete()
      modifies this
      ensures Valid() && scripts == files && Complete()
      ensures r.Loaded? <==>
                && !(3 in legacy && 2 !in legacy)
                && forall t | t in byTag ::
                     && (forall fd | fd in files[byTag[t]].fwdDepends :: fd in byTag)
                     && Elems(Linked(files, legacy, byTag[t])) <= byTag.Keys
      ensures r.Loaded? ==> forall t | t in byTag ::
                && Graph().deps[t] == Elems(Linked(files, legacy, byTag[t])) + Forwarders(files, byTag, byTag.Keys, t)
                && Graph().deps[t] <= tagSet + untagSet
    {
      RegisterAll(files);
      r := LinkLegacy();
      if r.Loaded? {
        ghost var linked := depends;
        r := ResolveForward();
        assert forall t | t in byTag :: linked[byTag[t]] == Linked(files, legacy, byTag[t]);
      }
    }

    /** The tags a checkpoint starts from, when that can be told. */
    ghost function StartTags(info: VersionInfo): Option<set<Tag>>
      requires Valid()
      reads this
    {
      match info
      case NoVersion => None
      case VersionTags(tags) => Some(tags)
      case LegacyVersion(v) =>
        if forall i | 2 <= i <= v :: i in legacy
        then Some(set i | 2 <= i <= v :: scripts[legacy[i]].tag)
        else None
    }

    /** Some legacy version from 2 to `version` is the one that introduced tag `t`. */
    ghost predicate Carries(version: int, t: Tag)
      requires Valid()
      reads this
    {
      exists i :: 2 <= i <= version && i in legacy && scripts[legacy[i]].tag == t
    }

    /** The checkpoint has tag `t` before the migration. */
    ghost predicate HasTag(info: VersionInfo, t: Tag)
      requires Valid()
      reads this
    {
      match info
      case NoVersion => false
      case VersionTags(tags) => t in tags
      case LegacyVersion(v) => Carries(v, t)
    }

    lemma StartTagsAre(info: VersionInfo, t: Tag)
      requires Valid() && StartTags(info).Some?
      ensures t in StartTags(info).value <==> HasTag(info, t)
    {
    }

    /** A converted legacy version is closed under the chain that loading builds: with each
        version from 3 on, it holds everything that version was made to depend on. */
    lemma LegacyTagsFollowChain(version: int, i: int)
      requires Valid()
      requires StartTags(LegacyVersion(version)).Some? && 3 <= i <= version
      ensures i in legacy && i - 1 in legacy
      ensures scripts[legacy[i]].tag in StartTags(LegacyVersion(version)).value
      ensures Elems(Linked(scripts, legacy, legacy[i])) == {scripts[legacy[i - 1]].tag}
      ensures scripts[legacy[i - 1]].tag in StartTags(LegacyVersion(version)).value
    {
      assert forall j | 2 <= j <= version :: j in legacy;
      assert i - 1 in legacy;
      assert InChain(legacy, i);
    }

    /** Legacy version -> tags conversion. */
    method ConvertLegacy(version: int) returns (tags: Option<set<Tag>>, missing: int)
      requires Valid()
      ensures tags.Some? <==> forall i | 2 <= i <= version :: i in legacy
      ensures tags.Some? ==> forall t :: t in tags.value <==> Carries(version, t)
      ensures tags == StartTags(LegacyVersion(version))
      ensures tags.None? ==> 2 <= missing <= version && missing !in legacy && forall i | 2 <= i < missing :: i in legacy
    {
      var found: set<Tag> := {};
      missing := 2;
      while missing <= version
        invariant 2 <= missing && (missing <= version || missing == version + 1 || version < 2)
        invariant forall i | 2 <= i < missing && i <= version :: i in legacy
        invariant found == set i | 2 <= i < missing && i <= version :: scripts[legacy[i]].tag
        decreases version - missing
      {
        if missing !in legacy {
          return None, missing;
        }
        found := found + {scripts[legacy[missing]].tag};
        missing := missing + 1;
      }
      assert found == set i | 2 <= i <= version :: scripts[legacy[i]].tag;
      tags := Some(found);
    }

    /** Applying one migration to the tag set; a downgrade of an absent tag fails. */
    method Update(tag: Tag, tags: set<Tag>) returns (r: Option<set<Tag>>)
      requires Valid() && tag in byTag
      ensures r == if tag !in Graph().down then Some(tags + {tag})
                   else if tag in tags then Some(tags - {tag}) else None
    {
      if scripts[byTag[tag]].kind == Upgrade {
        return Some(tags + {tag});
      } else if tag in tags {
        return Some(tags - {tag});
      }
      return None;
    }

    /** One round: every ready migration is applied, in any order. */
    method ApplyRound(ready: set<Tag>, start: set<Tag>) returns (tags: set<Tag>, log: seq<Tag>, absent: Option<Tag>)
      requires Valid() && ready <= byTag.Keys
      ensures absent.None? ==> tags == Apply(Graph(), start, ready) && multiset(log) == multiset(ready)
      ensures absent.None? <==> ready * Graph().down <= start
      ensures absent.Some? ==> absent.value in ready * Graph().down - start
    {
      ghost var c := Graph();
      var done: set<Tag> := {};
      tags, log := start, [];
      while ready - done != {}
        invariant done <= ready
        invariant tags == Apply(c, start, done)
        invariant multiset(log) == multiset(done)
        invariant done * c.down <= start
        decreases ready - done
      {
        var tag :| tag in ready - done;
        ApplyOneMore(c, start, done, tag);
        var updated := Update(tag, tags);
        if updated.None? {
          return tags, log, Some(tag);
        }
        tags, log, done := updated.value, log + [tag], done + {tag};
      }
      NothingLeft(ready, done);
      absent := None;
    }

    /** The scheduling loop. Whatever order the ready sets are iterated in, it does the rounds of
        the schedule, unless a downgrade finds its tag missing. */
    method Migrate(start: set<Tag>) returns (tags: set<Tag>, stuck: set<Tag>, log: seq<Tag>, absent: Option<Tag>)
      requires Valid()
      ensures absent.None? <==> MissingDowngrades(Graph(), start) == {}
      ensures absent.Some? ==> absent.value in MissingDowngrades(Graph(), start)
      ensures absent.None? ==>
                var run := Schedule(Graph(), start);
                run.tags == tags && run.stuck == stuck && Linearizes(log, run.rounds)
    {
      ghost var c := Graph();
      var toApply := (tagSet - start) + (untagSet * start);
      tags, log, stuck, absent := start, [], {}, None;
      ghost var rounds: seq<set<Tag>> := [];
      while toApply != {}
        invariant absent.None? && Progress(c, start, rounds, toApply, tags, log)
        decreases toApply
      {
        var ready := ReadyTags(toApply, tags);
        if ready == {} {
          break;
        }
        ghost var before := tags;
        var batch: seq<Tag>;
        tags, batch, absent := ApplyRound(ready, tags);
        if absent.Some? {
          RoundFails(c, start, rounds, toApply, before, log, absent.value);
          return;
        }
        RoundDone(c, start, rounds, toApply, before, log, batch);
        log, rounds, toApply := log + batch, rounds + [ready], toApply - ready;
      }
      RunDone(c, start, rounds, toApply, tags, log);
      stuck := toApply;
    }

    /** The pending migrations whose dependences are all in force. */
    function ReadyTags(toApply: set<Tag>, tags: set<Tag>): (ready: set<Tag>)
      requires Valid() && toApply <= byTag.Keys
      reads this
      ensures ready == Ready(Graph(), toApply, tags)
    {
      set t | t in toApply && forall d | d in depends[byTag[t]] :: d in tags
    }

    /** What a finished migration has done to a checkpoint: it applied, each once and after its dependences,
        the upgrades it lacked and the downgrades of tags it had, and nothing else. */
    ghost predicate Migrated(info: VersionInfo, log: seq<Tag>, tags: set<Tag>)
      requires Valid()
      reads this
    {
      && (forall t :: t in log <==> if HasTag(info, t) then t in untagSet else t in tagSet)
      && NoDuplicates(log)
      && (forall k, d | 0 <= k < |log| && log[k] in byTag && d in depends[byTag[log[k]]] :: HasTag(info, d) || d in log[..k])
      && (forall t :: t in tags <==> if t in log && t in byTag then scripts[byTag[t]].kind == Upgrade else HasTag(info, t))
    }

    lemma CompletedIsMigrated(info: VersionInfo, log: seq<Tag>)
      requires Valid() && StartTags(info).Some?
      requires var run := Schedule(Graph(), StartTags(info).value); run.stuck == {} && Linearizes(log, run.rounds)
      ensures Migrated(info, log, Schedule(Graph(), StartTags(info).value).tags)
    {
      var c, start := Graph(), StartTags(info).value;
      forall t ensures t in start <==> HasTag(info, t) {
        StartTagsAre(info, t);
      }
      EveryOrderRespectsDeps(c, start, log);
      AppliedTags(c, start, log);
      forall k, d | 0 <= k < |log| && log[k] in byTag && d in depends[byTag[log[k]]]
        ensures HasTag(info, d) || d in log[..k]
      {
        assert d in c.deps[log[k]];
      }
    }

    /** Migrating one checkpoint. */
    method ProcessFile(info: VersionInfo) returns (outcome: Outcome, log: seq<Tag>)
      requires Valid()
      ensures outcome.Written? ==> Migrated(info, log, outcome.tags)
      ensures outcome.NothingToDo? ==> log == [] && forall t :: if HasTag(info, t) then t !in untagSet else t !in tagSet
      ensures info.LegacyVersion? && outcome.Written? ==>
                forall i | i in legacy && scripts[legacy[i]].tag in tagSet && !Carries(info.version, scripts[legacy[i]].tag) ::
                  scripts[legacy[i]].tag in log
      ensures info.NoVersion? ==> outcome == Fatal
      ensures info.LegacyVersion? && StartTags(info).None? ==>
                && outcome.UnknownLegacy? && 2 <= outcome.version <= info.version && outcome.version !in legacy
                && forall i | 2 <= i < outcome.version :: i in legacy
      ensures StartTags(info).Some? && MissingDowngrades(Graph(), StartTags(info).value) != {} ==>
                outcome.AbsentTag? && outcome.tag in MissingDowngrades(Graph(), StartTags(info).value)
      ensures StartTags(info).Some? && MissingDowngrades(Graph(), StartTags(info).value) == {} ==>
                var run := Schedule(Graph(), StartTags(info).value);
                && Linearizes(log, run.rounds)
                && outcome == if run.stuck != {} then Aborted(run.stuck)
                              else if run.rounds == [] && !info.LegacyVersion? then NothingToDo
                              else Written(run.tags)
    {
      var start: set<Tag>;
      match info {
        case NoVersion =>
          return Fatal, [];
        case VersionTags(present) =>
          start := present;
        case LegacyVersion(v) =>
          var converted, missing := ConvertLegacy(v);
          if converted.None? {
            return UnknownLegacy(missing), [];
          }
          start := converted.value;
      }
      var tags, stuck, absent;
      tags, stuck, log, absent := Migrate(start);
      if absent.Some? {
        return AbsentTag(absent.value), log;
      }
      if stuck != {} {
        return Aborted(stuck), log;
      }
      EmptyLogMeansNoRound(Graph(), start, log);
      CompletedIsMigrated(info, log);
      if log == [] && !info.LegacyVersion? {
        return NothingToDo, log;
      }
      return Written(tags), log;
    }
  }

  lemma NothingLeft<T>(all: set<T>, done: set<T>)
    requires done <= all && all - done == {}
    ensures done == all
  {
    forall t | t in all ensures t in done {
      assert t !in all - done;
    }
  }

  lemma ApplyOneMore(c: Catalog, start: set<Tag>, done: set<Tag>, tag: Tag)
    requires tag !in done
    ensures Apply(c, start, done + {tag}) ==
            if tag in c.down then Apply(c, start, done) - {tag} else Apply(c, start, done) + {tag}
    ensures tag in c.down ==> (tag in Apply(c, start, done) <==> tag in start)
  {
  }

  lemma AfterRound(c: Catalog, rounds: seq<set<Tag>>, toApply: set<Tag>, tags: set<Tag>)
    requires toApply <= c.deps.Keys
    requires Ready(c, toApply, tags) != {}
    ensures var ready := Ready(c, toApply, tags);
            After(rounds, RunFrom(c, toApply, tags)) ==
            After(rounds + [ready], RunFrom(c, toApply - ready, Apply(c, tags, ready)))
  {
    var ready := Ready(c, toApply, tags);
    ReadyShrinks(toApply, ready);
    var rest := RunFrom(c, toApply - ready, Apply(c, tags, ready));
    assert rounds + ([ready] + rest.rounds) == rounds + [ready] + rest.rounds;
  }

  /** A round touches no tag but its own. */
  lemma StillAsBefore(c: Catalog, toApply: set<Tag>, start: set<Tag>, tags: set<Tag>, ready: set<Tag>)
    requires toApply * tags == toApply * start && ready <= toApply
    ensures (toApply - ready) * Apply(c, tags, ready) == (toApply - ready) * start
    ensures ready * c.down <= tags <==> ready * c.down <= start
  {
    forall t | t in ready ensures t in tags <==> t in start {
      assert t in toApply * tags <==> t in toApply * start;
    }
    forall t | t in toApply - ready ensures t in Apply(c, tags, ready) <==> t in start {
      assert t in toApply * tags <==> t in toApply * start;
    }
  }

  lemma {:induction false} UnionAppend(rounds: seq<set<Tag>>, ready: set<Tag>)
    ensures UnionOf(rounds + [ready]) == UnionOf(rounds) + ready
  {
    if rounds == [] {
      assert (rounds + [ready])[1..] == [];
    } else {
      UnionAppend(rounds[1..], ready);
      assert (rounds + [ready])[1..] == rounds[1..] + [ready];
    }
  }

  lemma {:induction false} UnionPrefix(a: seq<set<Tag>>, b: seq<set<Tag>>)
    ensures UnionOf(a) <= UnionOf(a + b)
  {
    if a != [] {
      UnionPrefix(a[1..], b);
      assert (a + b)[1..] == a[1..] + b;
    }
  }

  /** The downgrades of the schedule whose tag the checkpoint does not have. */
  ghost function MissingDowngrades(c: Catalog, start: set<Tag>): set<Tag>
    requires c.Valid()
  {
    UnionOf(Schedule(c, start).rounds) * c.down - start
  }

  /** The loop has done `rounds`, in the order of `log`, and no downgrade missed its tag so far. */
  ghost predicate Progress(c: Catalog, start: set<Tag>, rounds: seq<set<Tag>>, toApply: set<Tag>, tags: set<Tag>,
                           log: seq<Tag>)
    requires c.Valid()
  {
    && toApply <= c.deps.Keys && toApply * tags == toApply * start && UnionOf(rounds) * c.down <= start
    && Linearizes(log, rounds) && Schedule(c, start) == After(rounds, RunFrom(c, toApply, tags))
  }

  lemma RoundDone(c: Catalog, start: set<Tag>, rounds: seq<set<Tag>>, toApply: set<Tag>, tags: set<Tag>, log: seq<Tag>,
                  batch: seq<Tag>)
    requires c.Valid() && Progress(c, start, rounds, toApply, tags, log)
    requires var ready := Ready(c, toApply, tags);
             ready != {} && ready * c.down <= tags && multiset(batch) == multiset(ready)
    ensures var ready := Ready(c, toApply, tags);
            Progress(c, start, rounds + [ready], toApply - ready, Apply(c, tags, ready), log + batch)
  {
    var ready := Ready(c, toApply, tags);
    AfterRound(c, rounds, toApply, tags);
    UnionAppend(rounds, ready);
    StillAsBefore(c, toApply, start, tags, ready);
    LinearizesAppend(log, rounds, batch, ready);
  }

  lemma RoundFails(c: Catalog, start: set<Tag>, rounds: seq<set<Tag>>, toApply: set<Tag>, tags: set<Tag>, log: seq<Tag>,
                   t: Tag)
    requires c.Valid() && Progress(c, start, rounds, toApply, tags, log)
    requires t in Ready(c, toApply, tags) * c.down - tags
    ensures t in MissingDowngrades(c, start)
  {
    var ready := Ready(c, toApply, tags);
    AfterRound(c, rounds, toApply, tags);
    UnionAppend(rounds, ready);
    UnionPrefix(rounds + [ready], RunFrom(c, toApply - ready, Apply(c, tags, ready)).rounds);
    assert t in toApply * tags <==> t in toApply * start;
  }

  lemma RunDone(c: Catalog, start: set<Tag>, rounds: seq<set<Tag>>, toApply: set<Tag>, tags: set<Tag>, log: seq<Tag>)
    requires c.Valid() && Progress(c, start, rounds, toApply, tags, log)
    requires toApply == {} || Ready(c, toApply, tags) == {}
    ensures MissingDowngrades(c, start) == {}
    ensures var run := Schedule(c, start); run.tags == tags && run.stuck == toApply && Linearizes(log, run.rounds)
  {
    assert rounds + [] == rounds;
  }

  /** The final tags of a completed run, by what was applied. */
  lemma AppliedTags(c: Catalog, start: set<Tag>, log: seq<Tag>)
    requires c.Valid() && Schedule(c, start).stuck == {} && Linearizes(log, Schedule(c, start).rounds)
    ensures forall t :: t in log <==> t in Pending(c, start)
    ensures forall t :: t in Schedule(c, start).tags <==> if t in log then t !in c.down else t in start
  {
    RunTags(c, Pending(c, start), start);
    RoundsCover(c, Pending(c, start), start);
    forall t ensures t in log <==> t in UnionOf(Schedule(c, start).rounds) {
      LinearizesMembers(log, Schedule(c, start).rounds, t);
    }
  }

  /** No tag being used twice, a downgrade never finds its tag missing. */
  lemma NoneMissing(c: Catalog, start: set<Tag>)
    requires c.Valid() && c.TagsUsedOnce()
    ensures MissingDowngrades(c, start) == {}
  {
    RoundsCover(c, Pending(c, start), start);
  }

  /** A tag with an upgrader and, registered last, a downgrader: it is pending because it is absent, and
      applying it removes it. */
  lemma TagUsedTwiceFails()
    ensures var t := Tag("twice");
            var c := Catalog({t}, {t}, map[t := {}], {t});
            c.Valid() && MissingDowngrades(c, {}) == {t}
  {
    var t := Tag("twice");
    var c := Catalog({t}, {t}, map[t := {}], {t});
    assert Pending(c, {}) == {t} && Ready(c, {t}, {}) == {t};
    assert Schedule(c, {}).rounds[0] == {t};
  }

  lemma EmptyLogMeansNoRound(c: Catalog, start: set<Tag>, log: seq<Tag>)
    requires c.Valid() && Linearizes(log, Schedule(c, start).rounds)
    ensures log == [] <==> Schedule(c, start).rounds == []
  {
    RoundsAreProper(c, Pending(c, start), start);
    var rounds := Schedule(c, start).rounds;
    if rounds != [] {
      assert |rounds[0]| > 0;
    }
  }

  /** The run that applied `rounds` first and then went on as `rest`. */
  ghost function After(rounds: seq<set<Tag>>, rest: Run): Run {
    Run(rounds + rest.rounds, rest.tags, rest.stuck)
  }

  lemma {:induction false} LinearizesAppend(log: seq<Tag>, rounds: seq<set<Tag>>, batch: seq<Tag>, ready: set<Tag>)
    requires Linearizes(log, rounds) && multiset(batch) == multiset(ready)
    ensures Linearizes(log + batch, rounds + [ready])
  {
    if rounds == [] {
      assert |multiset(batch)| == |batch| && |multiset(ready)| == |ready|;
      assert log + batch == batch && batch[..|ready|] == batch && batch[|ready|..] == [];
    } else {
      var n := |rounds[0]|;
      LinearizesAppend(log[n..], rounds[1..], batch, ready);
      assert (log + batch)[..n] == log[..n] && (log + batch)[n..] == log[n..] + batch;
      assert (rounds + [ready])[1..] == rounds[1..] + [ready];
    }
  }
}
