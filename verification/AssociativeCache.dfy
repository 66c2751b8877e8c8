/**
 The set-associative array behind every BTB level (gem5/src/base/cache/associative_cache.hh with
 the indexing policy of gem5/src/cpu/pred/btb_entry.hh), and the level it implements: a finite
 map from keys to entries, where a key stands for a set and a tag.
 */
module AssociativeCache {
  import opened Wrappers

  type Key = nat

  /** An array that tells `keys` lines apart, in `sets` sets of `ways` ways each. */
  datatype Geometry = Geometry(keys: nat, sets: nat, ways: nat) {
    predicate Valid() {
      keys > 0 && sets > 0 && ways > 0 && keys % sets == 0
    }

    /** What a line number selects: its low part. */
    function KeyOf(line: nat): Key
      requires Valid()
    {
      line % keys
    }

    function SetOf(k: Key): nat
      requires Valid()
    {
      k % sets
    }

    function TagOf(k: Key): nat
      requires Valid()
    {
      k / sets
    }
  }

  /** The keys that share a set with `key`. */
  function Rivals(g: Geometry, keys: set<Key>, key: Key): set<Key>
    requires g.Valid()
  {
    set k | k in keys && g.SetOf(k) == g.SetOf(key)
  }

  /** What a replacement policy may give up for a new `key`: an invalid way while the set has one,
      and otherwise one of the keys of the set. */
  predicate Picks(g: Geometry, keys: set<Key>, key: Key, victim: Option<Key>)
    requires g.Valid()
  {
    if |Rivals(g, keys, key)| < g.ways then victim == None
    else victim.Some? && victim.value in Rivals(g, keys, key)
  }

  // ---------------------------------------------------------------- sets, tags and keys

  lemma Distribute(a: int, b: int, c: int)
    ensures a * (b + c) == a * b + a * c
  {
  }

  lemma Associate(a: int, b: int, c: int)
    ensures a * (b * c) == a * b * c
  {
  }

  lemma MulMonotone(a: nat, b: int, c: int)
    requires b <= c
    ensures a * b <= a * c
  {
  }

  lemma UniqueRemainder(x: nat, m: nat, a: nat, r: nat)
    requires m > 0 && x == m * a + r && r < m
    ensures x % m == r && x / m == a
  {
    var q := x / m;
    assert x == m * q + x % m;
    Distribute(m, a, -q);
    assert m * (a - q) == x % m - r;
    if a > q {
      MulMonotone(m, 1, a - q);
    } else if a < q {
      MulMonotone(m, a - q, -1);
    }
  }

  lemma LowPart(line: nat, sets: nat, tags: nat)
    requires sets > 0 && tags > 0 && sets * tags > 0
    ensures line % (sets * tags) == sets * ((line / sets) % tags) + line % sets
  {
    var q, r := line / sets, line % sets;
    var a, b := q / tags, q % tags;
    assert line == sets * tags * a + (sets * b + r) by {
      Distribute(sets, tags * a, b);
      Associate(sets, tags, a);
    }
    assert 0 <= sets * b + r < sets * tags by {
      MulMonotone(sets, b, tags - 1);
      Distribute(sets, tags, -1);
    }
    UniqueRemainder(line, sets * tags, a, sets * b + r);
  }

  /** Set and tag of a line, as the hardware extracts them, are set and tag of its key: the low
      bits of the line number, and as many bits above them as the tag holds. */
  lemma SetAndTag(g: Geometry, line: nat)
    requires g.Valid()
    ensures g.SetOf(g.KeyOf(line)) == line % g.sets
    ensures g.keys / g.sets > 0 && g.TagOf(g.KeyOf(line)) == (line / g.sets) % (g.keys / g.sets)
  {
    var tags := g.keys / g.sets;
    assert g.keys == g.sets * tags;
    LowPart(line, g.sets, tags);
    UniqueRemainder(g.KeyOf(line), g.sets, (line / g.sets) % tags, line % g.sets);
  }

  /** A key is determined by its set and its tag. */
  lemma SameSetAndTag(g: Geometry, a: Key, b: Key)
    requires g.Valid() && g.SetOf(a) == g.SetOf(b) && g.TagOf(a) == g.TagOf(b)
    ensures a == b
  {
  }

  /** The key of a tag in a set. */
  function KeyFor(g: Geometry, s: nat, tag: nat): (k: Key)
    requires g.Valid() && s < g.sets
    ensures g.SetOf(k) == s && g.TagOf(k) == tag
  {
    UniqueRemainder(g.sets * tag + s, g.sets, tag, s);
    g.sets * tag + s
  }

  // ---------------------------------------------------------------- the array

  datatype Way<E> = Invalid | Way(tag: nat, entry: E)

  /** `contents` is the level that the array implements. */
  class Cache<E(==)> {
    const g: Geometry
    const ways: array2<Way<E>>
    ghost var contents: map<Key, E>

    ghost predicate Shape() {
      g.Valid() && ways.Length0 == g.sets && ways.Length1 == g.ways
    }

    /** Way `w` of its set holds `k`. */
    ghost predicate Holds(w: nat, k: Key)
      requires Shape()
      reads ways
    {
      w < g.ways && ways[g.SetOf(k), w].Way? && ways[g.SetOf(k), w].tag == g.TagOf(k)
    }

    /** No two ways of a set have the same tag, and the ways are exactly the contents. */
    ghost predicate Valid()
      reads this, ways
    {
      && Shape()
      && (forall s, w, x | 0 <= s < g.sets && 0 <= w < x < g.ways && ways[s, w].Way? && ways[s, x].Way? ::
            ways[s, w].tag != ways[s, x].tag)
      && (forall s, w | 0 <= s < g.sets && 0 <= w < g.ways && ways[s, w].Way? ::
            && KeyFor(g, s, ways[s, w].tag) in contents
            && contents[KeyFor(g, s, ways[s, w].tag)] == ways[s, w].entry)
      && (forall k | k in contents :: exists w: nat :: Holds(w, k))
    }

    constructor (g: Geometry)
      requires g.Valid()
      ensures Valid() && contents == map[] && fresh(ways) && this.g == g
    {
      this.g := g;
      ways := new Way<E>[g.sets, g.ways]((_, _) => Invalid);
      contents := map[];
    }

    /** Scanning the ways of the set for a matching tag finds exactly what the level holds. */
    method FindEntry(line: nat) returns (way: Option<nat>)
      requires Valid()
      ensures way.Some? <==> g.KeyOf(line) in contents
      ensures way.Some? ==> Holds(way.value, g.KeyOf(line))
      ensures way.Some? ==> ways[g.SetOf(g.KeyOf(line)), way.value].entry == contents[g.KeyOf(line)]
    {
      var k := g.KeyOf(line);
      var s, tag := g.SetOf(k), g.TagOf(k);
      for w := 0 to g.ways
        invariant forall x | 0 <= x < w :: !Holds(x, k)
      {
        if ways[s, w].Way? && ways[s, w].tag == tag {
          SameSetAndTag(g, k, KeyFor(g, s, tag));
          return Some(w);
        }
      }
      return None;
    }

    ghost function Row(s: nat): (row: seq<Way<E>>)
      requires Shape() && s < g.sets
      reads ways
      ensures |row| == g.ways && forall w | 0 <= w < g.ways :: row[w] == ways[s, w]
    {
      seq(g.ways, w requires 0 <= w < g.ways reads ways => ways[s, w])
    }

    /** The keys of a set are those of its valid ways. */
    lemma RivalsAreRow(key: Key)
      requires Valid()
      ensures var row := Row(g.SetOf(key));
              DistinctTags(row) && Rivals(g, contents.Keys, key) == RowKeys(g, g.SetOf(key), row, |row|)
    {
      var s := g.SetOf(key);
      var row := Row(s);
      forall k | k in contents && g.SetOf(k) == s ensures exists w: nat :: w < |row| && HasTag(row[w], g.TagOf(k)) {
        var w: nat :| Holds(w, k);
        assert HasTag(row[w], g.TagOf(k));
      }
      RowIsRivals(g, s, row, contents.Keys, key);
    }

    /** The way that is given up for a line: an invalid one if there is one, and otherwise the one
        the replacement policy chose. */
    method FindVictim(line: nat, choice: nat) returns (way: nat)
      requires Valid() && choice < g.ways
      ensures way < g.ways
      ensures var s := g.SetOf(g.KeyOf(line));
              Picks(g, contents.Keys, g.KeyOf(line), WayKey(g, s, ways[s, way]))
    {
      var s := g.SetOf(g.KeyOf(line));
      RivalsAreRow(g.KeyOf(line));
      way := 0;
      while way < g.ways && ways[s, way].Way?
        invariant way <= g.ways
        invariant forall w | 0 <= w < way :: ways[s, w].Way?
      {
        way := way + 1;
      }
      if way < g.ways {
        FreeWay(g, s, Row(s), |Row(s)|, way);
      } else {
        way := choice;
        FullRow(g, s, Row(s), |Row(s)|);
        InRowKeys(g, s, Row(s), |Row(s)|, way);
      }
    }

    /** Emptying one way removes exactly what it held. */
    method Invalidate(s: nat, way: nat)
      requires Valid() && s < g.sets && way < g.ways
      modifies this, ways
      ensures Valid() && ways[s, way].Invalid?
      ensures contents == Drop(old(contents), WayKey(g, s, old(ways[s, way])))
      ensures forall w | 0 <= w < g.ways && w != way :: ways[s, w] == old(ways[s, w])
    {
      if ways[s, way].Invalid? {
        return;
      }
      var k := KeyFor(g, s, ways[s, way].tag);
      ways[s, way] := Invalid;
      contents := contents - {k};
      forall j | j in contents ensures exists w: nat :: Holds(w, j) {
        ghost var w: nat :| old(Holds(w, j));
        assert j != k;
        if g.SetOf(j) == s && w == way {
          SameSetAndTag(g, j, k);
        }
        assert Holds(w, j);
      }
    }

    /** Filling an empty way. */
    method Fill(k: Key, entry: E, way: nat)
      requires Valid() && way < g.ways && ways[g.SetOf(k), way].Invalid? && k !in contents
      modifies this, ways
      ensures Valid() && contents == old(contents)[k := entry]
    {
      var s, tag := g.SetOf(k), g.TagOf(k);
      SameSetAndTag(g, k, KeyFor(g, s, tag));
      ways[s, way] := Way(tag, entry);
      contents := contents[k := entry];
      assert Holds(way, k);
      forall j | j in contents ensures exists w: nat :: Holds(w, j) {
        if j != k {
          ghost var w: nat :| old(Holds(w, j));
          assert Holds(w, j);
        }
      }
    }

    /** The level gains the new pair and loses what the replacement policy picked. */
    method InsertEntry(line: nat, entry: E, choice: nat) returns (ghost victim: Option<Key>)
      requires Valid() && choice < g.ways && g.KeyOf(line) !in contents
      modifies this, ways
      ensures Valid()
      ensures Picks(g, old(contents.Keys), g.KeyOf(line), victim)
      ensures contents == Drop(old(contents), victim)[g.KeyOf(line) := entry]
    {
      var s := g.SetOf(g.KeyOf(line));
      var way := FindVictim(line, choice);
      victim := WayKey(g, s, ways[s, way]);
      Invalidate(s, way);
      Fill(g.KeyOf(line), entry, way);
    }
  }

  function Drop<E>(level: map<Key, E>, victim: Option<Key>): map<Key, E> {
    if victim.Some? then level - {victim.value} else level
  }

  // ---------------------------------------------------------------- counting the ways of a set

  function WayKey<E>(g: Geometry, s: nat, way: Way<E>): Option<Key>
    requires g.Valid() && s < g.sets
  {
    if way.Way? then Some(KeyFor(g, s, way.tag)) else None
  }

  ghost predicate DistinctTags<E>(row: seq<Way<E>>) {
    forall w, x | 0 <= w < x < |row| && row[w].Way? && row[x].Way? :: row[w].tag != row[x].tag
  }

  predicate HasTag<E>(way: Way<E>, tag: nat) {
    way.Way? && way.tag == tag
  }

  lemma RowIsRivals<E>(g: Geometry, s: nat, row: seq<Way<E>>, keys: set<Key>, key: Key)
    requires g.Valid() && s < g.sets && g.SetOf(key) == s
    requires forall w | 0 <= w < |row| && row[w].Way? :: KeyFor(g, s, row[w].tag) in keys
    requires forall k | k in keys && g.SetOf(k) == s :: exists w: nat :: w < |row| && HasTag(row[w], g.TagOf(k))
    ensures Rivals(g, keys, key) == RowKeys(g, s, row, |row|)
  {
    forall k | k in Rivals(g, keys, key) ensures k in RowKeys(g, s, row, |row|) {
      var w: nat :| w < |row| && HasTag(row[w], g.TagOf(k));
      SameSetAndTag(g, k, KeyFor(g, s, row[w].tag));
      InRowKeys(g, s, row, |row|, w);
    }
    forall k | k in RowKeys(g, s, row, |row|) ensures k in Rivals(g, keys, key) {
      var w := FromRow(g, s, row, |row|, k);
    }
  }

  /** The keys held by the first n ways. */
  function RowKeys<E>(g: Geometry, s: nat, row: seq<Way<E>>, n: nat): set<Key>
    requires g.Valid() && s < g.sets && n <= |row|
  {
    if n == 0 then {}
    else if row[n - 1].Way? then RowKeys(g, s, row, n - 1) + {KeyFor(g, s, row[n - 1].tag)}
    else RowKeys(g, s, row, n - 1)
  }

  lemma {:induction false} InRowKeys<E>(g: Geometry, s: nat, row: seq<Way<E>>, n: nat, w: nat)
    requires g.Valid() && s < g.sets && w < n <= |row| && row[w].Way?
    ensures KeyFor(g, s, row[w].tag) in RowKeys(g, s, row, n)
  {
    if w < n - 1 {
      InRowKeys(g, s, row, n - 1, w);
    }
  }

  lemma {:induction false} FromRow<E>(g: Geometry, s: nat, row: seq<Way<E>>, n: nat, k: Key) returns (w: nat)
    requires g.Valid() && s < g.sets && n <= |row| && k in RowKeys(g, s, row, n)
    ensures w < n && row[w].Way? && k == KeyFor(g, s, row[w].tag)
  {
    w := n - 1;
    if !(row[w].Way? && k == KeyFor(g, s, row[w].tag)) {
      w := FromRow(g, s, row, n - 1, k);
    }
  }

  /** Ways that are all valid hold as many keys. */
  lemma {:induction false} FullRow<E>(g: Geometry, s: nat, row: seq<Way<E>>, n: nat)
    requires g.Valid() && s < g.sets && n <= |row| && DistinctTags(row)
    requires forall w | 0 <= w < n :: row[w].Way?
    ensures |RowKeys(g, s, row, n)| == n
  {
    if n > 0 {
      FullRow(g, s, row, n - 1);
      var k := KeyFor(g, s, row[n - 1].tag);
      if k in RowKeys(g, s, row, n - 1) {
        var w := FromRow(g, s, row, n - 1, k);
      }
    }
  }

  lemma {:induction false} AtMostRow<E>(g: Geometry, s: nat, row: seq<Way<E>>, n: nat)
    requires g.Valid() && s < g.sets && n <= |row|
    ensures |RowKeys(g, s, row, n)| <= n
  {
    if n > 0 {
      AtMostRow(g, s, row, n - 1);
    }
  }

  /** An invalid way leaves room for a key. */
  lemma {:induction false} FreeWay<E>(g: Geometry, s: nat, row: seq<Way<E>>, n: nat, w: nat)
    requires g.Valid() && s < g.sets && w < n <= |row| && row[w].Invalid?
    ensures |RowKeys(g, s, row, n)| < n
  {
    if w == n - 1 {
      AtMostRow(g, s, row, n - 1);
    } else {
      FreeWay(g, s, row, n - 1, w);
    }
  }
}
