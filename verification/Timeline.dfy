/**
 The timeline of one instruction in the O3 pipeline viewer (gem5/util/o3-pipeview.py,
 print_inst): rows of `width` cells, one cell per cycle, one letter per pipeline stage reached.
 */
module Timeline {
  import opened Wrappers
  import opened PipeView

  datatype Stage = Fetch | Decode | Rename | Dispatch | Issue | Complete | Retire | Store

  const PIPELINE: seq<Stage> := [Fetch, Decode, Rename, Dispatch, Issue, Complete, Retire]

  function Tick(x: Inst, s: Stage): int {
    match s
    case Fetch => x.fetch
    case Decode => x.decode
    case Rename => x.rename
    case Dispatch => x.dispatch
    case Issue => x.issue
    case Complete => x.complete
    case Retire => x.retire
    case Store => x.store
  }

  function Letter(s: Stage): char {
    match s
    case Fetch => 'f'
    case Decode => 'd'
    case Rename => 'n'
    case Dispatch => 'p'
    case Issue => 'i'
    case Complete => 'c'
    case Retire => 'r'
    case Store => 's'
  }

  /** Alphabetic rank of the stage name, by which simultaneous events are ordered. */
  function NameRank(s: Stage): nat {
    match s
    case Complete => 0
    case Decode => 1
    case Dispatch => 2
    case Fetch => 3
    case Issue => 4
    case Rename => 5
    case Retire => 6
    case Store => 7
  }

  /** The page: cells per row and ticks per cell. */
  datatype Page = Page(width: nat, cycle: nat, stores: bool) {
    predicate Valid() { width > 0 && cycle > 0 }

    function RowTicks(): (t: nat)
      ensures Valid() ==> t > 0
    {
      if width > 0 && cycle > 0 then MulPositive(width, cycle); width * cycle else 0
    }

    function Stages(): seq<Stage> {
      if stores then PIPELINE + [Store] else PIPELINE
    }
  }

  lemma MulPositive(a: nat, b: nat)
    requires a > 0 && b > 0
    ensures a * b > 0
  {
  }

  /** The largest tick of the first `n` stages. */
  function LastTick(x: Inst, stages: seq<Stage>, n: nat): int
    requires 0 < n <= |stages|
  {
    var t := Tick(x, stages[n - 1]);
    if n == 1 then t else if t > LastTick(x, stages, n - 1) then t else LastTick(x, stages, n - 1)
  }

  function Last(p: Page, x: Inst): int {
    LastTick(x, p.Stages(), |p.Stages()|)
  }

  function Base(p: Page, x: Inst): int
    requires p.Valid()
  {
    (x.fetch / p.RowTicks()) * p.RowTicks()
  }

  /** One row in the compact form, otherwise as many as the ticks span. */
  function NumRows(p: Page, x: Inst): int
    requires p.Valid()
  {
    if Last(p, x) - x.fetch < p.RowTicks() then 1
    else (Last(p, x) - Base(p, x)) / p.RowTicks() + 1
  }

  /** The ticks covered by row `i`; the compact row wraps around past its end. */
  predicate InRow(p: Page, x: Inst, i: int, tick: int)
    requires p.Valid()
  {
    var start := Base(p, x) + i * p.RowTicks();
    var end := start + p.RowTicks() + (if NumRows(p, x) == 1 then x.fetch - Base(p, x) else 0);
    start <= tick < end
  }

  /** The instruction was fetched, and no stage it reached comes before the fetch. */
  ghost predicate WellTimed(p: Page, x: Inst) {
    x.fetch != 0 && forall s | s in p.Stages() :: Tick(x, s) == 0 || x.fetch <= Tick(x, s)
  }

  lemma {:induction false} LastTickBounds(x: Inst, stages: seq<Stage>, n: nat, i: nat)
    requires 0 < n <= |stages| && i < n
    ensures Tick(x, stages[i]) <= LastTick(x, stages, n)
  {
    if i < n - 1 {
      LastTickBounds(x, stages, n - 1, i);
    }
  }

  lemma LastBounds(p: Page, x: Inst, s: Stage)
    requires s in p.Stages()
    ensures Tick(x, s) <= Last(p, x)
  {
    var stages := p.Stages();
    var i :| 0 <= i < |stages| && stages[i] == s;
    LastTickBounds(x, stages, |stages|, i);
  }

  lemma BaseBelowFetch(p: Page, x: Inst)
    requires p.Valid()
    ensures Base(p, x) <= x.fetch < Base(p, x) + p.RowTicks()
  {
    var t := p.RowTicks();
    assert x.fetch == t * (x.fetch / t) + x.fetch % t;
  }

  /** There is a single row exactly in the compact form. */
  lemma OneRowIffCompact(p: Page, x: Inst)
    requires p.Valid()
    ensures NumRows(p, x) >= 1
    ensures NumRows(p, x) == 1 <==> Last(p, x) - x.fetch < p.RowTicks()
  {
    var t := p.RowTicks();
    BaseBelowFetch(p, x);
    if Last(p, x) - x.fetch >= t {
      var d := Last(p, x) - Base(p, x);
      DivAtLeastOne(d, t);
    }
  }

  lemma DivAtLeastOne(d: int, t: nat)
    requires t > 0 && d >= t
    ensures d / t >= 1
  {
    assert d == t * (d / t) + d % t;
    if d / t < 1 {
      MulAtMostZero(t, d / t);
    }
  }

  lemma MulAtMostZero(t: nat, q: int)
    requires q < 1
    ensures t * q <= 0
  {
  }

  /** Every stage that was reached falls in exactly one row. */
  lemma ReachedStageInOneRow(p: Page, x: Inst, s: Stage) returns (row: int)
    requires p.Valid() && WellTimed(p, x) && s in p.Stages() && Tick(x, s) != 0
    ensures 0 <= row < NumRows(p, x) && InRow(p, x, row, Tick(x, s))
    ensures forall i | 0 <= i < NumRows(p, x) && InRow(p, x, i, Tick(x, s)) :: i == row
  {
    var t, tick := p.RowTicks(), Tick(x, s);
    OneRowIffCompact(p, x);
    BaseBelowFetch(p, x);
    LastBounds(p, x, s);
    if NumRows(p, x) == 1 {
      row := 0;
    } else {
      var d := tick - Base(p, x);
      row := d / t;
      RowOf(d, Last(p, x) - Base(p, x), t);
      forall i | 0 <= i < NumRows(p, x) && InRow(p, x, i, tick) ensures i == row {
        RowUnique(d, t, i);
      }
    }
  }

  lemma {:induction false} LastTickReached(x: Inst, stages: seq<Stage>, n: nat) returns (i: nat)
    requires 0 < n <= |stages|
    ensures i < n && Tick(x, stages[i]) == LastTick(x, stages, n)
  {
    i := n - 1;
    if n > 1 && Tick(x, stages[i]) <= LastTick(x, stages, n - 1) {
      i := LastTickReached(x, stages, n - 1);
    }
  }

  /** No row is drawn for nothing: the last one shows a stage. */
  lemma LastRowShows(p: Page, x: Inst) returns (s: Stage)
    requires p.Valid() && WellTimed(p, x) && x.fetch > 0
    ensures s in p.Stages() && Tick(x, s) != 0 && InRow(p, x, NumRows(p, x) - 1, Tick(x, s))
  {
    var stages := p.Stages();
    var i := LastTickReached(x, stages, |stages|);
    s := stages[i];
    assert stages[0] == Fetch;
    LastTickBounds(x, stages, |stages|, 0);
    var row := ReachedStageInOneRow(p, x, s);
    OneRowIffCompact(p, x);
    BaseBelowFetch(p, x);
    if NumRows(p, x) > 1 {
      RowOf(Last(p, x) - Base(p, x), Last(p, x) - Base(p, x), p.RowTicks());
    }
  }

  lemma RowOf(d: int, most: int, t: nat)
    requires 0 <= d <= most && t > 0
    ensures 0 <= d / t <= most / t
    ensures (d / t) * t <= d < (d / t) * t + t
  {
    assert d == t * (d / t) + d % t && most == t * (most / t) + most % t;
    if d / t < 0 { MulAtMost(t, d / t, -1); }
    if d / t > most / t { MulAtMost(t, most / t + 1, d / t); }
  }

  lemma MulAtMost(t: nat, a: int, b: int)
    requires a <= b
    ensures t * a <= t * b
  {
  }

  lemma RowUnique(d: int, t: nat, i: int)
    requires t > 0 && i * t <= d < i * t + t
    ensures i == d / t
  {
    assert d == t * (d / t) + d % t;
    if i < d / t { MulAtMost(t, i + 1, d / t); }
    if i > d / t { MulAtMost(t, d / t + 1, i); }
  }

  // ---------------------------------------------------------------- the events of a row

  /** A stage reached in a row, at an offset into the row. */
  datatype Event = Event(at: int, stage: Stage)

  predicate Before(e: Event, f: Event) {
    e.at < f.at || (e.at == f.at && NameRank(e.stage) <= NameRank(f.stage))
  }

  /** Where `e` goes among the first `n` sorted events. */
  function EventPlace(events: seq<Event>, n: nat, e: Event): (p: nat)
    requires n <= |events|
    ensures p <= n
  {
    if n == 0 || Before(events[n - 1], e) then n else EventPlace(events, n - 1, e)
  }

  function AddEvent(events: seq<Event>, e: Event): seq<Event> {
    InsertAt(events, EventPlace(events, |events|, e), e)
  }

  /** Stage `s` shows up in row `i`. */
  predicate Shown(p: Page, x: Inst, i: int, s: Stage)
    requires p.Valid()
  {
    Tick(x, s) != 0 && InRow(p, x, i, Tick(x, s))
  }

  /** Where stage `s` shows up in row `i`. */
  function Offset(p: Page, x: Inst, i: int, s: Stage): Option<int>
    requires p.Valid()
  {
    if Shown(p, x, i, s) then Some(Tick(x, s) % p.RowTicks()) else None
  }

  /** The sorted events among the first `n` stages, given where each stage shows up. */
  function Gathered(stages: seq<Stage>, offset: Stage -> Option<int>, n: nat): seq<Event>
    requires n <= |stages|
  {
    if n == 0 then []
    else
      var s, rest := stages[n - 1], Gathered(stages, offset, n - 1);
      if offset(s).Some? then AddEvent(rest, Event(offset(s).value, s)) else rest
  }

  function Offsets(p: Page, x: Inst, i: int): Stage -> Option<int>
    requires p.Valid()
  {
    (s: Stage) => Offset(p, x, i, s)
  }

  /** The sorted events of row `i` among the first `n` stages. */
  function RowEvents(p: Page, x: Inst, i: int, n: nat): seq<Event>
    requires p.Valid() && n <= |p.Stages()|
  {
    Gathered(p.Stages(), Offsets(p, x, i), n)
  }

  ghost predicate InOrder(events: seq<Event>) {
    forall i, j | 0 <= i < j < |events| :: Before(events[i], events[j])
  }

  lemma {:induction false} EventPlaceSplits(events: seq<Event>, n: nat, e: Event)
    requires InOrder(events) && n <= |events|
    ensures forall i | 0 <= i < EventPlace(events, n, e) :: Before(events[i], e)
    ensures forall i | EventPlace(events, n, e) <= i < n :: Before(e, events[i])
  {
    if n > 0 && !Before(events[n - 1], e) {
      EventPlaceSplits(events, n - 1, e);
    }
  }

  lemma AddEventInOrder(events: seq<Event>, e: Event)
    requires InOrder(events)
    ensures InOrder(AddEvent(events, e))
  {
    EventPlaceSplits(events, |events|, e);
  }

  lemma AddEventMembers(events: seq<Event>, e: Event, f: Event)
    ensures f in AddEvent(events, e) <==> f == e || f in events
  {
    var p := EventPlace(events, |events|, e);
    assert events == events[..p] + events[p..];
  }

  ghost predicate WithinRow(p: Page, events: seq<Event>) {
    forall i | 0 <= i < |events| :: 0 <= events[i].at < p.RowTicks()
  }

  /** The events of a row come in order, lie within the row, and are exactly the shown stages. */
  lemma {:induction false} RowEventsInOrder(p: Page, x: Inst, i: int, n: nat)
    requires p.Valid() && n <= |p.Stages()|
    ensures InOrder(RowEvents(p, x, i, n)) && WithinRow(p, RowEvents(p, x, i, n))
  {
    if n > 0 {
      RowEventsInOrder(p, x, i, n - 1);
      var s, rest := p.Stages()[n - 1], RowEvents(p, x, i, n - 1);
      if Shown(p, x, i, s) {
        var added := Event(Tick(x, s) % p.RowTicks(), s);
        AddEventInOrder(rest, added);
        forall e | e in AddEvent(rest, added) ensures e == added || e in rest {
          AddEventMembers(rest, added, e);
        }
      }
    }
  }

  lemma {:induction false} RowEventsMembers(p: Page, x: Inst, i: int, n: nat, e: Event)
    requires p.Valid() && n <= |p.Stages()|
    ensures e in RowEvents(p, x, i, n) <==>
            e.stage in p.Stages()[..n] && Shown(p, x, i, e.stage) && e.at == Tick(x, e.stage) % p.RowTicks()
  {
    if n > 0 {
      RowEventsMembers(p, x, i, n - 1, e);
      var s, rest := p.Stages()[n - 1], RowEvents(p, x, i, n - 1);
      TakeMore(p.Stages(), n);
      if Shown(p, x, i, s) {
        AddEventMembers(rest, Event(Tick(x, s) % p.RowTicks(), s), e);
      }
    }
  }

  lemma RowEventsAre(p: Page, x: Inst, i: int, n: nat, e: Event)
    requires p.Valid() && n <= |p.Stages()|
    ensures InOrder(RowEvents(p, x, i, n)) && WithinRow(p, RowEvents(p, x, i, n))
    ensures e in RowEvents(p, x, i, n) <==>
            e.stage in p.Stages()[..n] && Shown(p, x, i, e.stage) && e.at == Tick(x, e.stage) % p.RowTicks()
  {
    RowEventsInOrder(p, x, i, n);
    RowEventsMembers(p, x, i, n, e);
  }

  // ---------------------------------------------------------------- drawing a row

  /** A dispatch in the same tick as the issue is not drawn. */
  predicate Hidden(x: Inst, e: Event) {
    e.stage == Dispatch && x.dispatch == x.issue
  }

  function Drawn(x: Inst, events: seq<Event>, n: nat): seq<Event>
    requires n <= |events|
  {
    if n == 0 then []
    else Drawn(x, events, n - 1) + (if Hidden(x, events[n - 1]) then [] else [events[n - 1]])
  }

  lemma {:induction false} DrawnAre(p: Page, x: Inst, events: seq<Event>, n: nat)
    requires n <= |events| && InOrder(events) && WithinRow(p, events)
    ensures InOrder(Drawn(x, events, n)) && WithinRow(p, Drawn(x, events, n))
    ensures n > 0 ==> forall i | 0 <= i < |Drawn(x, events, n)| :: Before(Drawn(x, events, n)[i], events[n - 1])
  {
    if n > 0 {
      DrawnAre(p, x, events, n - 1);
      if n > 1 {
        var before := Drawn(x, events, n - 1);
        assert Before(events[n - 2], events[n - 1]);
        forall i | 0 <= i < |before| ensures Before(before[i], events[n - 1]) {
          assert Before(before[i], events[n - 2]);
        }
      }
    }
  }

  function Column(p: Page, e: Event): int
    requires p.Valid()
  {
    e.at / p.cycle
  }

  lemma ColumnInRow(p: Page, e: Event)
    requires p.Valid() && 0 <= e.at < p.RowTicks()
    ensures 0 <= Column(p, e) < p.width
  {
    var q := e.at / p.cycle;
    assert e.at == p.cycle * q + e.at % p.cycle;
    if q >= p.width {
      MulAtMost(p.cycle, p.width, q);
    }
    if q < 0 {
      MulAtMost(p.cycle, q, -1);
    }
  }

  function Dots(dot: char, n: int): string {
    if n <= 0 then "" else seq(n, _ => dot)
  }

  function Columns(p: Page): Event -> int
    requires p.Valid()
  {
    (e: Event) => Column(p, e)
  }

  /** The position after the first `n` events, given the column of each. */
  function PositionBy(column: Event -> int, drawn: seq<Event>, n: nat): int
    requires n <= |drawn|
  {
    if n == 0 then 0 else column(drawn[n - 1]) + 1
  }

  function LineBy(column: Event -> int, dot: char, drawn: seq<Event>, n: nat): string
    requires n <= |drawn|
  {
    if n == 0 then ""
    else LineBy(column, dot, drawn, n - 1)
         + Dots(dot, column(drawn[n - 1]) - PositionBy(column, drawn, n - 1))
         + [Letter(drawn[n - 1].stage)]
  }

  /** The position after the first `n` drawn events. */
  function Position(p: Page, drawn: seq<Event>, n: nat): int
    requires p.Valid() && n <= |drawn|
  {
    PositionBy(Columns(p), drawn, n)
  }

  function Line(p: Page, dot: char, drawn: seq<Event>, n: nat): string
    requires p.Valid() && n <= |drawn|
  {
    LineBy(Columns(p), dot, drawn, n)
  }

  /** The cells of a row. */
  function Row(p: Page, dot: char, drawn: seq<Event>): string
    requires p.Valid()
  {
    Line(p, dot, drawn, |drawn|) + Dots(dot, p.width - Position(p, drawn, |drawn|))
  }

  /** How many of the first `n` events share the column of the event before. */
  function Collisions(p: Page, drawn: seq<Event>, n: nat): nat
    requires p.Valid() && n <= |drawn|
  {
    if n <= 1 then 0
    else Collisions(p, drawn, n - 1) + (if Column(p, drawn[n - 1]) == Column(p, drawn[n - 2]) then 1 else 0)
  }

  ghost predicate Drawable(p: Page, drawn: seq<Event>)
    requires p.Valid()
  {
    InOrder(drawn) && WithinRow(p, drawn)
  }

  lemma ColumnsInOrder(p: Page, drawn: seq<Event>, i: nat, j: nat)
    requires p.Valid() && Drawable(p, drawn) && i < j < |drawn|
    ensures Column(p, drawn[i]) <= Column(p, drawn[j])
  {
    var a, b := drawn[i].at, drawn[j].at;
    assert a == p.cycle * (a / p.cycle) + a % p.cycle && b == p.cycle * (b / p.cycle) + b % p.cycle;
    if a / p.cycle > b / p.cycle {
      MulAtMost(p.cycle, b / p.cycle + 1, a / p.cycle);
    }
  }

  lemma {:induction false} LineLength(p: Page, dot: char, drawn: seq<Event>, n: nat)
    requires p.Valid() && n <= |drawn| && Drawable(p, drawn)
    ensures |Line(p, dot, drawn, n)| == Position(p, drawn, n) + Collisions(p, drawn, n)
  {
    if n > 0 {
      LineLength(p, dot, drawn, n - 1);
      ColumnInRow(p, drawn[n - 1]);
      if n > 1 {
        ColumnsInOrder(p, drawn, n - 2, n - 1);
      }
    }
  }

  /** A row is one cell too long for each event drawn in a column already taken. */
  lemma RowLength(p: Page, dot: char, drawn: seq<Event>)
    requires p.Valid() && Drawable(p, drawn)
    ensures |Row(p, dot, drawn)| == p.width + Collisions(p, drawn, |drawn|)
  {
    LineLength(p, dot, drawn, |drawn|);
    if drawn != [] {
      ColumnInRow(p, drawn[|drawn| - 1]);
    }
  }

  ghost predicate DistinctColumns(p: Page, drawn: seq<Event>)
    requires p.Valid()
  {
    forall i, j | 0 <= i < j < |drawn| :: Column(p, drawn[i]) != Column(p, drawn[j])
  }

  lemma {:induction false} NoCollisionsIffStrict(p: Page, drawn: seq<Event>, n: nat)
    requires p.Valid() && n <= |drawn| && Drawable(p, drawn)
    ensures Collisions(p, drawn, n) == 0 <==>
            forall i, j | 0 <= i < j < n :: Column(p, drawn[i]) < Column(p, drawn[j])
  {
    if n > 1 {
      NoCollisionsIffStrict(p, drawn, n - 1);
      ColumnsInOrder(p, drawn, n - 2, n - 1);
      if Collisions(p, drawn, n) == 0 {
        forall i, j | 0 <= i < j < n ensures Column(p, drawn[i]) < Column(p, drawn[j]) {
          if j == n - 1 && i < n - 2 {
            assert Column(p, drawn[i]) < Column(p, drawn[n - 2]);
          }
        }
      }
    }
  }

  /** A row has exactly `width` cells if and only if no two drawn events share a column. */
  lemma FullWidthIffDistinctColumns(p: Page, dot: char, drawn: seq<Event>)
    requires p.Valid() && Drawable(p, drawn)
    ensures |Row(p, dot, drawn)| == p.width <==> DistinctColumns(p, drawn)
  {
    RowLength(p, dot, drawn);
    NoCollisionsIffStrict(p, drawn, |drawn|);
    forall i, j | 0 <= i < j < |drawn| ensures Column(p, drawn[i]) <= Column(p, drawn[j]) {
      ColumnsInOrder(p, drawn, i, j);
    }
  }

  /** Without shared columns each event is at its column, and every other cell is a dot. */
  ghost predicate Depicts(p: Page, dot: char, drawn: seq<Event>, n: nat, line: string)
    requires p.Valid() && n <= |drawn|
  {
    && (forall i | 0 <= i < n :: 0 <= Column(p, drawn[i]) < |line| && line[Column(p, drawn[i])] == Letter(drawn[i].stage))
    && (forall c | 0 <= c < |line| && line[c] != dot :: exists i :: 0 <= i < n && Column(p, drawn[i]) == c)
  }

  lemma {:induction false} LineDepicts(p: Page, dot: char, drawn: seq<Event>, n: nat)
    requires p.Valid() && n <= |drawn| && Drawable(p, drawn)
    requires forall i, j | 0 <= i < j < |drawn| :: Column(p, drawn[i]) < Column(p, drawn[j])
    ensures |Line(p, dot, drawn, n)| == Position(p, drawn, n)
    ensures Depicts(p, dot, drawn, n, Line(p, dot, drawn, n))
  {
    if n > 0 {
      LineDepicts(p, dot, drawn, n - 1);
      var c, before := Column(p, drawn[n - 1]), Line(p, dot, drawn, n - 1);
      ColumnInRow(p, drawn[n - 1]);
      var line := Line(p, dot, drawn, n);
      assert Position(p, drawn, n - 1) <= c;
      assert |line| == c + 1 && line[c] == Letter(drawn[n - 1].stage);
      forall j | 0 <= j < |line| && line[j] != dot ensures exists i :: 0 <= i < n && Column(p, drawn[i]) == j {
        if j < |before| {
          assert line[j] == before[j];
          var i :| 0 <= i < n - 1 && Column(p, drawn[i]) == j;
        } else {
          assert j == c;
        }
      }
    }
  }

  lemma RowDepicts(p: Page, dot: char, drawn: seq<Event>)
    requires p.Valid() && Drawable(p, drawn) && DistinctColumns(p, drawn)
    ensures |Row(p, dot, drawn)| == p.width && Depicts(p, dot, drawn, |drawn|, Row(p, dot, drawn))
  {
    FullWidthIffDistinctColumns(p, dot, drawn);
    forall i, j | 0 <= i < j < |drawn| ensures Column(p, drawn[i]) < Column(p, drawn[j]) {
      ColumnsInOrder(p, drawn, i, j);
    }
    LineDepicts(p, dot, drawn, |drawn|);
    var line, row := Line(p, dot, drawn, |drawn|), Row(p, dot, drawn);
    forall c | 0 <= c < |row| && row[c] != dot ensures exists i :: 0 <= i < |drawn| && Column(p, drawn[i]) == c {
      assert c < |line| && line[c] == row[c];
    }
  }

  lemma {:induction false} DrawnMembers(x: Inst, events: seq<Event>, n: nat, e: Event)
    requires n <= |events|
    ensures e in Drawn(x, events, n) <==> e in events[..n] && !Hidden(x, e)
  {
    if n > 0 {
      DrawnMembers(x, events, n - 1, e);
      TakeMore(events, n);
    }
  }

  /** What row `i` draws. */
  function RowDrawn(p: Page, x: Inst, i: int): seq<Event>
    requires p.Valid()
  {
    var events := RowEvents(p, x, i, |p.Stages()|);
    Drawn(x, events, |events|)
  }

  lemma RowDrawnDrawable(p: Page, x: Inst, i: int)
    requires p.Valid()
    ensures Drawable(p, RowDrawn(p, x, i))
  {
    var events := RowEvents(p, x, i, |p.Stages()|);
    RowEventsAre(p, x, i, |p.Stages()|, Event(0, Fetch));
    DrawnAre(p, x, events, |events|);
  }

  function Dot(x: Inst): char {
    if x.retire == 0 then '=' else '.'
  }

  /** Every stage reached by a well-timed instruction, unless merged into the issue, has its letter
      in exactly one row, in the column of its cycle, whenever that row has no shared column. */
  lemma StageIsDrawnOnce(p: Page, x: Inst, s: Stage) returns (row: int)
    requires p.Valid() && WellTimed(p, x) && s in p.Stages() && Tick(x, s) != 0
    requires !(s == Dispatch && x.dispatch == x.issue)
    ensures 0 <= row < NumRows(p, x)
    ensures var e := Event(Tick(x, s) % p.RowTicks(), s);
            && e in RowDrawn(p, x, row)
            && (forall i, f | 0 <= i < NumRows(p, x) && f in RowDrawn(p, x, i) && f.stage == s :: i == row && f == e)
            && (DistinctColumns(p, RowDrawn(p, x, row)) ==>
                  && 0 <= Column(p, e) < p.width == |Row(p, Dot(x), RowDrawn(p, x, row))|
                  && Row(p, Dot(x), RowDrawn(p, x, row))[Column(p, e)] == Letter(s))
  {
    row := ReachedStageInOneRow(p, x, s);
    var e := Event(Tick(x, s) % p.RowTicks(), s);
    DrawnInRow(p, x, row, e);
    forall i, f | 0 <= i < NumRows(p, x) && f in RowDrawn(p, x, i) && f.stage == s ensures i == row && f == e {
      DrawnInRow(p, x, i, f);
    }
    if DistinctColumns(p, RowDrawn(p, x, row)) {
      RowDrawnDrawable(p, x, row);
      RowDepicts(p, Dot(x), RowDrawn(p, x, row));
    }
  }

  /** An instruction that is dispatched and issued at the same tick shows the issue only. */
  lemma IssueHidesDispatch(p: Page, x: Inst, i: int, e: Event)
    requires p.Valid() && x.dispatch == x.issue && e in RowDrawn(p, x, i)
    ensures e.stage != Dispatch
  {
    var events := RowEvents(p, x, i, |p.Stages()|);
    DrawnMembers(x, events, |events|, e);
  }

  lemma DrawnInRow(p: Page, x: Inst, i: int, e: Event)
    requires p.Valid()
    ensures e in RowDrawn(p, x, i) <==>
            && e.stage in p.Stages() && Shown(p, x, i, e.stage)
            && e.at == Tick(x, e.stage) % p.RowTicks() && !Hidden(x, e)
  {
    var n := |p.Stages()|;
    var events := RowEvents(p, x, i, n);
    RowEventsAre(p, x, i, n, e);
    DrawnMembers(x, events, |events|, e);
    assert events[..|events|] == events && p.Stages()[..n] == p.Stages();
  }

  /** Drawing one event behind those drawn so far. */
  method DrawEvent(column: Event -> int, dot: char, cells: string, pos: int, e: Event, ghost drawn: seq<Event>)
      returns (cells': string, pos': int)
    requires cells == LineBy(column, dot, drawn, |drawn|) && pos == PositionBy(column, drawn, |drawn|)
    ensures cells' == LineBy(column, dot, drawn + [e], |drawn| + 1) && pos' == PositionBy(column, drawn + [e], |drawn| + 1)
  {
    LineExtends(column, dot, drawn, e);
    cells' := cells + Dots(dot, column(e) - pos) + [Letter(e.stage)];
    pos' := column(e) + 1;
  }

  /** Drawing one row, cell by cell. */
  method Draw(column: Event -> int, width: int, x: Inst, events: seq<Event>) returns (cells: string)
    ensures var drawn := Drawn(x, events, |events|);
            cells == LineBy(column, Dot(x), drawn, |drawn|) + Dots(Dot(x), width - PositionBy(column, drawn, |drawn|))
  {
    var pos := 0;
    cells := "";
    ghost var drawn: seq<Event> := [];
    for n := 0 to |events|
      invariant drawn == Drawn(x, events, n)
      invariant cells == LineBy(column, Dot(x), drawn, |drawn|) && pos == PositionBy(column, drawn, |drawn|)
    {
      DrawnExtends(x, events, n);
      if !Hidden(x, events[n]) {
        cells, pos := DrawEvent(column, Dot(x), cells, pos, events[n], drawn);
        drawn := drawn + [events[n]];
      }
    }
    cells := cells + Dots(Dot(x), width - pos);
  }

  lemma DrawnExtends(x: Inst, events: seq<Event>, n: nat)
    requires n < |events|
    ensures Drawn(x, events, n + 1) == Drawn(x, events, n) + (if Hidden(x, events[n]) then [] else [events[n]])
  {
  }

  lemma LineExtends(column: Event -> int, dot: char, drawn: seq<Event>, e: Event)
    ensures LineBy(column, dot, drawn + [e], |drawn| + 1) ==
            LineBy(column, dot, drawn, |drawn|) + Dots(dot, column(e) - PositionBy(column, drawn, |drawn|)) + [Letter(e.stage)]
    ensures PositionBy(column, drawn + [e], |drawn| + 1) == column(e) + 1
  {
    LinePrefix(column, dot, drawn, drawn + [e], |drawn|);
  }

  lemma {:induction false} LinePrefix(column: Event -> int, dot: char, a: seq<Event>, b: seq<Event>, n: nat)
    requires n <= |a| && n <= |b| && forall i | 0 <= i < n :: a[i] == b[i]
    ensures LineBy(column, dot, a, n) == LineBy(column, dot, b, n) && PositionBy(column, a, n) == PositionBy(column, b, n)
  {
    if n > 0 {
      LinePrefix(column, dot, a, b, n - 1);
    }
  }

  /** Collecting what one row shows. */
  method Gather(stages: seq<Stage>, offset: Stage -> Option<int>) returns (events: seq<Event>)
    ensures events == Gathered(stages, offset, |stages|)
  {
    events := [];
    for k := 0 to |stages|
      invariant events == Gathered(stages, offset, k)
    {
      var at := offset(stages[k]);
      if at.Some? {
        events := AddEvent(events, Event(at.value, stages[k]));
      }
    }
  }

  method PrintRow(p: Page, x: Inst, i: nat) returns (empty: bool, cells: string)
    requires p.Valid()
    ensures empty <==> RowEvents(p, x, i, |p.Stages()|) == []
    ensures cells == Row(p, Dot(x), RowDrawn(p, x, i))
  {
    var events := Gather(p.Stages(), Offsets(p, x, i));
    empty := events == [];
    cells := Draw(Columns(p), p.width, x, events);
  }

  /** Printing `n` rows. Looking at the first event of an empty row fails when it is the only row. */
  method PrintRows(p: Page, x: Inst, n: nat) returns (rows: Option<seq<string>>)
    requires p.Valid()
    ensures rows.None? <==> n == 1 && RowEvents(p, x, 0, |p.Stages()|) == []
    ensures rows.Some? ==> |rows.value| == n
    ensures rows.Some? ==> forall i | 0 <= i < n :: rows.value[i] == Row(p, Dot(x), RowDrawn(p, x, i))
  {
    var text: seq<string> := [];
    for i := 0 to n
      invariant |text| == i
      invariant forall j | 0 <= j < i :: text[j] == Row(p, Dot(x), RowDrawn(p, x, j))
      invariant n == 1 && i > 0 ==> RowEvents(p, x, 0, |p.Stages()|) != []
    {
      var empty, cells := PrintRow(p, x, i);
      if n == 1 && empty {
        return None;
      }
      text := text + [cells];
    }
    return Some(text);
  }

  /** Printing one instruction. It fails for a single row without events; an instruction with a
      fetch tick and no earlier stage never gets there. */
  method PrintInst(p: Page, x: Inst) returns (rows: Option<seq<string>>)
    requires p.Valid()
    ensures rows.None? <==> NumRows(p, x) == 1 && RowEvents(p, x, 0, |p.Stages()|) == []
    ensures rows.Some? ==> |rows.value| == NumRows(p, x)
    ensures rows.Some? ==> forall i | 0 <= i < |rows.value| :: rows.value[i] == Row(p, Dot(x), RowDrawn(p, x, i))
    ensures WellTimed(p, x) ==> rows.Some?
  {
    OneRowIffCompact(p, x);
    FetchIsShown(p, x);
    rows := PrintRows(p, x, NumRows(p, x));
  }

  lemma FetchIsShown(p: Page, x: Inst)
    requires p.Valid()
    ensures WellTimed(p, x) ==> exists i :: 0 <= i < NumRows(p, x) && RowEvents(p, x, i, |p.Stages()|) != []
    ensures WellTimed(p, x) && NumRows(p, x) == 1 ==> RowEvents(p, x, 0, |p.Stages()|) != []
  {
    if WellTimed(p, x) {
      assert p.Stages()[0] == Fetch;
      var row := ReachedStageInOneRow(p, x, Fetch);
      var e := Event(x.fetch % p.RowTicks(), Fetch);
      RowEventsAre(p, x, row, |p.Stages()|, e);
      assert p.Stages()[..|p.Stages()|] == p.Stages();
      assert e in RowEvents(p, x, row, |p.Stages()|);
    }
  }

  // ---------------------------------------------------------------- an example

  /** Fetched at tick 21, then a stage per tick, completed at 26 and retired at 28, or squashed before it retires. */
  function Example(retires: bool): Inst {
    Inst(7, 21, 22, 23, 24, 25, 26, if retires then 28 else 0, 0, "")
  }

  const EXAMPLE_PAGE := Page(10, 1, false)

  function ExampleEvents(retires: bool): seq<Event> {
    [Event(1, Fetch), Event(2, Decode), Event(3, Rename), Event(4, Dispatch), Event(5, Issue), Event(6, Complete)]
    + if retires then [Event(8, Retire)] else []
  }

  lemma AddLater(events: seq<Event>, e: Event)
    requires events != [] ==> events[|events| - 1].at < e.at
    ensures AddEvent(events, e) == events + [e]
  {
    assert events[|events|..] == [];
  }

  lemma ExampleFits(retires: bool)
    ensures NumRows(EXAMPLE_PAGE, Example(retires)) == 1 && Base(EXAMPLE_PAGE, Example(retires)) == 20
  {
    var x := Example(retires);
    assert LastTick(x, PIPELINE, 3) == 23 && LastTick(x, PIPELINE, 5) == 25;
    assert Last(EXAMPLE_PAGE, x) == LastTick(x, PIPELINE, 7);
  }

  lemma ExampleOffset(retires: bool, n: nat)
    requires n < 7
    ensures Offset(EXAMPLE_PAGE, Example(retires), 0, PIPELINE[n]) ==
            if n < 6 then Some(n + 1) else if retires then Some(8) else None
  {
    ExampleFits(retires);
  }

  lemma GatherNext(stages: seq<Stage>, offset: Stage -> Option<int>, n: nat, events: seq<Event>, at: int)
    requires n < |stages| && Gathered(stages, offset, n) == events && offset(stages[n]) == Some(at)
    requires events != [] ==> events[|events| - 1].at < at
    ensures Gathered(stages, offset, n + 1) == events + [Event(at, stages[n])]
  {
    AddLater(events, Event(at, stages[n]));
  }

  lemma ExampleEvent(retires: bool, n: nat)
    requires n < 6
    ensures ExampleEvents(retires)[..n + 1] == ExampleEvents(retires)[..n] + [Event(n + 1, PIPELINE[n])]
  {
  }

  lemma ExampleNextEvent(retires: bool, n: nat)
    requires n < 6 && RowEvents(EXAMPLE_PAGE, Example(retires), 0, n) == ExampleEvents(retires)[..n]
    ensures RowEvents(EXAMPLE_PAGE, Example(retires), 0, n + 1) == ExampleEvents(retires)[..n + 1]
  {
    ExampleOffset(retires, n);
    ExampleEvent(retires, n);
    if n > 0 {
      ExampleEvent(retires, n - 1);
    }
    GatherNext(PIPELINE, Offsets(EXAMPLE_PAGE, Example(retires), 0), n, ExampleEvents(retires)[..n], n + 1);
  }

  lemma ExampleGathers(retires: bool)
    ensures RowEvents(EXAMPLE_PAGE, Example(retires), 0, 7) == ExampleEvents(retires)
  {
    var events := ExampleEvents(retires);
    for n := 0 to 6
      invariant RowEvents(EXAMPLE_PAGE, Example(retires), 0, n) == events[..n]
    {
      ExampleNextEvent(retires, n);
    }
    ExampleOffset(retires, 6);
    AddLater(events[..6], Event(8, Retire));
  }

  lemma ExampleDraws(retires: bool)
    ensures RowDrawn(EXAMPLE_PAGE, Example(retires), 0) == ExampleEvents(retires)
  {
    ExampleGathers(retires);
    var x, events := Example(retires), ExampleEvents(retires);
    for n := 0 to |events|
      invariant Drawn(x, events, n) == events[..n]
    {
      assert events[..n + 1] == events[..n] + [events[n]];
    }
    assert events[..|events|] == events;
  }

  lemma NextCell(dot: char, events: seq<Event>, n: nat, text: string)
    requires n < |events| && Line(EXAMPLE_PAGE, dot, events, n) == text && |text| <= events[n].at
    requires Position(EXAMPLE_PAGE, events, n) == |text|
    ensures Line(EXAMPLE_PAGE, dot, events, n + 1) ==
            text + seq(events[n].at - |text|, _ => dot) + [Letter(events[n].stage)]
    ensures Position(EXAMPLE_PAGE, events, n + 1) == events[n].at + 1
  {
    assert Column(EXAMPLE_PAGE, events[n]) == events[n].at;
  }

  lemma ExampleNextCell(retires: bool, dot: char, n: nat)
    requires 1 <= n < 6
    requires Line(EXAMPLE_PAGE, dot, ExampleEvents(retires), n) == ([dot] + "fdnpic")[..n + 1]
    requires Position(EXAMPLE_PAGE, ExampleEvents(retires), n) == n + 1
    ensures Line(EXAMPLE_PAGE, dot, ExampleEvents(retires), n + 1) == ([dot] + "fdnpic")[..n + 2]
    ensures Position(EXAMPLE_PAGE, ExampleEvents(retires), n + 1) == n + 2
  {
    var events, text := ExampleEvents(retires), [dot] + "fdnpic";
    NextCell(dot, events, n, text[..n + 1]);
    assert Letter(events[n].stage) == text[n + 1];
    assert text[..n + 2] == text[..n + 1] + [text[n + 1]];
  }

  lemma ExampleLine(retires: bool, dot: char)
    ensures Line(EXAMPLE_PAGE, dot, ExampleEvents(retires), 6) == [dot] + "fdnpic"
    ensures Position(EXAMPLE_PAGE, ExampleEvents(retires), 6) == 7
  {
    var events, text := ExampleEvents(retires), [dot] + "fdnpic";
    NextCell(dot, events, 0, "");
    assert seq(1, _ => dot) == [dot] && text[..2] == [dot] + ['f'];
    for n := 1 to 6
      invariant Line(EXAMPLE_PAGE, dot, events, n) == text[..n + 1] && Position(EXAMPLE_PAGE, events, n) == n + 1
    {
      ExampleNextCell(retires, dot, n);
    }
    assert text[..7] == text;
  }

  lemma ExampleCells(retires: bool, dot: char)
    ensures Row(EXAMPLE_PAGE, dot, ExampleEvents(retires)) ==
            [dot] + "fdnpic" + if retires then [dot, 'r', dot] else [dot, dot, dot]
  {
    ExampleLine(retires, dot);
    if retires {
      NextCell(dot, ExampleEvents(true), 6, [dot] + "fdnpic");
    }
  }

  /** What the viewer draws for the example: every stage has its own letter, in the cell of its tick. */
  lemma ExampleRow(retires: bool)
    ensures var x := Example(retires);
            && NumRows(EXAMPLE_PAGE, x) == 1
            && Row(EXAMPLE_PAGE, Dot(x), RowDrawn(EXAMPLE_PAGE, x, 0)) == if retires then ".fdnpic.r." else "=fdnpic==="
  {
    ExampleFits(retires);
    ExampleDraws(retires);
    ExampleCells(retires, Dot(Example(retires)));
  }
}
