/** Copyright years: a set of years printed as a list of ranges, and such a list read back. */
module Dates {
  import opened Wrappers
  import opened Text

  /** An interval of years, both ends included. */
  datatype Span = Span(first: int, last: int) {
    predicate Has(y: int) {
      first <= y <= last
    }
  }

  // ---------------------------------------------------------------- printing

  /** The maximal runs of a sorted list, given the run that is still growing. */
  function SpansFrom(first: int, second: int, rest: seq<int>): (spans: seq<Span>)
    ensures |spans| >= 1 && spans[0].first == first
    decreases rest
  {
    if rest == [] then [Span(first, second)]
    else if rest[0] == second + 1 then SpansFrom(first, rest[0], rest[1..])
    else [Span(first, second)] + SpansFrom(rest[0], rest[0], rest[1..])
  }

  function SpanText(s: Span): string {
    if s.first == s.last then Number(s.first) else Number(s.first) + "-" + Number(s.last)
  }

  function SpanTexts(spans: seq<Span>): (texts: seq<string>)
    ensures |texts| == |spans|
    ensures forall i :: 0 <= i < |spans| ==> texts[i] == SpanText(spans[i])
  {
    seq(|spans|, i requires 0 <= i < |spans| => SpanText(spans[i]))
  }

  function Spans(years: seq<int>): (spans: seq<Span>)
    requires years != []
    ensures |spans| >= 1
  {
    SpansFrom(years[0], years[0], years[1..])
  }

  /** The text for a sorted list of years. */
  function DateText(years: seq<int>): string
    requires years != []
  {
    Join(SpanTexts(Spans(years)), ',')
  }

  predicate Increasing(years: seq<int>) {
    forall i, j :: 0 <= i < j < |years| ==> years[i] < years[j]
  }

  /** The spans are nonempty and in order, with a gap between any two. */
  predicate Canonical(spans: seq<Span>) {
    && (forall i :: 0 <= i < |spans| ==> spans[i].first <= spans[i].last)
    && (forall i, j :: 0 <= i < j < |spans| ==> spans[i].last + 1 < spans[j].first)
  }

  predicate Covers(spans: seq<Span>, y: int) {
    exists i :: 0 <= i < |spans| && spans[i].Has(y)
  }

  lemma CoversFirst(s: Span, more: seq<Span>, y: int)
    ensures Covers([s] + more, y) <==> s.Has(y) || Covers(more, y)
  {
    var all := [s] + more;
    if s.Has(y) {
      assert all[0].Has(y);
    }
    if Covers(more, y) {
      var i :| 0 <= i < |more| && more[i].Has(y);
      assert all[i + 1].Has(y);
    }
    if Covers(all, y) {
      var i :| 0 <= i < |all| && all[i].Has(y);
      assert i > 0 ==> more[i - 1].Has(y);
    }
  }

  lemma CanonicalFirst(s: Span, more: seq<Span>)
    requires s.first <= s.last && Canonical(more)
    requires forall i :: 0 <= i < |more| ==> s.last + 1 < more[i].first
    ensures Canonical([s] + more)
  {
  }

  lemma {:induction false} SpansFromCanonical(first: int, second: int, rest: seq<int>)
    requires first <= second && Increasing(rest) && (rest != [] ==> second < rest[0])
    ensures var spans := SpansFrom(first, second, rest);
            && Canonical(spans)
            && forall i :: 0 <= i < |spans| ==> first <= spans[i].first
    decreases rest
  {
    if rest != [] {
      if rest[0] == second + 1 {
        SpansFromCanonical(first, rest[0], rest[1..]);
      } else {
        SpansFromCanonical(rest[0], rest[0], rest[1..]);
        CanonicalFirst(Span(first, second), SpansFrom(rest[0], rest[0], rest[1..]));
      }
    }
  }

  lemma {:induction false} SpansFromCover(first: int, second: int, rest: seq<int>, y: int)
    requires first <= second
    ensures Covers(SpansFrom(first, second, rest), y) <==> first <= y <= second || y in rest
    decreases rest
  {
    if rest == [] {
      CoversFirst(Span(first, second), [], y);
      assert [Span(first, second)] + [] == [Span(first, second)];
    } else {
      assert y in rest <==> y == rest[0] || y in rest[1..];
      if rest[0] == second + 1 {
        SpansFromCover(first, rest[0], rest[1..], y);
      } else {
        SpansFromCover(rest[0], rest[0], rest[1..], y);
        CoversFirst(Span(first, second), SpansFrom(rest[0], rest[0], rest[1..]), y);
      }
    }
  }

  /** The spans of a sorted list are in order, apart from each other, and cover exactly the list. */
  lemma SpansAreCanonical(years: seq<int>)
    requires years != [] && Increasing(years)
    ensures Canonical(Spans(years))
    ensures forall y :: Covers(Spans(years), y) <==> y in years
  {
    SpansFromCanonical(years[0], years[0], years[1..]);
    forall y ensures Covers(Spans(years), y) <==> y in years {
      SpansFromCover(years[0], years[0], years[1..], y);
    }
  }

  function Firsts(spans: seq<Span>): (f: set<int>)
    ensures forall i :: 0 <= i < |spans| ==> spans[i].first in f
    ensures forall y :: y in f ==> exists i :: 0 <= i < |spans| && spans[i].first == y
  {
    set i | 0 <= i < |spans| :: spans[i].first
  }

  lemma FirstsSplit(spans: seq<Span>, n: nat)
    requires |spans| == n + 1
    ensures Firsts(spans) == Firsts(spans[..n]) + {spans[n].first}
  {
  }

  lemma FirstIsNew(spans: seq<Span>, n: nat)
    requires |spans| == n + 1 && Canonical(spans)
    ensures Canonical(spans[..n]) && spans[n].first !in Firsts(spans[..n])
  {
    forall i | 0 <= i < n ensures spans[..n][i].first < spans[n].first {
      assert spans[i].last + 1 < spans[n].first;
    }
  }

  lemma {:induction false} FirstsAtMost(spans: seq<Span>)
    ensures |Firsts(spans)| <= |spans|
  {
    if spans != [] {
      FirstsAtMost(spans[..|spans| - 1]);
      FirstsSplit(spans, |spans| - 1);
    }
  }

  lemma {:induction false} FirstsDistinct(spans: seq<Span>)
    requires Canonical(spans)
    ensures |Firsts(spans)| == |spans|
  {
    if spans != [] {
      var n := |spans| - 1;
      FirstIsNew(spans, n);
      FirstsDistinct(spans[..n]);
      FirstsSplit(spans, n);
    }
  }

  /** No list of spans that covers the same years is shorter. */
  lemma FewestSpans(years: seq<int>, others: seq<Span>)
    requires years != [] && Increasing(years)
    requires forall y :: Covers(others, y) <==> y in years
    ensures |Spans(years)| <= |others|
  {
    var spans := Spans(years);
    SpansAreCanonical(years);
    forall y | y in Firsts(spans) ensures y in Firsts(others) {
      var i :| 0 <= i < |spans| && spans[i].first == y;
      StartsSomewhere(spans, others, i);
    }
    FirstsDistinct(spans);
    FirstsAtMost(others);
    Smaller(Firsts(spans), Firsts(others));
  }

  lemma StartsSomewhere(spans: seq<Span>, others: seq<Span>, i: nat)
    requires Canonical(spans) && i < |spans|
    requires forall y :: Covers(others, y) <==> Covers(spans, y)
    ensures spans[i].first in Firsts(others)
  {
    var y := spans[i].first;
    assert spans[i].Has(y);
    assert Covers(others, y);
    assert !Covers(spans, y - 1);
    var k :| 0 <= k < |others| && others[k].Has(y);
    assert !others[k].Has(y - 1);
  }

  lemma Smaller(a: set<int>, b: set<int>)
    requires a <= b
    ensures |a| <= |b|
  {
    assert b == a + (b - a);
  }

  // ---------------------------------------------------------------- parsing

  /** Four digits, a dash, four digits, white space allowed around the dash; anything may follow. */
  function DateRange(s: string): Option<Span> {
    if |s| >= 4 && AllDigits(s[..4]) then
      var dash := StripLeft(s[4..]);
      if dash != [] && dash[0] == '-' then
        var end := StripLeft(dash[1..]);
        if |end| >= 4 && AllDigits(end[..4]) then
          Some(Span(DigitsValue(s[..4]), DigitsValue(end[..4])))
        else None
      else None
    else None
  }

  /** The years one item of the list stands for; an item that is neither a range nor a number has none. */
  function YearsOf(item: string): Option<Span> {
    match DateRange(item)
    case Some(s) => Some(s)
    case None =>
      match ParseInt(item)
      case Some(n) => Some(Span(n, n))
      case None => None
  }

  predicate ItemHas(item: string, y: int) {
    YearsOf(item).Some? && YearsOf(item).value.Has(y)
  }

  /** The years a list of dates mentions. */
  predicate Mentions(dates: string, y: int) {
    exists i :: 0 <= i < |Split(dates, ',')| && ItemHas(Strip(Split(dates, ',')[i]), y)
  }

  lemma {:induction false} DecimalLength(n: nat, k: nat)
    requires k >= 1
    ensures |Decimal(n)| <= k <==> n < Pow10(k)
  {
    if n >= 10 && k > 1 {
      DecimalLength(n / 10, k - 1);
    }
  }

  function Pow10(k: nat): (p: nat)
    ensures p >= 1
  {
    if k == 0 then 1 else 10 * Pow10(k - 1)
  }

  lemma FourDigits(n: nat)
    ensures |Decimal(n)| >= 4 <==> n >= 1000
    ensures |Decimal(n)| <= 4 <==> n <= 9999
  {
    DecimalLength(n, 3);
    DecimalLength(n, 4);
    assert Pow10(3) == 1000 && Pow10(4) == 10000 by { assert Pow10(2) == 100; }
  }

  lemma {:induction false} DigitsValueBound(s: string)
    requires AllDigits(s)
    ensures DigitsValue(s) < Pow10(|s|)
  {
    if s != [] {
      DigitsValueBound(s[..|s| - 1]);
    }
  }

  /** A printed year is no range. */
  lemma NumberIsNoRange(n: int)
    ensures DateRange(Number(n)) == None
  {
    var s := Number(n);
    if n >= 0 && |s| >= 4 {
      assert s[4..] != [] ==> IsDigit(s[4..][0]);
    }
  }

  lemma ParseSingle(n: int)
    ensures YearsOf(Number(n)) == Some(Span(n, n))
  {
    NumberIsNoRange(n);
    ParseNumber(n);
  }

  lemma RangeAt(a: string, b: string)
    requires |a| == 4 && |b| >= 4 && AllDigits(a) && AllDigits(b)
    ensures DateRange(a + "-" + b) == Some(Span(DigitsValue(a), DigitsValue(b[..4])))
  {
    var s := a + "-" + b;
    assert s[..4] == a;
    assert s[4..] == "-" + b && s[4..][1..] == b;
    assert IsDigit(b[0]);
  }

  lemma ParseFourDigitRange(f: int, l: int)
    requires 1000 <= f <= 9999 && f < l
    ensures var s := Number(f) + "-" + Number(l);
            YearsOf(s).Some? && YearsOf(s).value.first == f
            && (if l <= 9999 then YearsOf(s).value.last == l else YearsOf(s).value.last < l)
  {
    FourDigits(f);
    FourDigits(l);
    DecimalValue(f);
    RangeAt(Decimal(f), Decimal(l));
    var end := Decimal(l)[..4];
    if l <= 9999 {
      assert end == Decimal(l);
      DecimalValue(l);
    } else {
      DigitsValueBound(end);
      assert Pow10(4) == 10000 by { assert Pow10(2) == 100; }
    }
  }

  lemma NoOtherRange(f: int, l: int)
    requires f < 1000 || f > 9999
    ensures DateRange(Number(f) + "-" + Number(l)) == None
  {
    var s := Number(f) + "-" + Number(l);
    var k := |Number(f)|;
    if f < 0 {
      assert |s| >= 4 ==> s[..4][0] == '-';
    } else if f < 1000 {
      FourDigits(f);
      assert |s| >= 4 ==> s[..4][k] == '-';
    } else {
      FourDigits(f);
      assert s[4..][0] == Number(f)[4];
    }
  }

  lemma RangeIsNoNumber(f: int, l: int)
    ensures ParseInt(Number(f) + "-" + Number(l)) == None
  {
    var s := Number(f) + "-" + Number(l);
    NumberTight(f);
    NumberTight(l);
    assert s[0] == Number(f)[0] && s[|s| - 1] == Number(l)[|Number(l)| - 1];
    StripTight(s);
    var k := |Number(f)|;
    assert s[k] == '-';
    if s[0] == '-' {
      assert s[1..][k - 1] == '-';
    }
  }

  /** Spans of more than one year are read back only when both ends have four digits. */
  predicate Readable(s: Span) {
    s.first == s.last || (1000 <= s.first && s.last <= 9999)
  }

  lemma ParseSpan(s: Span)
    requires s.first <= s.last
    ensures Readable(s) ==> YearsOf(SpanText(s)) == Some(s)
    ensures !Readable(s) ==> forall y :: ItemHas(SpanText(s), y) ==> s.first <= y < s.last
  {
    if s.first == s.last {
      ParseSingle(s.first);
    } else if 1000 <= s.first <= 9999 {
      ParseFourDigitRange(s.first, s.last);
    } else {
      NoOtherRange(s.first, s.last);
      RangeIsNoNumber(s.first, s.last);
    }
  }

  lemma NumberPlain(n: int)
    ensures Without(Number(n), ',') && SpaceFree(Number(n))
  {
  }

  lemma SpanTextPlain(s: Span)
    ensures Without(SpanText(s), ',') && Strip(SpanText(s)) == SpanText(s)
  {
    NumberPlain(s.first);
    NumberPlain(s.last);
    assert SpaceFree(SpanText(s));
    StripTight(SpanText(s));
  }

  lemma MentionsSpans(spans: seq<Span>, y: int)
    requires |spans| >= 1
    ensures Mentions(Join(SpanTexts(spans), ','), y)
            <==> exists i :: 0 <= i < |spans| && ItemHas(SpanText(spans[i]), y)
  {
    var texts := SpanTexts(spans);
    forall i | 0 <= i < |spans| ensures Without(texts[i], ',') && Strip(texts[i]) == texts[i] {
      SpanTextPlain(spans[i]);
    }
    SplitJoin(texts, ',');
    var items := Split(Join(texts, ','), ',');
    assert items == texts;
    if i :| 0 <= i < |spans| && ItemHas(SpanText(spans[i]), y) {
      assert ItemHas(Strip(items[i]), y);
    }
    if Mentions(Join(texts, ','), y) {
      var i :| 0 <= i < |items| && ItemHas(Strip(items[i]), y);
      assert ItemHas(SpanText(spans[i]), y);
    }
  }

  predicate AllReadable(spans: seq<Span>) {
    forall i :: 0 <= i < |spans| ==> Readable(spans[i])
  }

  predicate SameYears(dates: string, spans: seq<Span>, y: int) {
    Mentions(dates, y) <==> Covers(spans, y)
  }

  lemma ReadableSpansSurvive(spans: seq<Span>, y: int)
    requires |spans| >= 1 && Canonical(spans) && AllReadable(spans)
    ensures SameYears(Join(SpanTexts(spans), ','), spans, y)
  {
    MentionsSpans(spans, y);
    forall i | 0 <= i < |spans| ensures ItemHas(SpanText(spans[i]), y) <==> spans[i].Has(y) {
      ParseSpan(spans[i]);
    }
  }

  /** The last year of a span that is not read back is lost. */
  lemma UnreadableSpanIsLost(spans: seq<Span>, k: nat)
    requires Canonical(spans) && k < |spans| && !Readable(spans[k])
    ensures !SameYears(Join(SpanTexts(spans), ','), spans, spans[k].last)
  {
    var y := spans[k].last;
    assert spans[k].Has(y);
    MentionsSpans(spans, y);
    forall i | 0 <= i < |spans| ensures !ItemHas(SpanText(spans[i]), y) {
      ParseSpan(spans[i]);
      assert i != k ==> !spans[i].Has(y);
    }
  }

  /** Neighbouring years all have four digits. */
  predicate NeighboursHaveFourDigits(years: seq<int>) {
    forall y :: y in years && y + 1 in years ==> 1000 <= y && y + 1 <= 9999
  }

  lemma ReadableIffNeighbours(years: seq<int>)
    requires years != [] && Increasing(years)
    ensures AllReadable(Spans(years)) <==> NeighboursHaveFourDigits(years)
  {
    var spans := Spans(years);
    SpansAreCanonical(years);
    if AllReadable(spans) {
      forall y | y in years && y + 1 in years ensures 1000 <= y && y + 1 <= 9999 {
        assert Covers(spans, y) && Covers(spans, y + 1);
        var i :| 0 <= i < |spans| && spans[i].Has(y);
        var j :| 0 <= j < |spans| && spans[j].Has(y + 1);
        assert i == j;
      }
    }
    if NeighboursHaveFourDigits(years) {
      forall i | 0 <= i < |spans| ensures Readable(spans[i]) {
        var s := spans[i];
        if s.first < s.last {
          assert s.Has(s.first) && s.Has(s.first + 1) && s.Has(s.last - 1) && s.Has(s.last);
          assert s.first in years && s.first + 1 in years && s.last - 1 in years && s.last - 1 + 1 in years;
        }
      }
    }
  }

  /**
   * Reading back the printed years gives the same years iff neighbouring years
   * all have four digits; so it does for every set of four-digit years.
   */
  lemma DatesRoundTripIff(years: seq<int>)
    requires years != [] && Increasing(years)
    ensures (forall y :: Mentions(DateText(years), y) <==> y in years) <==> NeighboursHaveFourDigits(years)
  {
    var spans, text := Spans(years), DateText(years);
    SpansAreCanonical(years);
    ReadableIffNeighbours(years);
    if AllReadable(spans) {
      forall y ensures Mentions(text, y) <==> y in years {
        ReadableSpansSurvive(spans, y);
      }
    } else {
      var k :| 0 <= k < |spans| && !Readable(spans[k]);
      UnreadableSpanIsLost(spans, k);
      assert !(Mentions(text, spans[k].last) <==> spans[k].last in years);
    }
  }

  // ---------------------------------------------------------------- the two functions

  datatype Error = PopFromEmptyList

  lemma IncreasingAppend(years: seq<int>, y: int)
    requires Increasing(years) && forall z :: z in years ==> z < y
    ensures Increasing(years + [y])
  {
    forall i | 0 <= i < |years| ensures years[i] < y {
      assert years[i] in years;
    }
  }

  /** The elements of a set in increasing order. */
  method Sort(dates: set<int>) returns (years: seq<int>)
    ensures Increasing(years) && forall y :: y in years <==> y in dates
  {
    years := [];
    var left := dates;
    while left != {}
      invariant Increasing(years) && left <= dates
      invariant forall y :: y in years <==> y in dates && y !in left
      invariant forall y, z :: y in years && z in left ==> y < z
      decreases left
    {
      var least := Least(left);
      IncreasingAppend(years, least);
      years, left := years + [least], left - {least};
    }
  }

  lemma SomeMember<T>(s: set<T>) returns (y: T)
    requires s != {}
    ensures y in s
  {
    y :| y in s;
  }

  method Least(s: set<int>) returns (least: int)
    requires s != {}
    ensures least in s && forall y :: y in s ==> least <= y
  {
    ghost var one := SomeMember(s);
    least :| least in s;
    var left := s - {least};
    while left != {}
      invariant left <= s && least in s
      invariant forall y :: y in s && y !in left ==> least <= y
      decreases left
    {
      ghost var another := SomeMember(left);
      var y :| y in left;
      if y < least {
        least := y;
      }
      left := left - {y};
    }
  }

  lemma EmptyList(dates: set<int>)
    requires Lists([], dates)
    ensures dates == {}
  {
    if dates != {} {
      var y := SomeMember(dates);
    }
  }

  lemma TextsAppend(output: seq<Span>, s: Span)
    ensures SpanTexts(output + [s]) == SpanTexts(output) + [SpanText(s)]
  {
  }

  /** The list has the members of the set, in increasing order. */
  predicate Lists(years: seq<int>, dates: set<int>) {
    Increasing(years) && (forall y :: y in years ==> y in dates) && (forall y :: y in dates ==> y in years)
  }

  lemma FirstListed(years: seq<int>, dates: set<int>)
    requires Lists(years, dates) && years != []
    ensures years[0] in dates
  {
    assert years[0] in years;
  }

  lemma RunEnds(done: seq<Span>, first: int, second: int, list: seq<int>)
    requires list != [] && list[0] != second + 1
    ensures done + SpansFrom(first, second, list) == done + [Span(first, second)] + SpansFrom(list[0], list[0], list[1..])
  {
    var rest := SpansFrom(list[0], list[0], list[1..]);
    assert done + ([Span(first, second)] + rest) == done + [Span(first, second)] + rest;
  }

  /** Collects the runs of the sorted years. */
  method CollectRuns(years: seq<int>) returns (output: seq<string>)
    requires years != []
    ensures output == SpanTexts(Spans(years))
  {
    var first, list := years[0], years[1..];
    var second := first;
    output := [];
    ghost var done: seq<Span> := [];
    while list != []
      invariant output == SpanTexts(done)
      invariant Spans(years) == done + SpansFrom(first, second, list)
      decreases list
    {
      var next := list[0];
      if next == second + 1 {
        second := next;
      } else {
        output := AddOutput(output, first, second);
        TextsAppend(done, Span(first, second));
        RunEnds(done, first, second, list);
        done := done + [Span(first, second)];
        first, second := next, next;
      }
      list := list[1..];
    }
    output := AddOutput(output, first, second);
    TextsAppend(done, Span(first, second));
  }

  /** Fails on the empty set, where there is no first year. */
  method DateStr(dates: set<int>) returns (r: Result<string, Error>)
    ensures dates == {} ==> r == Err(PopFromEmptyList)
    ensures dates != {} ==> r.Ok? && exists years :: years != [] && Lists(years, dates) && r.value == DateText(years)
  {
    var years := Sort(dates);
    assert Lists(years, dates);
    if years == [] {
      EmptyList(dates);
      return Err(PopFromEmptyList);
    }
    FirstListed(years, dates);
    var output := CollectRuns(years);
    r := Ok(Join(output, ','));
  }

  method AddOutput(output: seq<string>, first: int, second: int) returns (r: seq<string>)
    ensures r == output + [SpanText(Span(first, second))]
  {
    if first == second {
      r := output + [Number(first)];
    } else {
      r := output + [Number(first) + "-" + Number(second)];
    }
  }

  /** Collects the years of all items. */
  method ProcessDates(dates: string) returns (output: set<int>)
    ensures forall y :: y in output <==> Mentions(dates, y)
  {
    var items := Split(dates, ',');
    output := {};
    for i := 0 to |items|
      invariant forall y :: y in output <==> exists k :: 0 <= k < i && ItemHas(Strip(items[k]), y)
    {
      var item := Strip(items[i]);
      ghost var before := output;
      var range := DateRange(item);
      if range.Some? {
        output := AddRange(output, range.value);
      } else {
        var n := ParseInt(item);
        if n.Some? {
          output := output + {n.value};
        }
      }
      assert forall y :: y in output <==> y in before || ItemHas(Strip(items[i]), y);
    }
  }

  method AddRange(years: set<int>, s: Span) returns (output: set<int>)
    ensures forall y :: y in output <==> y in years || s.Has(y)
  {
    output := years;
    var y := s.first;
    while y <= s.last
      invariant s.first <= y
      invariant forall z :: z in output <==> z in years || (s.Has(z) && z < y)
      decreases s.last + 1 - y
    {
      output := output + {y};
      y := y + 1;
    }
  }

  // ---------------------------------------------------------------- an example

  lemma YearText(n: nat)
    requires 1000 <= n <= 9999
    ensures Number(n) == [Digit(n / 1000), Digit(n / 100 % 10), Digit(n / 10 % 10), Digit(n % 10)]
  {
    assert n / 10 / 10 == n / 100 && n / 100 / 10 == n / 1000;
    assert Decimal(n / 1000) == [Digit(n / 1000)];
    assert Decimal(n / 100) == [Digit(n / 1000), Digit(n / 100 % 10)];
    assert Decimal(n / 10) == [Digit(n / 1000), Digit(n / 100 % 10), Digit(n / 10 % 10)];
  }

  const EXAMPLE_SPANS := [Span(1999, 1999), Span(2001, 2003)]

  lemma ExampleSpans()
    ensures Spans([1999, 2001, 2002, 2003]) == EXAMPLE_SPANS
  {
    assert SpansFrom(2001, 2002, [2003]) == [Span(2001, 2003)];
    assert [2002, 2003][1..] == [2003] && [2001, 2002, 2003][1..] == [2002, 2003];
    assert SpansFrom(2001, 2001, [2002, 2003]) == [Span(2001, 2003)];
    assert [1999, 2001, 2002, 2003][1..] == [2001, 2002, 2003];
  }

  lemma ExampleYears()
    ensures Number(1999) == "1999" && Number(2001) == "2001" && Number(2003) == "2003"
  {
    YearText(1999);
    YearText(2001);
    YearText(2003);
    assert Digit(0) == '0' && Digit(1) == '1' && Digit(2) == '2' && Digit(3) == '3' && Digit(9) == '9';
  }

  lemma ExampleTexts()
    ensures SpanTexts(EXAMPLE_SPANS) == ["1999", "2001-2003"]
  {
    ExampleYears();
    assert SpanText(EXAMPLE_SPANS[0]) == "1999";
    assert SpanText(EXAMPLE_SPANS[1]) == "2001" + "-" + "2003";
    assert "2001" + "-" + "2003" == "2001-2003";
  }

  /** Years that follow each other are written as a range, and commas go between. */
  lemma ExampleDates()
    ensures DateText([1999, 2001, 2002, 2003]) == "1999,2001-2003"
  {
    ExampleSpans();
    ExampleTexts();
  }
}
