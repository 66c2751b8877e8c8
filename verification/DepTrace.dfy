/**
 * The instruction dependency trace as text: one line per record, written by the
 * decoder of the binary trace and read back by its encoder.
 */
module DepTrace {
  import opened Wrappers
  import opened Text

  const LIMIT_64 := 0x1_0000_0000_0000_0000
  const LIMIT_32 := 0x1_0000_0000

  type U64 = n: int | 0 <= n < LIMIT_64
  type U32 = n: int | 0 <= n < LIMIT_32

  datatype RecordType = Invalid | Load | Store | Comp

  datatype Record = Record(
    seqNum: Option<U64>,
    kind: RecordType,
    pAddr: Option<U64>,
    size: Option<U32>,
    flags: Option<U32>,
    robDep: seq<U64>,
    compDelay: Option<U64>,
    regDep: seq<U64>,
    weight: Option<U32>,
    pc: Option<U64>,
    vAddr: Option<U64>,
    asid: Option<U32>)

  datatype Error = ValueError | IndexError | UnsupportedType | InvalidType

  // ---------------------------------------------------------------- printing

  function Name(kind: RecordType): string {
    match kind
    case Invalid => "INVALID"
    case Load => "LOAD"
    case Store => "STORE"
    case Comp => "COMP"
  }

  /** A field that is unset prints as its default. */
  function OrDefault<T>(field: Option<T>, default: T): T {
    match field
    case Some(v) => v
    case None => default
  }

  function IfSet(set?: bool, value: nat): seq<string> {
    if set? then [Decimal(value)] else []
  }

  function Memory(r: Record): seq<string> {
    IfSet(r.pAddr.Some?, OrDefault(r.pAddr, 0)) + IfSet(r.size.Some?, OrDefault(r.size, 0))
    + IfSet(r.flags.Some?, OrDefault(r.flags, 0))
  }

  function Head(r: Record): seq<string> {
    [Decimal(OrDefault(r.seqNum, 0)), Decimal(OrDefault(r.pc, 0)), Decimal(OrDefault(r.weight, 1)), Name(r.kind)]
  }

  function Items(r: Record): seq<string> {
    Head(r) + Memory(r) + [Decimal(OrDefault(r.compDelay, 0))]
  }

  function Decimals(deps: seq<U64>): seq<string> {
    seq(|deps|, i requires 0 <= i < |deps| => Decimal(deps[i]))
  }

  /** Every dependency is printed with a comma in front of it. */
  function DepText(deps: seq<U64>): string {
    Join([""] + Decimals(deps), ',')
  }

  function Parts(r: Record): seq<string> {
    [Join(Items(r), ','), DepText(r.robDep), DepText(r.regDep)]
  }

  function Body(r: Record): string {
    Join(Parts(r), ':')
  }

  function PrintLine(r: Record): string {
    Body(r) + "\n"
  }

  function PrintTrace(rs: seq<Record>): string {
    if rs == [] then "" else PrintLine(rs[0]) + PrintTrace(rs[1..])
  }

  // ---------------------------------------------------------------- parsing

  function ParseField(text: string, limit: nat): (r: Result<nat, Error>)
    ensures r.Ok? ==> r.value < limit
  {
    match ParseInt(text)
    case Some(n) => if 0 <= n < limit then Ok(n) else Err(ValueError)
    case None => Err(ValueError)
  }

  function ParseItem(items: seq<string>, i: nat, limit: nat): (r: Result<nat, Error>)
    ensures r.Ok? ==> r.value < limit
  {
    if i < |items| then ParseField(items[i], limit) else Err(IndexError)
  }

  function ParseKind(items: seq<string>): Result<RecordType, Error> {
    if |items| <= 3 then Err(IndexError)
    else if items[3] == "LOAD" then Ok(Load)
    else if items[3] == "STORE" then Ok(Store)
    else if items[3] == "COMP" then Ok(Comp)
    else if items[3] == "INVALID" then Err(InvalidType)
    else Err(UnsupportedType)
  }

  function ParseInfo(items: seq<string>): Result<Record, Error> {
    var seqNum :- ParseItem(items, 0, LIMIT_64);
    var pc :- ParseItem(items, 1, LIMIT_64);
    var weight :- ParseItem(items, 2, LIMIT_32);
    var kind :- ParseKind(items);
    if kind == Load || kind == Store then
      if |items| < 8 then Err(ValueError)
      else
        var pAddr :- ParseItem(items, 4, LIMIT_64);
        var size :- ParseItem(items, 5, LIMIT_32);
        var flags :- ParseItem(items, 6, LIMIT_32);
        var delay :- ParseItem(items, 7, LIMIT_64);
        Ok(Record(Some(seqNum), kind, Some(pAddr), Some(size), Some(flags), [], Some(delay), [],
                  Some(weight), Some(pc), None, None))
    else
      var delay :- ParseItem(items, 4, LIMIT_64);
      Ok(Record(Some(seqNum), kind, None, None, None, [], Some(delay), [], Some(weight), Some(pc), None, None))
  }

  /** The dependencies among the first n items; empty items are skipped. */
  function DepsFirst(items: seq<string>, n: nat): Result<seq<U64>, Error>
    requires n <= |items|
  {
    if n == 0 then Ok([])
    else
      var before :- DepsFirst(items, n - 1);
      if items[n - 1] == "" then Ok(before)
      else
        var dep :- ParseField(items[n - 1], LIMIT_64);
        Ok(before + [dep])
  }

  function ParseDeps(items: seq<string>): Result<seq<U64>, Error> {
    DepsFirst(items, |items|)
  }

  function ParseParts(parts: seq<string>): Result<Record, Error> {
    if |parts| != 3 then Err(ValueError)
    else
      var info :- ParseInfo(Split(parts[0], ','));
      var rob :- ParseDeps(Split(Strip(parts[1]), ','));
      var reg :- ParseDeps(Split(parts[2], ','));
      Ok(info.(robDep := rob, regDep := reg))
  }

  function ParseLine(line: string): Result<Record, Error> {
    ParseParts(Split(Strip(line), ':'))
  }

  /** The records converted before the first bad line, and what was wrong with that. */
  datatype Converted = Converted(records: seq<Record>, error: Option<Error>)

  function Then(first: Result<Record, Error>, rest: Converted): Converted {
    match first
    case Err(e) => Converted([], Some(e))
    case Ok(r) => Converted([r] + rest.records, rest.error)
  }

  function Convert(lines: seq<string>): Converted {
    if lines == [] then Converted([], None) else Then(ParseLine(lines[0]), Convert(lines[1..]))
  }

  // ---------------------------------------------------------------- the round trip

  /** The record with the defaults of the unset fields filled in. */
  function WithDefaults(r: Record): Record {
    r.(seqNum := Some(OrDefault(r.seqNum, 0)),
       pc := Some(OrDefault(r.pc, 0)),
       weight := Some(OrDefault(r.weight, 1)),
       compDelay := Some(OrDefault(r.compDelay, 0)))
  }

  /** Loads and stores have all three memory fields and others none; the text has no room for more. */
  predicate WellFormed(r: Record) {
    && r.vAddr.None? && r.asid.None?
    && match r.kind
       case Invalid => false
       case Comp => r.pAddr.None? && r.size.None? && r.flags.None?
       case _ => r.pAddr.Some? && r.size.Some? && r.flags.Some?
  }

  /** What the parser makes of a printed record, well-formed or not. */
  function Reread(r: Record): Result<Record, Error> {
    var d := WithDefaults(r).(vAddr := None, asid := None);
    match r.kind
    case Invalid => Err(InvalidType)
    case Comp => Ok(d.(pAddr := None, size := None, flags := None, compDelay := Some(FirstNumber(r))))
    case _ => if r.pAddr.Some? && r.size.Some? && r.flags.Some? then Ok(d) else Err(ValueError)
  }

  /** The number behind the type of a printed record. */
  function FirstNumber(r: Record): U64 {
    if r.pAddr.Some? then r.pAddr.value
    else if r.size.Some? then r.size.value
    else if r.flags.Some? then r.flags.value
    else OrDefault(r.compDelay, 0)
  }

  lemma RereadIff(r: Record)
    ensures Reread(r) == Ok(WithDefaults(r)) <==> WellFormed(r)
  {
  }

  lemma ParseFieldDecimal(n: nat, limit: nat)
    requires n < limit
    ensures ParseField(Decimal(n), limit) == Ok(n)
  {
    ParseNumber(n);
  }

  lemma ParsePrintedItem(items: seq<string>, i: nat, n: nat, limit: nat)
    requires i < |items| && items[i] == Decimal(n) && n < limit
    ensures ParseItem(items, i, limit) == Ok(n)
  {
    ParseFieldDecimal(n, limit);
  }

  lemma ParsePrintedKind(items: seq<string>, kind: RecordType)
    requires |items| > 3 && items[3] == Name(kind)
    ensures ParseKind(items) == if kind == Invalid then Err(InvalidType) else Ok(kind)
  {
  }

  lemma ParsePrintedHead(r: Record)
    ensures var items := Items(r);
            && ParseItem(items, 0, LIMIT_64) == Ok(OrDefault(r.seqNum, 0))
            && ParseItem(items, 1, LIMIT_64) == Ok(OrDefault(r.pc, 0))
            && ParseItem(items, 2, LIMIT_32) == Ok(OrDefault(r.weight, 1))
            && ParseKind(items) == if r.kind == Invalid then Err(InvalidType) else Ok(r.kind)
  {
    var items := Items(r);
    ParsePrintedItem(items, 0, OrDefault(r.seqNum, 0), LIMIT_64);
    ParsePrintedItem(items, 1, OrDefault(r.pc, 0), LIMIT_64);
    ParsePrintedItem(items, 2, OrDefault(r.weight, 1), LIMIT_32);
    ParsePrintedKind(items, r.kind);
  }

  lemma ParsePrintedMemory(r: Record)
    requires r.pAddr.Some? && r.size.Some? && r.flags.Some?
    ensures var items := Items(r);
            && |items| == 8
            && ParseItem(items, 4, LIMIT_64) == Ok(r.pAddr.value)
            && ParseItem(items, 5, LIMIT_32) == Ok(r.size.value)
            && ParseItem(items, 6, LIMIT_32) == Ok(r.flags.value)
            && ParseItem(items, 7, LIMIT_64) == Ok(OrDefault(r.compDelay, 0))
  {
    var items := Items(r);
    ParsePrintedItem(items, 4, r.pAddr.value, LIMIT_64);
    ParsePrintedItem(items, 5, r.size.value, LIMIT_32);
    ParsePrintedItem(items, 6, r.flags.value, LIMIT_32);
    ParsePrintedItem(items, 7, OrDefault(r.compDelay, 0), LIMIT_64);
  }

  function InfoOnly(r: Result<Record, Error>): Result<Record, Error> {
    match r
    case Ok(q) => Ok(q.(robDep := [], regDep := []))
    case Err(e) => Err(e)
  }

  /** What the parser makes of the printed fields. */
  lemma ParsePrintedInfo(r: Record)
    ensures ParseInfo(Items(r)) == InfoOnly(Reread(r))
  {
    ParsePrintedHead(r);
    if r.kind == Comp {
      ParsePrintedItem(Items(r), 4, FirstNumber(r), LIMIT_64);
    } else if r.pAddr.Some? && r.size.Some? && r.flags.Some? {
      ParsePrintedMemory(r);
    }
  }

  lemma DepsNext(items: seq<string>, n: nat, before: seq<U64>, dep: U64)
    requires 0 < n <= |items| && DepsFirst(items, n - 1) == Ok(before) && items[n - 1] == Decimal(dep)
    ensures DepsFirst(items, n) == Ok(before + [dep])
  {
    ParseFieldDecimal(dep, LIMIT_64);
  }

  lemma {:induction false} DepsFirstPrinted(deps: seq<U64>, n: nat)
    requires n <= |deps|
    ensures DepsFirst([""] + Decimals(deps), n + 1) == Ok(deps[..n])
  {
    var items := [""] + Decimals(deps);
    if n == 0 {
      assert DepsFirst(items, 0) == Ok([]);
    } else {
      DepsFirstPrinted(deps, n - 1);
      assert items[n] == Decimal(deps[n - 1]);
      DepsNext(items, n + 1, deps[..n - 1], deps[n - 1]);
      assert deps[..n] == deps[..n - 1] + [deps[n - 1]];
    }
  }

  lemma ParsePrintedDeps(deps: seq<U64>)
    ensures ParseDeps(Split(DepText(deps), ',')) == Ok(deps)
  {
    var items := [""] + Decimals(deps);
    DepItemsWithout(deps, ',');
    SplitJoin(items, ',');
    DepsFirstPrinted(deps, |deps|);
    assert deps[..|deps|] == deps;
  }

  lemma DepItemsWithout(deps: seq<U64>, c: char)
    requires !IsDigit(c)
    ensures AllWithout([""] + Decimals(deps), c)
  {
  }

  lemma DepTextShape(deps: seq<U64>)
    ensures Without(DepText(deps), ':') && SpaceFree(DepText(deps))
  {
    DepItemsWithout(deps, ':');
    JoinWithout([""] + Decimals(deps), ',', ':');
    JoinSpaceFree([""] + Decimals(deps), ',');
  }

  /** Neither separators nor white space. */
  predicate Plain(s: string) {
    forall i :: 0 <= i < |s| ==> s[i] != ',' && s[i] != ':' && !IsSpace(s[i])
  }

  predicate AllPlain(parts: seq<string>) {
    forall k :: 0 <= k < |parts| ==> Plain(parts[k])
  }

  lemma AllPlainConcat(a: seq<string>, b: seq<string>)
    requires AllPlain(a) && AllPlain(b)
    ensures AllPlain(a + b)
  {
  }

  lemma DecimalPlain(n: nat)
    ensures Plain(Decimal(n))
  {
  }

  lemma NamePlain(kind: RecordType)
    ensures Plain(Name(kind))
  {
  }

  lemma IfSetPlain(set?: bool, n: nat)
    ensures AllPlain(IfSet(set?, n))
  {
    DecimalPlain(n);
  }

  lemma MemoryPlain(r: Record)
    ensures AllPlain(Memory(r))
  {
    var a := IfSet(r.pAddr.Some?, OrDefault(r.pAddr, 0));
    var b := IfSet(r.size.Some?, OrDefault(r.size, 0));
    var c := IfSet(r.flags.Some?, OrDefault(r.flags, 0));
    IfSetPlain(r.pAddr.Some?, OrDefault(r.pAddr, 0));
    IfSetPlain(r.size.Some?, OrDefault(r.size, 0));
    IfSetPlain(r.flags.Some?, OrDefault(r.flags, 0));
    AllPlainConcat(a, b);
    AllPlainConcat(a + b, c);
  }

  lemma FourPlain(a: string, b: string, c: string, d: string)
    requires Plain(a) && Plain(b) && Plain(c) && Plain(d)
    ensures AllPlain([a, b, c, d])
  {
  }

  lemma OnePlain(a: string)
    requires Plain(a)
    ensures AllPlain([a])
  {
  }

  lemma ItemsPlain(r: Record)
    ensures AllPlain(Items(r))
  {
    var a, b, c := Decimal(OrDefault(r.seqNum, 0)), Decimal(OrDefault(r.pc, 0)), Decimal(OrDefault(r.weight, 1));
    var d := Decimal(OrDefault(r.compDelay, 0));
    DecimalPlain(OrDefault(r.seqNum, 0));
    DecimalPlain(OrDefault(r.pc, 0));
    DecimalPlain(OrDefault(r.weight, 1));
    DecimalPlain(OrDefault(r.compDelay, 0));
    NamePlain(r.kind);
    FourPlain(a, b, c, Name(r.kind));
    OnePlain(d);
    MemoryPlain(r);
    AllPlainConcat([a, b, c, Name(r.kind)], Memory(r));
    AllPlainConcat([a, b, c, Name(r.kind)] + Memory(r), [d]);
  }

  lemma InfoShape(r: Record)
    ensures Split(Join(Items(r), ','), ',') == Items(r)
    ensures Without(Join(Items(r), ','), ':') && SpaceFree(Join(Items(r), ','))
    ensures Join(Items(r), ',') != []
  {
    ItemsPlain(r);
    SplitJoin(Items(r), ',');
    JoinWithout(Items(r), ',', ':');
    JoinSpaceFree(Items(r), ',');
  }

  lemma ThreeParts(a: string, b: string, c: string)
    requires Without(a, ':') && Without(b, ':') && Without(c, ':')
    requires SpaceFree(a) && SpaceFree(b) && SpaceFree(c)
    ensures AllWithout([a, b, c], ':') && AllSpaceFree([a, b, c])
  {
  }

  lemma PartsShape(r: Record)
    ensures AllWithout(Parts(r), ':') && AllSpaceFree(Parts(r)) && |Parts(r)| == 3
  {
    InfoShape(r);
    DepTextShape(r.robDep);
    DepTextShape(r.regDep);
    ThreeParts(Join(Items(r), ','), DepText(r.robDep), DepText(r.regDep));
  }

  lemma BodyShape(r: Record)
    ensures Body(r) != [] && SpaceFree(Body(r))
  {
    PartsShape(r);
    JoinSpaceFree(Parts(r), ':');
    assert |Body(r)| > |Parts(r)[0]|;
  }

  lemma ParsePrintedParts(r: Record)
    ensures ParseParts(Parts(r)) == Reread(r)
  {
    InfoShape(r);
    ParsePrintedInfo(r);
    DepTextShape(r.robDep);
    StripTight(DepText(r.robDep));
    ParsePrintedDeps(r.robDep);
    ParsePrintedDeps(r.regDep);
  }

  /** How a well-formed record is printed: fields between commas, and the two lists of dependences behind colons. */
  lemma LineFormat(r: Record)
    requires WellFormed(r)
    ensures var line := PrintLine(r);
            line != [] && line[|line| - 1] == '\n' && |Split(line[..|line| - 1], ':')| == 3
    ensures var parts := Split(PrintLine(r)[..|PrintLine(r)| - 1], ':');
            && Split(parts[0], ',') ==
               [Decimal(OrDefault(r.seqNum, 0)), Decimal(OrDefault(r.pc, 0)), Decimal(OrDefault(r.weight, 1)),
                if r.kind == Load then "LOAD" else if r.kind == Store then "STORE" else "COMP"]
               + (if r.kind == Comp then [] else [Decimal(r.pAddr.value), Decimal(r.size.value), Decimal(r.flags.value)])
               + [Decimal(OrDefault(r.compDelay, 0))]
            && Split(parts[1], ',') == [""] + seq(|r.robDep|, i requires 0 <= i < |r.robDep| => Decimal(r.robDep[i]))
            && Split(parts[2], ',') == [""] + seq(|r.regDep|, i requires 0 <= i < |r.regDep| => Decimal(r.regDep[i]))
  {
    var line := PrintLine(r);
    assert line[..|line| - 1] == Body(r);
    PartsShape(r);
    SplitJoin(Parts(r), ':');
    InfoShape(r);
    DepItemsWithout(r.robDep, ',');
    SplitJoin([""] + Decimals(r.robDep), ',');
    DepItemsWithout(r.regDep, ',');
    SplitJoin([""] + Decimals(r.regDep), ',');
  }

  /** What reading back one printed line gives, for every record. */
  lemma ParsePrintedLine(r: Record)
    ensures ParseLine(PrintLine(r)) == Reread(r)
  {
    BodyShape(r);
    StripNewline(Body(r));
    PartsShape(r);
    SplitJoin(Parts(r), ':');
    ParsePrintedParts(r);
  }

  /** Printing a record and parsing the line gives it back, with defaults filled in, iff it is well-formed. */
  lemma LineRoundTripIff(r: Record)
    ensures ParseLine(PrintLine(r)) == Ok(WithDefaults(r)) <==> WellFormed(r)
  {
    ParsePrintedLine(r);
    RereadIff(r);
  }

  function AllWithDefaults(rs: seq<Record>): seq<Record> {
    if rs == [] then [] else [WithDefaults(rs[0])] + AllWithDefaults(rs[1..])
  }

  predicate AllWellFormed(rs: seq<Record>) {
    forall i :: 0 <= i < |rs| ==> WellFormed(rs[i])
  }

  lemma AllWellFormedFirst(rs: seq<Record>)
    requires rs != []
    ensures AllWellFormed(rs) <==> WellFormed(rs[0]) && AllWellFormed(rs[1..])
  {
    assert rs == [rs[0]] + rs[1..];
  }

  lemma ThenIs(first: Result<Record, Error>, rest: Converted, r: Record, rs: seq<Record>)
    ensures Then(first, rest) == Converted([r] + rs, None) <==> first == Ok(r) && rest == Converted(rs, None)
  {
    if first.Ok? {
      var got := [first.value] + rest.records;
      assert got[0] == first.value && got[1..] == rest.records;
      assert ([r] + rs)[0] == r && ([r] + rs)[1..] == rs;
    }
  }

  lemma ConvertFirst(line: string, lines: seq<string>)
    ensures Convert([line] + lines) == Then(ParseLine(line), Convert(lines))
  {
    assert ([line] + lines)[1..] == lines;
  }

  lemma ConvertPrinted(r: Record, rest: string)
    ensures Convert(Lines(PrintLine(r) + rest)) == Then(ParseLine(PrintLine(r)), Convert(Lines(rest)))
  {
    BodyShape(r);
    FirstLine(Body(r), rest);
    ConvertFirst(PrintLine(r), Lines(rest));
  }

  /** A whole trace survives iff all its records are well-formed. */
  lemma {:induction false} TraceRoundTripIff(rs: seq<Record>)
    ensures Convert(Lines(PrintTrace(rs))) == Converted(AllWithDefaults(rs), None) <==> AllWellFormed(rs)
  {
    if rs != [] {
      ConvertPrinted(rs[0], PrintTrace(rs[1..]));
      LineRoundTripIff(rs[0]);
      TraceRoundTripIff(rs[1..]);
      AllWellFormedFirst(rs);
      ThenIs(ParseLine(PrintLine(rs[0])), Convert(Lines(PrintTrace(rs[1..]))),
             WithDefaults(rs[0]), AllWithDefaults(rs[1..]));
    }
  }

  // ---------------------------------------------------------------- the two programs

  lemma {:induction false} JoinAppend(parts: seq<string>, last: string)
    requires |parts| >= 1
    ensures Join(parts + [last], ',') == Join(parts, ',') + ("," + last)
  {
    var more := parts + [last];
    if |parts| == 1 {
      assert more[1..] == [last];
    } else {
      assert more[1..] == parts[1..] + [last];
      JoinAppend(parts[1..], last);
    }
  }

  lemma DecimalsAppend(deps: seq<U64>, i: nat)
    requires i < |deps|
    ensures [""] + Decimals(deps[..i + 1]) == ([""] + Decimals(deps[..i])) + [Decimal(deps[i])]
  {
  }

  class AsciiFile {
    var text: string

    constructor ()
      ensures text == ""
    {
      text := "";
    }

    method Write(s: string)
      modifies this
      ensures text == old(text) + s
    {
      text := text + s;
    }

    /** One more item of a comma-separated list that began behind `start`. */
    method WriteItem(item: string, ghost start: string, ghost items: seq<string>)
      requires |items| >= 1 && text == start + Join(items, ',')
      modifies this
      ensures text == start + Join(items + [item], ',')
    {
      JoinAppend(items, item);
      Write("," + item);
    }

    method WriteIfSet(set?: bool, value: nat, ghost start: string, ghost items: seq<string>)
      requires |items| >= 1 && text == start + Join(items, ',')
      modifies this
      ensures text == start + Join(items + IfSet(set?, value), ',')
    {
      if set? {
        WriteItem(Decimal(value), start, items);
      } else {
        assert items + [] == items;
      }
    }

    method WriteHead(r: Record)
      modifies this
      ensures text == old(text) + Join(Head(r), ',')
    {
      ghost var start, seqNum := text, Decimal(OrDefault(r.seqNum, 0));
      ghost var pc, weight := Decimal(OrDefault(r.pc, 0)), Decimal(OrDefault(r.weight, 1));
      Write(Decimal(OrDefault(r.seqNum, 0)));
      WriteItem(Decimal(OrDefault(r.pc, 0)), start, [seqNum]);
      WriteItem(Decimal(OrDefault(r.weight, 1)), start, [seqNum] + [pc]);
      WriteItem(Name(r.kind), start, [seqNum] + [pc] + [weight]);
      assert [seqNum] + [pc] + [weight] + [Name(r.kind)] == Head(r);
    }

    method WriteInfo(r: Record)
      modifies this
      ensures text == old(text) + Join(Items(r), ',')
    {
      ghost var start := text;
      ghost var a, b := IfSet(r.pAddr.Some?, OrDefault(r.pAddr, 0)), IfSet(r.size.Some?, OrDefault(r.size, 0));
      ghost var c := IfSet(r.flags.Some?, OrDefault(r.flags, 0));
      WriteHead(r);
      WriteIfSet(r.pAddr.Some?, OrDefault(r.pAddr, 0), start, Head(r));
      WriteIfSet(r.size.Some?, OrDefault(r.size, 0), start, Head(r) + a);
      WriteIfSet(r.flags.Some?, OrDefault(r.flags, 0), start, Head(r) + a + b);
      WriteItem(Decimal(OrDefault(r.compDelay, 0)), start, Head(r) + a + b + c);
      Regroup(Head(r), a, b, c, [Decimal(OrDefault(r.compDelay, 0))]);
    }

    method WriteDeps(deps: seq<U64>)
      modifies this
      ensures text == old(text) + DepText(deps)
    {
      ghost var start := text;
      for i := 0 to |deps|
        invariant text == start + Join([""] + Decimals(deps[..i]), ',')
      {
        DecimalsAppend(deps, i);
        WriteItem(Decimal(deps[i]), start, [""] + Decimals(deps[..i]));
      }
      assert deps[..|deps|] == deps;
    }

    method WriteRecord(r: Record)
      modifies this
      ensures text == old(text) + PrintLine(r)
    {
      ghost var start := text;
      WriteInfo(r);
      Write(":");
      WriteDeps(r.robDep);
      Write(":");
      WriteDeps(r.regDep);
      Write("\n");
      LineInPieces(start, Parts(r));
    }

    method WriteTrace(rs: seq<Record>)
      modifies this
      ensures text == old(text) + PrintTrace(rs)
    {
      for i := 0 to |rs|
        invariant text + PrintTrace(rs[i..]) == old(text) + PrintTrace(rs)
      {
        ghost var here := text;
        WriteRecord(rs[i]);
        PrintedFirst(here, rs, i);
      }
    }
  }

  lemma Regroup<T>(h: seq<T>, a: seq<T>, b: seq<T>, c: seq<T>, d: seq<T>)
    ensures h + a + b + c + d == h + (a + b + c) + d
  {
  }

  lemma PrintedFirst(here: string, rs: seq<Record>, i: nat)
    requires i < |rs|
    ensures here + PrintTrace(rs[i..]) == (here + PrintLine(rs[i])) + PrintTrace(rs[i + 1..])
  {
    assert rs[i..][1..] == rs[i + 1..];
  }

  lemma LineInPieces(start: string, parts: seq<string>)
    requires |parts| == 3
    ensures start + parts[0] + ":" + parts[1] + ":" + parts[2] + "\n" == start + (Join(parts, ':') + "\n")
  {
    assert parts[1..][1..] == [parts[2]];
    assert Join(parts[1..], ':') == parts[1] + ":" + parts[2];
  }

  method ReadDeps(items: seq<string>) returns (r: Result<seq<U64>, Error>)
    ensures r == ParseDeps(items)
  {
    var deps := [];
    for i := 0 to |items|
      invariant DepsFirst(items, i) == Ok(deps)
    {
      if items[i] != "" {
        var dep := ParseField(items[i], LIMIT_64);
        if dep.Err? {
          DepsStay(items, i + 1, |items|);
          return Err(dep.error);
        }
        deps := deps + [dep.value];
      }
    }
    return Ok(deps);
  }

  /** An error in the first items is the error of all of them. */
  lemma {:induction false} DepsStay(items: seq<string>, n: nat, m: nat)
    requires n <= m <= |items| && DepsFirst(items, n).Err?
    ensures DepsFirst(items, m) == DepsFirst(items, n)
  {
    if n < m {
      DepsStay(items, n, m - 1);
    }
  }

  method ReadRecord(line: string) returns (r: Result<Record, Error>)
    ensures r == ParseLine(line)
  {
    var parts := Split(Strip(line), ':');
    if |parts| != 3 {
      return Err(ValueError);
    }
    var info := ParseInfo(Split(parts[0], ','));
    if info.Err? {
      return info;
    }
    var rob := ReadDeps(Split(Strip(parts[1]), ','));
    if rob.Err? {
      return Err(rob.error);
    }
    var reg := ReadDeps(Split(parts[2], ','));
    if reg.Err? {
      return Err(reg.error);
    }
    return Ok(info.value.(robDep := rob.value, regDep := reg.value));
  }

  /** The encoder's loop over the lines of the text, up to the first one it cannot convert. */
  method ConvertText(text: string) returns (records: seq<Record>, error: Option<Error>)
    ensures Converted(records, error) == Convert(Lines(text))
  {
    records, error := [], None;
    var lines := Lines(text);
    for i := 0 to |lines|
      invariant Convert(lines) == Behind(records, Convert(lines[i..]))
    {
      var r := ReadRecord(lines[i]);
      assert lines[i..][1..] == lines[i + 1..];
      BehindThen(records, r, Convert(lines[i + 1..]));
      if r.Err? {
        return records, Some(r.error);
      }
      records := records + [r.value];
    }
  }

  function Behind(before: seq<Record>, c: Converted): Converted {
    Converted(before + c.records, c.error)
  }

  lemma BehindThen(before: seq<Record>, first: Result<Record, Error>, rest: Converted)
    ensures Behind(before, Then(first, rest)) ==
            if first.Ok? then Behind(before + [first.value], rest) else Converted(before, Some(first.error))
  {
    if first.Ok? {
      assert before + ([first.value] + rest.records) == (before + [first.value]) + rest.records;
    } else {
      assert before + [] == before;
    }
  }
}
