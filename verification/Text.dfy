/** The string operations the text formats need: strip, split, join, decimal numbers, lines. */
module Text {
  import opened Wrappers

  // ---------------------------------------------------------------- white space

  predicate IsSpace(c: char) {
    c == ' ' || c == '\t' || c == '\n' || c == '\r' || c == '\U{0B}' || c == '\U{0C}'
  }

  function StripLeft(s: string): string {
    if s != [] && IsSpace(s[0]) then StripLeft(s[1..]) else s
  }

  function StripRight(s: string): string {
    if s != [] && IsSpace(s[|s| - 1]) then StripRight(s[..|s| - 1]) else s
  }

  function Strip(s: string): string {
    StripRight(StripLeft(s))
  }

  /** Neither end is white space. */
  predicate Tight(s: string) {
    s != [] ==> !IsSpace(s[0]) && !IsSpace(s[|s| - 1])
  }

  lemma StripTight(s: string)
    requires Tight(s)
    ensures Strip(s) == s
  {
  }

  lemma StripNewline(s: string)
    requires s != [] && Tight(s)
    ensures Strip(s + "\n") == s
  {
    var t := s + "\n";
    assert t[0] == s[0];
    assert t[|t| - 1] == '\n' && t[..|t| - 1] == s;
    assert StripRight(s) == s;
  }

  // ---------------------------------------------------------------- split and join

  function Split(s: string, sep: char): (parts: seq<string>)
    ensures |parts| >= 1
  {
    if s == [] then [""]
    else
      var rest := Split(s[1..], sep);
      if s[0] == sep then [""] + rest else [[s[0]] + rest[0]] + rest[1..]
  }

  function Join(parts: seq<string>, sep: char): string {
    if |parts| == 0 then ""
    else if |parts| == 1 then parts[0]
    else parts[0] + [sep] + Join(parts[1..], sep)
  }

  predicate Without(s: string, sep: char) {
    forall i :: 0 <= i < |s| ==> s[i] != sep
  }

  predicate AllWithout(parts: seq<string>, sep: char) {
    forall k :: 0 <= k < |parts| ==> Without(parts[k], sep)
  }

  lemma {:induction false} SplitFirst(s: string, sep: char, rest: string)
    requires Without(s, sep)
    ensures Split(s + [sep] + rest, sep) == [s] + Split(rest, sep)
  {
    var t := s + [sep] + rest;
    if s == [] {
      assert t[1..] == rest;
    } else {
      assert t[1..] == s[1..] + [sep] + rest;
      SplitFirst(s[1..], sep, rest);
      assert [s[0]] + s[1..] == s;
    }
  }

  lemma {:induction false} SplitOne(s: string, sep: char)
    requires Without(s, sep)
    ensures Split(s, sep) == [s]
  {
    if s != [] {
      SplitOne(s[1..], sep);
      assert [s[0]] + s[1..] == s;
    }
  }

  /** Splitting undoes joining, when no part contains the separator. */
  lemma {:induction false} SplitJoin(parts: seq<string>, sep: char)
    requires |parts| >= 1 && AllWithout(parts, sep)
    ensures Split(Join(parts, sep), sep) == parts
  {
    if |parts| == 1 {
      SplitOne(parts[0], sep);
      assert parts == [parts[0]];
    } else {
      SplitJoin(parts[1..], sep);
      SplitFirst(parts[0], sep, Join(parts[1..], sep));
      assert parts == [parts[0]] + parts[1..];
    }
  }

  /** Joining puts no other character between the parts. */
  lemma {:induction false} JoinWithout(parts: seq<string>, sep: char, c: char)
    requires AllWithout(parts, c) && sep != c
    ensures Without(Join(parts, sep), c)
  {
    if |parts| > 1 {
      JoinWithout(parts[1..], sep, c);
    }
  }

  predicate SpaceFree(s: string) {
    forall i :: 0 <= i < |s| ==> !IsSpace(s[i])
  }

  predicate AllSpaceFree(parts: seq<string>) {
    forall k :: 0 <= k < |parts| ==> SpaceFree(parts[k])
  }

  lemma {:induction false} JoinSpaceFree(parts: seq<string>, sep: char)
    requires AllSpaceFree(parts) && !IsSpace(sep)
    ensures SpaceFree(Join(parts, sep))
  {
    if |parts| > 1 {
      JoinSpaceFree(parts[1..], sep);
    }
  }

  // ---------------------------------------------------------------- decimal numbers

  predicate IsDigit(c: char) {
    '0' <= c <= '9'
  }

  function Digit(d: nat): (c: char)
    requires d < 10
    ensures IsDigit(c) && DigitValue(c) == d
  {
    '0' + d as char
  }

  function DigitValue(c: char): nat
    requires IsDigit(c)
  {
    (c - '0') as nat
  }

  predicate AllDigits(s: string) {
    forall i :: 0 <= i < |s| ==> IsDigit(s[i])
  }

  function Decimal(n: nat): (s: string)
    ensures |s| >= 1 && AllDigits(s)
  {
    if n < 10 then [Digit(n)] else Decimal(n / 10) + [Digit(n % 10)]
  }

  function DigitsValue(s: string): nat
    requires AllDigits(s)
  {
    if s == [] then 0 else 10 * DigitsValue(s[..|s| - 1]) + DigitValue(s[|s| - 1])
  }

  lemma {:induction false} DecimalValue(n: nat)
    ensures DigitsValue(Decimal(n)) == n
  {
    var s := Decimal(n);
    if n < 10 {
      assert s[..0] == "";
    } else {
      DecimalValue(n / 10);
      assert s[..|s| - 1] == Decimal(n / 10);
    }
  }

  /** The text of a number, with a minus sign when it is negative. */
  function Number(n: int): string {
    if n < 0 then "-" + Decimal(-n) else Decimal(n)
  }

  function ParseDigits(s: string): Option<int> {
    if s != [] && AllDigits(s) then Some(DigitsValue(s)) else None
  }

  function Negated(n: Option<int>): Option<int> {
    match n
    case Some(v) => Some(-v)
    case None => None
  }

  function ParseSigned(s: string): Option<int> {
    if s == [] then None
    else if s[0] == '-' then Negated(ParseDigits(s[1..]))
    else if s[0] == '+' then ParseDigits(s[1..])
    else ParseDigits(s)
  }

  /** A number with an optional sign, white space around it ignored. */
  function ParseInt(s: string): Option<int> {
    ParseSigned(Strip(s))
  }

  lemma ParseNumber(n: int)
    ensures ParseInt(Number(n)) == Some(n)
  {
    NumberTight(n);
    StripTight(Number(n));
    if n < 0 {
      ParseDecimal(-n);
      assert Number(n)[1..] == Decimal(-n);
    } else {
      ParseDecimal(n);
    }
  }

  lemma NumberTight(n: int)
    ensures Number(n) != [] && Tight(Number(n))
  {
  }

  lemma ParseDecimal(n: nat)
    ensures ParseDigits(Decimal(n)) == Some(n)
    ensures IsDigit(Decimal(n)[0])
  {
    DecimalValue(n);
  }

  // ---------------------------------------------------------------- lines

  /** The lines of a text, each with its newline; the last one may lack it. */
  function Lines(s: string): seq<string> {
    if s == [] then []
    else if s[0] == '\n' then ["\n"] + Lines(s[1..])
    else
      var rest := Lines(s[1..]);
      if rest == [] then [[s[0]]] else [[s[0]] + rest[0]] + rest[1..]
  }

  lemma {:induction false} FirstLine(s: string, rest: string)
    requires Without(s, '\n')
    ensures Lines(s + "\n" + rest) == [s + "\n"] + Lines(rest)
  {
    var t := s + "\n" + rest;
    if s == [] {
      assert t[1..] == rest && s + "\n" == "\n";
    } else {
      assert t[1..] == s[1..] + "\n" + rest;
      FirstLine(s[1..], rest);
      assert [s[0]] + (s[1..] + "\n") == s + "\n";
    }
  }
}
