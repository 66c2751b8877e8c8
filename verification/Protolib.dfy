/**
 * Length-delimited messages: a base-128 varint with the length of the message,
 * then its bytes.  The reader and the writer work on file cursors, one byte at a
 * time, with masks, shifts and bitwise-or.
 */
module Protolib {
  import opened Wrappers
  import opened Bits

  type Byte = b: int | 0 <= b < 256

  const WORD32 := 0x1_0000_0000
  const TWO_64 := 0x1_0000_0000_0000_0000
  const MAX_INT64 := 0x7FFF_FFFF_FFFF_FFFF
  /** Ten groups of seven bits cover 64 bits. */
  const MAX_BYTES: nat := 10

  datatype Varint = EndOfFile | TooLong | Value(value: int, used: nat)

  // ---------------------------------------------------------------- the format

  function EncodeVarint(v: nat): (s: seq<Byte>)
    ensures |s| >= 1
  {
    if v < 128 then [v] else [128 + v % 128] + EncodeVarint(v / 128)
  }

  /** The number at the front of s, least significant digit first, at most `left` bytes long. */
  function ReadVarint(s: seq<Byte>, left: nat): Varint
    requires left >= 1
  {
    if s == [] then EndOfFile
    else if s[0] < 128 then Value(s[0], 1)
    else if left == 1 then TooLong
    else Shifted(s[0] - 128, ReadVarint(s[1..], left - 1))
  }

  function Shifted(digit: nat, r: Varint): Varint {
    match r
    case Value(v, n) => Value(digit + 128 * v, n + 1)
    case _ => r
  }

  /** The 32-bit number the reader makes of what it collected; sign-extended from 64 bits. */
  function Narrow(v: int): int {
    if v > MAX_INT64 then v % WORD32 - WORD32 else v % WORD32
  }

  function VarintOf(s: seq<Byte>): Varint {
    match ReadVarint(s, MAX_BYTES)
    case Value(v, n) => Value(Narrow(v), n)
    case r => r
  }

  lemma {:induction false} ReadBounds(s: seq<Byte>, left: nat)
    requires left >= 1
    ensures var r := ReadVarint(s, left);
            && (r.Value? ==> 1 <= r.used <= left && r.used <= |s| && r.value >= 0)
            && (r.TooLong? ==> |s| >= left)
  {
    if s != [] && s[0] >= 128 && left > 1 {
      ReadBounds(s[1..], left - 1);
    }
  }

  lemma {:induction false} ReadWritten(v: nat, rest: seq<Byte>, left: nat)
    requires |EncodeVarint(v)| <= left
    ensures ReadVarint(EncodeVarint(v) + rest, left) == Value(v, |EncodeVarint(v)|)
  {
    var s := EncodeVarint(v) + rest;
    if v >= 128 {
      assert s[1..] == EncodeVarint(v / 128) + rest;
      ReadWritten(v / 128, rest, left - 1);
    }
  }

  /** A varint that is cut short is read as the end of the file. */
  lemma {:induction false} ReadCut(v: nat, k: nat, left: nat)
    requires k < |EncodeVarint(v)| <= left
    ensures ReadVarint(EncodeVarint(v)[..k], left) == EndOfFile
  {
    if k > 0 {
      assert EncodeVarint(v)[..k][1..] == EncodeVarint(v / 128)[..k - 1];
      ReadCut(v / 128, k - 1, left - 1);
    }
  }

  lemma {:induction false} EncodedLength(v: nat, n: nat)
    requires n >= 1
    ensures |EncodeVarint(v)| <= n <==> v < Pow2(7 * n)
  {
    Pow2Sum(7, 7 * (n - 1));
    assert Pow2(7) == 128;
    if v >= 128 {
      if n > 1 {
        EncodedLength(v / 128, n - 1);
        QuotientBound(v, Pow2(7 * (n - 1)));
      }
    } else {
      Pow2Monotone(0, 7 * (n - 1));
    }
  }

  lemma QuotientBound(v: nat, p: nat)
    ensures v < 128 * p <==> v / 128 < p
  {
  }

  lemma {:induction false} LongerForLarger(v: nat, w: nat)
    requires v <= w
    ensures |EncodeVarint(v)| <= |EncodeVarint(w)|
  {
    if v >= 128 {
      LongerForLarger(v / 128, w / 128);
    }
  }

  lemma {:induction false} ReadIsNoShorter(s: seq<Byte>, left: nat)
    requires left >= 1 && ReadVarint(s, left).Value?
    ensures var r := ReadVarint(s, left);
            r.value >= 0 && |EncodeVarint(r.value)| <= r.used
  {
    if s[0] >= 128 {
      ReadIsNoShorter(s[1..], left - 1);
      var v := ReadVarint(s[1..], left - 1).value;
      var w := s[0] - 128 + 128 * v;
      assert w / 128 == v;
    }
  }

  /** Every 32-bit value is read back from its encoding, using up exactly its one to five bytes. */
  lemma VarintRoundTrip(v: nat, rest: seq<Byte>)
    requires v < WORD32
    ensures VarintOf(EncodeVarint(v) + rest) == Value(v, |EncodeVarint(v)|)
    ensures 1 <= |EncodeVarint(v)| <= 5
  {
    FiveBytes(v);
    ReadWritten(v, rest, MAX_BYTES);
  }

  lemma FiveBytes(v: nat)
    requires v < WORD32
    ensures |EncodeVarint(v)| <= 5
  {
    EncodedLength(v, 5);
    Pow2Sum(32, 3);
    PowerOf32();
  }

  lemma PowerOf32()
    ensures Pow2(32) == WORD32
  {
    assert Pow2(8) == 256;
    Pow2Sum(8, 8);
    Pow2Sum(16, 16);
  }

  lemma PowerOf63()
    ensures Pow2(63) == MAX_INT64 + 1
  {
    PowerOf32();
    Pow2Sum(32, 31);
  }

  /** No byte string shorter than the encoding of v is read as v. */
  lemma EncodingIsShortest(s: seq<Byte>, v: nat)
    requires VarintOf(s).Value? && VarintOf(s).value == v
    ensures VarintOf(s).used >= |EncodeVarint(v)|
  {
    ReadIsNoShorter(s, MAX_BYTES);
    LongerForLarger(v, ReadVarint(s, MAX_BYTES).value);
  }

  // ---------------------------------------------------------------- messages

  type Body = seq<Byte>

  datatype Found = NoMessage | Message(body: Body, used: nat)

  function EncodeMessage(body: Body): seq<Byte> {
    EncodeVarint(|body|) + body
  }

  function EncodeAll(bodies: seq<Body>): seq<Byte> {
    if bodies == [] then [] else EncodeMessage(bodies[0]) + EncodeAll(bodies[1..])
  }

  /** Up to `size` bytes; all of them when the size is negative. */
  function UpTo(s: seq<Byte>, size: int): (t: seq<Byte>)
    ensures t <= s
  {
    if 0 <= size < |s| then s[..size] else s
  }

  function MessageOf(s: seq<Byte>): (r: Found)
    ensures r.Message? ==> 1 <= r.used <= |s|
  {
    ReadBounds(s, MAX_BYTES);
    match VarintOf(s)
    case Value(size, n) =>
      if size == 0 then NoMessage
      else
        var body := UpTo(s[n..], size);
        Message(body, n + |body|)
    case _ => NoMessage
  }

  function DecodeAll(s: seq<Byte>): seq<Body>
    decreases |s|
  {
    match MessageOf(s)
    case NoMessage => []
    case Message(body, used) => [body] + DecodeAll(s[used..])
  }

  /** What can be read of a stream of messages of which only the first k bytes are left. */
  function Readable(bodies: seq<Body>, k: nat): seq<Body> {
    if bodies == [] || bodies[0] == [] then []
    else
      var head := |EncodeVarint(|bodies[0]|)|;
      if k < head then []
      else if k < head + |bodies[0]| then [bodies[0][..k - head]]
      else [bodies[0]] + Readable(bodies[1..], k - head - |bodies[0]|)
  }

  predicate Encodable(bodies: seq<Body>) {
    forall b :: b in bodies ==> |b| < WORD32
  }

  lemma CutThree<T>(a: seq<T>, b: seq<T>, c: seq<T>, k: nat)
    requires k <= |a| + |b| + |c|
    ensures k < |a| ==> (a + b + c)[..k] == a[..k]
    ensures |a| <= k < |a| + |b| ==> (a + b + c)[..k] == a + b[..k - |a|]
    ensures |a| + |b| <= k ==> (a + b + c)[..k] == a + b + c[..k - |a| - |b|]
  {
  }

  lemma DecodeWhole(body: Body, rest: seq<Byte>)
    requires |body| < WORD32
    ensures DecodeAll(EncodeVarint(|body|) + body + rest) == if body == [] then [] else [body] + DecodeAll(rest)
  {
    var s := EncodeVarint(|body|) + body + rest;
    ReadWholeBody(body, rest);
    assert s[|EncodeVarint(|body|)| + |body|..] == rest;
  }

  lemma DecodeCutHead(body: Body, k: nat)
    requires |body| < WORD32 && k < |EncodeVarint(|body|)|
    ensures DecodeAll(EncodeVarint(|body|)[..k]) == []
  {
    FiveBytes(|body|);
    ReadCut(|body|, k, MAX_BYTES);
  }

  /**
   * A stream that is cut anywhere: whole messages up to the cut, and at most one
   * short body.  A message of length zero ends the stream.
   */
  lemma {:induction false} CutStream(bodies: seq<Body>, k: nat)
    requires Encodable(bodies) && k <= |EncodeAll(bodies)|
    ensures DecodeAll(EncodeAll(bodies)[..k]) == Readable(bodies, k)
  {
    if bodies == [] {
      assert EncodeAll(bodies)[..k] == [];
    } else {
      var head, body, tail := EncodeVarint(|bodies[0]|), bodies[0], EncodeAll(bodies[1..]);
      CutThree(head, body, tail, k);
      if k < |head| {
        DecodeCutHead(body, k);
      } else if k < |head| + |body| {
        ReadShortBody(body, k - |head|);
      } else {
        DecodeWhole(body, tail[..k - |head| - |body|]);
        CutStream(bodies[1..], k - |head| - |body|);
      }
    }
  }

  lemma ReadShortBody(body: Body, n: nat)
    requires n < |body| < WORD32
    ensures DecodeAll(EncodeVarint(|body|) + body[..n]) == [body[..n]]
  {
    var head := EncodeVarint(|body|);
    var s := head + body[..n];
    VarintRoundTrip(|body|, body[..n]);
    assert s[|head|..] == body[..n];
    assert MessageOf(s) == Message(body[..n], |s|);
    assert s[|s|..] == [];
  }

  lemma ReadWholeBody(body: Body, rest: seq<Byte>)
    requires |body| < WORD32
    ensures var s := EncodeVarint(|body|) + body + rest;
            MessageOf(s) == if body == [] then NoMessage
                            else Message(body, |EncodeVarint(|body|)| + |body|)
  {
    var head := EncodeVarint(|body|);
    assert head + body + rest == head + (body + rest);
    VarintRoundTrip(|body|, body + rest);
    assert (head + (body + rest))[|head|..] == body + rest;
    assert |body + rest| == |body| + |rest|;
    assert body != [] ==> UpTo(body + rest, |body|) == body;
  }

  /** The messages before the first empty one. */
  function UpToEmpty(bodies: seq<Body>): (r: seq<Body>)
    ensures r <= bodies
  {
    if bodies == [] || bodies[0] == [] then [] else [bodies[0]] + UpToEmpty(bodies[1..])
  }

  lemma {:induction false} ReadableWhole(bodies: seq<Body>)
    ensures Readable(bodies, |EncodeAll(bodies)|) == UpToEmpty(bodies)
  {
    if bodies != [] {
      ReadableWhole(bodies[1..]);
    }
  }

  lemma {:induction false} UpToEmptyIsAllIff(bodies: seq<Body>)
    ensures UpToEmpty(bodies) == bodies <==> [] !in bodies
  {
    if bodies != [] {
      UpToEmptyIsAllIff(bodies[1..]);
      assert bodies == [bodies[0]] + bodies[1..];
    }
  }

  /** Reading a whole stream gives the messages before the first empty one, and so all of them iff none is empty. */
  lemma StreamRoundTrip(bodies: seq<Body>)
    requires Encodable(bodies)
    ensures DecodeAll(EncodeAll(bodies)) == UpToEmpty(bodies)
    ensures DecodeAll(EncodeAll(bodies)) == bodies <==> [] !in bodies
  {
    var s := EncodeAll(bodies);
    CutStream(bodies, |s|);
    assert s[..|s|] == s;
    ReadableWhole(bodies);
    UpToEmptyIsAllIff(bodies);
  }

  /** The first j messages whole, then nothing or a part of message j. */
  predicate WholeThenPart(bodies: seq<Body>, got: seq<Body>, j: nat) {
    && j <= |bodies| && j <= |got| <= j + 1
    && got[..j] == bodies[..j]
    && (|got| == j + 1 ==> j < |bodies| && got[j] < bodies[j])
  }

  /** Cutting a stream of nonempty messages loses only the end: a prefix of the messages and at most one short body. */
  lemma {:induction false} CutLosesOnlyTheEnd(bodies: seq<Body>, k: nat) returns (j: nat)
    requires Encodable(bodies) && k <= |EncodeAll(bodies)|
    ensures WholeThenPart(bodies, DecodeAll(EncodeAll(bodies)[..k]), j)
  {
    CutStream(bodies, k);
    j := ReadableShape(bodies, k);
  }

  lemma {:induction false} ReadableShape(bodies: seq<Body>, k: nat) returns (j: nat)
    ensures WholeThenPart(bodies, Readable(bodies, k), j)
  {
    j := 0;
    if bodies != [] && bodies[0] != [] {
      var head := |EncodeVarint(|bodies[0]|)|;
      if k >= head + |bodies[0]| {
        var more := Readable(bodies[1..], k - head - |bodies[0]|);
        var i := ReadableShape(bodies[1..], k - head - |bodies[0]|);
        assert ([bodies[0]] + more)[..i + 1] == [bodies[0]] + more[..i];
        assert bodies[..i + 1] == [bodies[0]] + bodies[1..][..i];
        j := i + 1;
      }
    }
  }

  /** An encoding of more than `left` bytes is given up. */
  lemma {:induction false} ReadTooLong(v: nat, rest: seq<Byte>, left: nat)
    requires 1 <= left < |EncodeVarint(v)|
    ensures ReadVarint(EncodeVarint(v) + rest, left) == TooLong
  {
    var s := EncodeVarint(v) + rest;
    if left > 1 {
      assert s[1..] == EncodeVarint(v / 128) + rest;
      ReadTooLong(v / 128, rest, left - 1);
    }
  }

  /** Lengths that a varint of ten bytes can hold, but that are read as negative numbers. */
  predicate ReadAsNegative(n: nat) {
    MAX_INT64 < n < Pow2(70)
  }

  /**
   * Sizes are cut to 32 bits, and a negative size reads everything: a message is read
   * back iff its length is between 1 and 2^32 - 1, or it is the last one and its length
   * is read as a negative number.
   */
  lemma MessageRoundTripIff(body: Body, rest: seq<Byte>)
    ensures MessageOf(EncodeMessage(body) + rest) == Message(body, |EncodeMessage(body)|)
            <==> 1 <= |body| < WORD32 || (ReadAsNegative(|body|) && rest == [])
  {
    var head := EncodeVarint(|body|);
    assert EncodeMessage(body) + rest == head + body + rest == head + (body + rest);
    assert (head + (body + rest))[|head|..] == body + rest;
    PowerOf63();
    if |body| < WORD32 {
      ReadWholeBody(body, rest);
    } else {
      EncodedLength(|body|, MAX_BYTES);
      Pow2Monotone(63, 70);
      if |body| < Pow2(70) {
        ReadWritten(|body|, body + rest, MAX_BYTES);
        LongBody(body, rest);
      } else {
        ReadTooLong(|body|, body + rest, MAX_BYTES);
      }
    }
  }

  lemma LongBody(body: Body, rest: seq<Byte>)
    requires |body| >= WORD32
    ensures Narrow(|body|) >= 0 ==> |UpTo(body + rest, Narrow(|body|))| < |body|
    ensures Narrow(|body|) < 0 ==> UpTo(body + rest, Narrow(|body|)) == body + rest
    ensures Narrow(|body|) < 0 <==> |body| > MAX_INT64
    ensures body + rest == body <==> rest == []
  {
    assert |body + rest| == |body| + |rest|;
  }

  // ---------------------------------------------------------------- the files

  class InFile {
    const data: seq<Byte>
    var pos: nat

    ghost predicate Valid()
      reads this
    {
      pos <= |data|
    }

    function Rest(): seq<Byte>
      requires Valid()
      reads this
    {
      data[pos..]
    }

    constructor (data: seq<Byte>)
      ensures Valid() && Rest() == data
    {
      this.data := data;
      pos := 0;
    }

    method Read(size: int) returns (buf: seq<Byte>)
      requires Valid()
      modifies this
      ensures Valid()
      ensures buf == UpTo(old(Rest()), size)
      ensures pos == old(pos) + |buf|
    {
      var end := if 0 <= size < |data| - pos then pos + size else |data|;
      buf := data[pos..end];
      pos := end;
    }

    /** Reads one varint; whatever it has read is consumed, also when it gives up. */
    method DecodeVarint32() returns (r: Varint)
      requires Valid()
      modifies this
      ensures Valid()
      ensures r == VarintOf(old(Rest()))
      ensures r.Value? ==> pos == old(pos) + r.used
      ensures r.EndOfFile? ==> pos == |data|
      ensures r.TooLong? ==> pos == old(pos) + MAX_BYTES
    {
      var result, shift, n := 0, 0, 0;
      ghost var s := Rest();
      while true
        invariant Valid() && n < MAX_BYTES && shift == 7 * n
        invariant pos == old(pos) + n && n <= |s| && Rest() == s[n..]
        invariant AllContinue(s[..n]) && result == Number(s[..n])
        decreases MAX_BYTES - n
      {
        ReadDigits(s, n, MAX_BYTES);
        var c := Read(1);
        if |c| == 0 {
          return EndOfFile;
        }
        var b := c[0];
        TakeNext(s, n);
        var more;
        result, more := CollectDigit(result, b, shift, s[..n]);
        n := n + 1;
        if !more {
          var value := Finish(result);
          return Value(value, n);
        }
        shift := shift + 7;
        if shift >= 64 {
          return TooLong;
        }
      }
    }

    /** Reads one message; None when there is no further one. */
    method DecodeMessage() returns (body: Option<Body>)
      requires Valid()
      modifies this
      ensures Valid()
      ensures pos >= old(pos)
      ensures match MessageOf(old(Rest()))
              case NoMessage => body == None
              case Message(b, used) => body == Some(b) && Rest() == old(Rest())[used..] && pos > old(pos)
    {
      var size := DecodeVarint32();
      if !size.Value? || size.value == 0 {
        return None;
      }
      var buf := Read(size.value);
      return Some(buf);
    }

    /** The loop of the trace readers: messages until there is no further one. */
    method ReadAll() returns (bodies: seq<Body>)
      requires Valid()
      modifies this
      ensures Valid()
      ensures bodies == DecodeAll(old(Rest()))
    {
      bodies := [];
      var body := DecodeMessage();
      while body.Some?
        invariant Valid()
        invariant DecodeAll(old(Rest())) == bodies + Pending(body, Rest())
        decreases |data| - pos, body.Some?
      {
        ghost var rest := Rest();
        Append(bodies, body.value, DecodeAll(rest));
        bodies := bodies + [body.value];
        body := DecodeMessage();
        assert Pending(body, Rest()) == DecodeAll(rest);
      }
    }
  }

  class OutFile {
    var data: seq<Byte>

    constructor ()
      ensures data == []
    {
      data := [];
    }

    method Write(bytes: seq<Byte>)
      modifies this
      ensures data == old(data) + bytes
    {
      data := data + bytes;
    }

    method EncodeVarint32(v: nat)
      modifies this
      ensures data == old(data) + EncodeVarint(v)
    {
      var bits, value := LowDigit(v);
      while value != 0
        invariant bits < 128
        invariant data + EncodeVarint(bits + 128 * value) == old(data) + EncodeVarint(v)
        decreases value
      {
        ghost var here, todo := data, bits + 128 * value;
        var byte := Continued(bits);
        Write([byte]);
        EncodedInTwo(here, todo);
        bits, value := LowDigit(value);
      }
      Write([bits]);
    }

    method WriteMessage(body: Body)
      modifies this
      ensures data == old(data) + EncodeMessage(body)
    {
      EncodeVarint32(|body|);
      Write(body);
    }

    /** Writing the messages one after the other makes the stream that is read back. */
    method WriteAll(bodies: seq<Body>)
      modifies this
      ensures data == old(data) + EncodeAll(bodies)
    {
      var i := 0;
      while i < |bodies|
        invariant i <= |bodies|
        invariant data + EncodeAll(bodies[i..]) == old(data) + EncodeAll(bodies)
      {
        ghost var here := data;
        WriteMessage(bodies[i]);
        assert bodies[i..][1..] == bodies[i + 1..];
        assert here + (EncodeMessage(bodies[i]) + EncodeAll(bodies[i + 1..])) == data + EncodeAll(bodies[i + 1..]);
        i := i + 1;
      }
    }
  }

  method LowDigit(v: nat) returns (bits: Byte, value: nat)
    ensures bits == v % 128 && value == v / 128
  {
    AndLowBits(v, 7);
    assert Pow2(7) == 128;
    bits := BitAnd(v, 0x7F);
    value := v / Pow2(7);
  }

  method Continued(bits: Byte) returns (byte: Byte)
    requires bits < 128
    ensures byte == 128 + bits
  {
    assert Pow2(7) == 128;
    OrShifted(bits, 1, 7);
    OrCommutes(0x80, bits);
    byte := BitOr(0x80, bits);
  }

  lemma EncodedInTwo(here: seq<Byte>, v: nat)
    requires v >= 128
    ensures here + EncodeVarint(v) == (here + [128 + v % 128]) + EncodeVarint(v / 128)
  {
  }

  lemma Append(bodies: seq<Body>, body: Body, rest: seq<Body>)
    ensures bodies + ([body] + rest) == (bodies + [body]) + rest
  {
  }

  ghost function Pending(body: Option<Body>, rest: seq<Byte>): seq<Body> {
    match body
    case None => []
    case Some(b) => [b] + DecodeAll(rest)
  }

  /** The base-128 number whose digits, least significant first, are the low seven bits of the bytes. */
  function Number(digits: seq<Byte>): nat {
    if digits == [] then 0 else digits[0] % 128 + 128 * Number(digits[1..])
  }

  lemma {:induction false} NumberBound(digits: seq<Byte>)
    ensures Number(digits) < Pow2(7 * |digits|)
  {
    if digits != [] {
      NumberBound(digits[1..]);
      Pow2Sum(7, 7 * |digits[1..]|);
      assert Pow2(7) == 128;
    }
  }

  lemma {:induction false} NumberAppend(digits: seq<Byte>, b: Byte)
    ensures Number(digits + [b]) == Number(digits) + (b % 128) * Pow2(7 * |digits|)
  {
    if digits == [] {
      assert Number([b]) == b % 128 + 128 * Number([b][1..]);
    } else {
      var more := digits[1..];
      assert (digits + [b])[1..] == more + [b];
      NumberAppend(more, b);
      Pow2Sum(7, 7 * |more|);
      assert Pow2(7) == 128;
      Distribute(Number(more), b % 128, Pow2(7 * |more|));
    }
  }

  lemma Distribute(x: nat, d: nat, p: nat)
    ensures 128 * (x + d * p) == 128 * x + d * (128 * p)
  {
  }

  lemma TakeNext(s: seq<Byte>, n: nat)
    requires n < |s|
    ensures s[..n + 1] == s[..n] + [s[n]]
  {
  }

  ghost predicate AllContinue(digits: seq<Byte>) {
    forall i :: 0 <= i < |digits| ==> digits[i] >= 128
  }

  /** What reading finds behind n bytes that all ask for more. */
  lemma {:induction false} ReadDigits(s: seq<Byte>, n: nat, left: nat)
    requires n <= |s| && n < left && AllContinue(s[..n])
    ensures n == |s| ==> ReadVarint(s, left) == EndOfFile
    ensures n < |s| && s[n] < 128 ==> ReadVarint(s, left) == Value(Number(s[..n + 1]), n + 1)
    ensures n < |s| && s[n] >= 128 && n + 1 == left ==> ReadVarint(s, left) == TooLong
  {
    if n == 0 {
      if s != [] && s[0] < 128 {
        assert s[..1] == [s[0]] && Number([s[0]]) == s[0] + 128 * Number([s[0]][1..]);
      }
    } else {
      assert s[0] == s[..n][0];
      assert AllContinue(s[1..][..n - 1]) by { assert s[1..][..n - 1] == s[..n][1..]; }
      ReadDigits(s[1..], n - 1, left - 1);
      if n < |s| {
        assert s[..n + 1][1..] == s[1..][..n];
      }
    }
  }

  /** Masking, shifting and bitwise-or append a digit. */
  method CollectDigit(result: nat, b: Byte, shift: nat, ghost digits: seq<Byte>) returns (r: nat, more: bool)
    requires result == Number(digits) && shift == 7 * |digits|
    ensures r == Number(digits + [b])
    ensures more <==> b >= 128
  {
    var shifted := ShiftedDigit(b, shift, digits);
    r := BitOr(result, shifted);
    more := AsksForMore(b);
  }

  /** The digit, moved behind those collected so far. */
  method ShiftedDigit(b: Byte, shift: nat, ghost digits: seq<Byte>) returns (shifted: nat)
    requires shift == 7 * |digits|
    ensures BitOr(Number(digits), shifted) == Number(digits + [b])
  {
    var digit := DigitOf(b);
    shifted := digit * Pow2(shift);
    AppendShifted(digits, b, digit, shift);
  }

  lemma AppendShifted(digits: seq<Byte>, b: Byte, digit: nat, shift: nat)
    requires digit == b % 128 && shift == 7 * |digits|
    ensures BitOr(Number(digits), digit * Pow2(shift)) == Number(digits + [b])
  {
    AppendDigit(digits, b);
  }

  lemma AppendDigit(digits: seq<Byte>, b: Byte)
    ensures BitOr(Number(digits), (b % 128) * Pow2(7 * |digits|)) == Number(digits + [b])
  {
    NumberBound(digits);
    NumberAppend(digits, b);
    OrShifted(Number(digits), b % 128, 7 * |digits|);
  }

  method DigitOf(b: Byte) returns (digit: nat)
    ensures digit == b % 128
  {
    AndLowBits(b, 7);
    assert Pow2(7) == 128;
    digit := BitAnd(b, 0x7F);
  }

  method AsksForMore(b: Byte) returns (more: bool)
    ensures more <==> b >= 128
  {
    AndOneBit(b, 7);
    assert Pow2(7) == 128;
    more := BitAnd(b, 0x80) != 0;
  }

  /** Bitwise-or with all bits but the low 32 set, in two's complement. */
  function SetHighBits(x: int): int {
    x % WORD32 - WORD32
  }

  method Finish(result: nat) returns (value: int)
    ensures value == Narrow(result)
  {
    if result > MAX_INT64 {
      assert (result - TWO_64) % WORD32 == result % WORD32;
      value := SetHighBits(result - TWO_64);
    } else {
      PowerOf32();
      AndLowBits(result, 32);
      value := BitAnd(result, 0xFFFF_FFFF);
    }
  }
}
