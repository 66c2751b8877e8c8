/**
 * Connecting the compute units of a GPU to the coalescers of the first-level
 * TLBs: which coalescer a unit's translation port goes to, and which of its
 * ports it takes.
 */
module GpuTlb {
  import opened Wrappers
  import opened Bits

  datatype Connection = Connection(cu: nat, port: nat, coalescer: int, side: int)

  datatype Error = ZeroDivision

  /** The quotient and remainder of the script, as exact fractions, truncated where they are printed. */
  function SharedCoalescer(cu: nat, units: nat, tlbs: nat): int
    requires 0 < tlbs && 0 < units
  {
    (cu as real / (units as real / tlbs as real)).Floor
  }

  function SharedSide(cu: nat, units: nat, tlbs: nat): int
    requires 0 < tlbs && 0 < units
  {
    var share := units as real / tlbs as real;
    (cu as real - share * (cu as real / share).Floor as real).Floor
  }

  lemma MulLess(a: int, b: int, m: int)
    requires a < b && m > 0
    ensures (a + 1) * m <= b * m
  {
  }

  lemma QuotientUnique(x: int, m: int, q: int)
    requires m > 0 && q * m <= x < (q + 1) * m
    ensures q == x / m
  {
    var d := x / m;
    assert d * m <= x < (d + 1) * m;
    if q < d {
      MulLess(q, d, m);
    } else if d < q {
      MulLess(d, q, m);
    }
  }

  lemma ScaledFraction(cu: nat, units: nat, tlbs: nat, x: real)
    requires 0 < tlbs && 0 < units && x == cu as real / (units as real / tlbs as real)
    ensures x * units as real == (cu * tlbs) as real
  {
    var share := units as real / tlbs as real;
    assert share * tlbs as real == units as real && x * share == cu as real;
    assert x * (share * tlbs as real) == (x * share) * tlbs as real;
    assert (cu * tlbs) as real == cu as real * tlbs as real;
  }

  lemma ScaleBounds(q: int, x: real, m: nat, z: int)
    requires m > 0 && q as real <= x < (q + 1) as real && x * m as real == z as real
    ensures q * m <= z < (q + 1) * m
  {
    assert q as real * m as real <= x * m as real;
    assert x * m as real < (q + 1) as real * m as real;
    assert (q * m) as real == q as real * m as real;
    assert ((q + 1) * m) as real == (q + 1) as real * m as real;
  }

  /** In whole numbers. */
  lemma CoalescerIs(cu: nat, units: nat, tlbs: nat)
    requires 0 < tlbs && 0 < units
    ensures SharedCoalescer(cu, units, tlbs) == cu * tlbs / units
  {
    var x := cu as real / (units as real / tlbs as real);
    ScaledFraction(cu, units, tlbs, x);
    ScaleBounds(x.Floor, x, units, cu * tlbs);
    QuotientUnique(cu * tlbs, units, x.Floor);
  }

  lemma ScaledRest(cu: nat, units: nat, tlbs: nat, q: int, rest: real)
    requires 0 < tlbs && 0 < units && rest == cu as real - (units as real / tlbs as real) * q as real
    ensures rest * tlbs as real == (cu * tlbs - q * units) as real
  {
    var share := units as real / tlbs as real;
    assert share * tlbs as real == units as real;
    assert (share * q as real) * tlbs as real == (share * tlbs as real) * q as real;
    assert (cu * tlbs) as real == cu as real * tlbs as real && (q * units) as real == q as real * units as real;
  }

  lemma SideIs(cu: nat, units: nat, tlbs: nat)
    requires 0 < tlbs && 0 < units
    ensures SharedSide(cu, units, tlbs) == (cu * tlbs) % units / tlbs
  {
    CoalescerIs(cu, units, tlbs);
    var q := SharedCoalescer(cu, units, tlbs);
    var rest := cu as real - (units as real / tlbs as real) * q as real;
    ScaledRest(cu, units, tlbs, q, rest);
    var z := cu * tlbs - q * units;
    assert z == (cu * tlbs) % units by { assert q * units == units * (cu * tlbs / units); }
    ScaleBounds(rest.Floor, rest, tlbs, z);
    QuotientUnique(z, tlbs, rest.Floor);
  }

  lemma NextQuotient(x: nat, units: nat, tlbs: nat)
    requires 0 < tlbs <= units
    ensures || ((x + tlbs) / units == x / units && (x + tlbs) % units / tlbs == x % units / tlbs + 1)
            || ((x + tlbs) / units == x / units + 1 && (x + tlbs) % units / tlbs == 0)
  {
    var q, r := x / units, x % units;
    if r + tlbs < units {
      RemainderUnique(x + tlbs, units, q, r + tlbs);
      PortStep(r, tlbs);
    } else {
      NextMultiple(units, q);
      RemainderUnique(x + tlbs, units, q + 1, r + tlbs - units);
      RemainderUnique(r + tlbs - units, tlbs, 0, r + tlbs - units);
    }
  }

  lemma NextMultiple(m: int, q: int)
    ensures m * (q + 1) == m * q + m
  {
  }

  lemma PortStep(r: nat, t: nat)
    requires t > 0
    ensures (r + t) / t == r / t + 1
  {
    NextMultiple(t, r / t);
    RemainderUnique(r + t, t, r / t + 1, r % t);
  }

  /** The connection of a unit that shares a coalescer with others. */
  function Shared(cu: nat, units: nat, tlbs: nat): Connection
    requires 0 < tlbs && 0 < units
  {
    Connection(cu, 0, SharedCoalescer(cu, units, tlbs), SharedSide(cu, units, tlbs))
  }

  /** Connection b takes the next port of the same coalescer, or port 0 of the next one. */
  predicate Follows(a: Connection, b: Connection) {
    || (b.coalescer == a.coalescer && b.side == a.side + 1)
    || (b.coalescer == a.coalescer + 1 && b.side == 0)
  }

  lemma NextUnit(cu: nat, units: nat, tlbs: nat)
    requires 0 < tlbs <= units
    ensures Follows(Shared(cu, units, tlbs), Shared(cu + 1, units, tlbs))
  {
    CoalescerIs(cu, units, tlbs);
    CoalescerIs(cu + 1, units, tlbs);
    SideIs(cu, units, tlbs);
    SideIs(cu + 1, units, tlbs);
    assert (cu + 1) * tlbs == cu * tlbs + tlbs;
    NextQuotient(cu * tlbs, units, tlbs);
  }

  /** Ports are taken in order, each coalescer's from 0 on without a gap. */
  predicate InOrder(conns: seq<Connection>) {
    && (conns != [] ==> conns[0].coalescer == 0 && conns[0].side == 0)
    && forall i :: 0 < i < |conns| ==> Follows(conns[i - 1], conns[i])
  }

  predicate Earlier(a: Connection, b: Connection) {
    a.coalescer < b.coalescer || (a.coalescer == b.coalescer && a.side < b.side)
  }

  /** No two connections take the same port of the same coalescer. */
  lemma {:induction false} PortsAreDistinct(conns: seq<Connection>, i: nat, j: nat)
    requires InOrder(conns) && i < j < |conns|
    ensures Earlier(conns[i], conns[j])
    ensures 0 <= conns[i].coalescer <= conns[j].coalescer && 0 <= conns[i].side
  {
    if i + 1 < j {
      PortsAreDistinct(conns, i, j - 1);
      assert Follows(conns[j - 1], conns[j]);
    } else if i > 0 {
      PortsAreDistinct(conns, i - 1, i);
    }
  }

  lemma LastCoalescer(units: nat, tlbs: nat)
    requires 0 < tlbs <= units
    ensures SharedCoalescer(units - 1, units, tlbs) < tlbs
  {
    CoalescerIs(units - 1, units, tlbs);
    var q := (units - 1) * tlbs / units;
    assert q * units <= (units - 1) * tlbs < tlbs * units;
    if q >= tlbs {
      Monotone(tlbs, q, units);
    }
  }

  lemma Monotone(a: int, b: int, m: nat)
    requires a <= b
    ensures a * m <= b * m
  {
  }

  /** Ports of a unit: one, or one for each TLB of its own. */
  function PortsPerUnit(units: nat, tlbs: nat): (n: nat)
    requires units > 0
    ensures n > 0
  {
    if tlbs < units then 1 else tlbs / units
  }

  predicate InRange(conns: seq<Connection>, tlbs: nat) {
    forall i :: 0 <= i < |conns| ==> conns[i].coalescer < tlbs
  }

  predicate AllPorts(conns: seq<Connection>, units: nat, perUnit: nat)
    requires perUnit > 0
  {
    && |conns| == units * perUnit
    && forall i :: 0 <= i < |conns| ==> conns[i].cu == i / perUnit && conns[i].port == i % perUnit
  }

  /** Every port of every unit, in order, is connected to an existing coalescer. */
  predicate Wired(conns: seq<Connection>, units: nat, tlbs: nat)
    requires units > 0
  {
    InOrder(conns) && InRange(conns, tlbs) && AllPorts(conns, units, PortsPerUnit(units, tlbs))
  }

  /** Connects all units; there must be some, and a TLB for them. */
  method ConnectUnits(units: nat, tlbs: nat) returns (r: Result<seq<Connection>, Error>)
    ensures r.Err? <==> units == 0 || tlbs == 0
    ensures r.Ok? ==> Wired(r.value, units, tlbs)
  {
    if units == 0 || tlbs == 0 {
      return Err(ZeroDivision);
    }
    var perUnit := tlbs / units;
    ZeroQuotient(tlbs, units);
    var conns;
    if perUnit == 0 {
      conns := ConnectShared(units, tlbs);
    } else {
      conns := ConnectPrivate(units, tlbs, perUnit);
    }
    return Ok(conns);
  }

  /** Units that share a coalescer. */
  method ConnectShared(units: nat, tlbs: nat) returns (conns: seq<Connection>)
    requires 0 < tlbs < units
    ensures Wired(conns, units, tlbs)
  {
    conns := [];
    for cu := 0 to units
      invariant |conns| == cu && InOrder(conns)
      invariant forall i :: 0 <= i < cu ==> conns[i] == Shared(i, units, tlbs)
    {
      if cu == 0 {
        FirstUnit(units, tlbs);
      } else {
        NextUnit(cu - 1, units, tlbs);
      }
      conns := conns + [Shared(cu, units, tlbs)];
    }
    LastCoalescer(units, tlbs);
    forall i | 0 <= i < |conns| ensures conns[i].coalescer < tlbs {
      if i < units - 1 {
        PortsAreDistinct(conns, i, units - 1);
      }
    }
  }

  lemma ZeroQuotient(t: nat, n: nat)
    requires n > 0
    ensures t / n == 0 <==> t < n
  {
  }

  lemma FirstUnit(units: nat, tlbs: nat)
    requires 0 < tlbs && 0 < units
    ensures Shared(0, units, tlbs) == Connection(0, 0, 0, 0)
  {
    CoalescerIs(0, units, tlbs);
    SideIs(0, units, tlbs);
    assert 0 * tlbs == 0 && 0 / tlbs == 0;
  }

  /** Units with TLBs of their own: port `tlb` of a unit goes to port 0 of coalescer cu * perUnit + tlb. */
  /** The first `n` connections, `perUnit` to a unit. */
  ghost predicate WiredInOrder(conns: seq<Connection>, perUnit: nat)
    requires perUnit > 0
  {
    forall i :: 0 <= i < |conns| ==> conns[i] == Connection(i / perUnit, i % perUnit, i, 0)
  }

  /** Connecting the private TLBs of one unit. */
  method ConnectUnit(start: seq<Connection>, cu: nat, perUnit: nat) returns (conns: seq<Connection>)
    requires perUnit > 0 && |start| == cu * perUnit && WiredInOrder(start, perUnit)
    ensures |conns| == |start| + perUnit && WiredInOrder(conns, perUnit)
  {
    conns := start;
    for tlb := 0 to perUnit
      invariant |conns| == |start| + tlb && WiredInOrder(conns, perUnit)
    {
      RemainderUnique(cu * perUnit + tlb, perUnit, cu, tlb);
      conns := conns + [Connection(cu, tlb, cu * perUnit + tlb, 0)];
    }
  }

  method ConnectPrivate(units: nat, tlbs: nat, perUnit: nat) returns (conns: seq<Connection>)
    requires 0 < units <= tlbs && perUnit == tlbs / units && perUnit > 0
    ensures Wired(conns, units, tlbs)
  {
    conns := [];
    for cu := 0 to units
      invariant |conns| == cu * perUnit && WiredInOrder(conns, perUnit)
    {
      NextMultiple(perUnit, cu);
      conns := ConnectUnit(conns, cu, perUnit);
    }
    assert units * perUnit <= tlbs;
  }
}
