/** Host ports handed out from a fixed range, smallest free port first. */
module Ports {

  datatype Range = Range(lo: int, hi: int)
  {
    predicate Has(p: int) { lo <= p <= hi }
  }

  /** No port lies in both ranges. */
  predicate Apart(r: Range, s: Range)
  {
    r.hi < r.lo || s.hi < s.lo || r.hi < s.lo || s.hi < r.lo
  }

  const SINGLE_RANGE := Range(19000, 19999)
  const PREFILL_RANGE := Range(19000, 19499)
  const DECODE_RANGE := Range(19500, 19999)

  datatype Pool = Pool(range: Range, used: set<int>)
  {
    function Free(): set<int> { set p | range.lo <= p <= range.hi && p !in used }

    ghost predicate Exhausted() { forall p :: range.Has(p) ==> p in used }
  }

  datatype PortResult = Port(port: int) | Exhausted

  /** n ports can be handed out, all of them positive. */
  predicate PortsFor(pool: Pool, n: nat)
  {
    n <= |pool.Free()| && (n > 0 ==> forall p :: p in pool.Free() ==> p > 0)
  }

  lemma FreeAfter(pool: Pool, p: int)
    requires pool.range.Has(p) && p !in pool.used
    ensures var pool' := pool.(used := pool.used + {p});
            pool'.Free() == pool.Free() - {p} && |pool'.Free()| == |pool.Free()| - 1
  {
    assert p in pool.Free();
    assert pool.(used := pool.used + {p}).Free() == pool.Free() - {p};
  }

  class PortAllocator {
    const range: Range
    /** Ports marked as taken. */
    var used: set<int>
    /** Every port ever handed out. */
    ghost var issued: set<int>

    ghost function Now(): Pool
      reads this
    {
      Pool(range, used)
    }

    constructor (range: Range)
      ensures this.range == range && used == {} && issued == {}
    {
      this.range := range;
      used, issued := {}, {};
    }

    method Next() returns (r: PortResult)
      modifies this
      ensures r.Exhausted? <==> forall p :: range.Has(p) ==> p in old(used)
      ensures r.Exhausted? ==> used == old(used) && issued == old(issued)
      ensures r.Port? ==>
                && range.Has(r.port) && r.port !in old(used)
                && (forall p :: range.lo <= p < r.port ==> p in old(used))
                && used == old(used) + {r.port} && issued == old(issued) + {r.port}
    {
      var p := range.lo;
      while p <= range.hi
        invariant forall q :: range.lo <= q < p && q <= range.hi ==> q in used
        invariant range.lo <= p && used == old(used) && issued == old(issued)
        decreases range.hi - p
      {
        if p !in used {
          used, issued := used + {p}, issued + {p};
          return Port(p);
        }
        p := p + 1;
      }
      return Exhausted;
    }

    method Release(p: int)
      modifies this
      ensures used == old(used) - {p} && issued == old(issued)
    {
      used := used - {p};
    }
  }

  // ----- when two allocators can hand out the same port ----------------------------------

  datatype Op = Take | Return(port: int)

  datatype Books = Books(used: set<int>, issued: set<int>)

  /** The smallest free port of the range from `from` on. */
  function FirstFree(range: Range, used: set<int>, from: int): PortResult
    decreases range.hi - from
  {
    if from > range.hi then Exhausted
    else if from !in used then Port(from)
    else FirstFree(range, used, from + 1)
  }

  function Perform(range: Range, b: Books, op: Op): Books
  {
    match op
    case Return(p) => b.(used := b.used - {p})
    case Take =>
      match FirstFree(range, b.used, range.lo)
      case Exhausted => b
      case Port(p) => Books(b.used + {p}, b.issued + {p})
  }

  /** The books of a new allocator after a history of Next and Release calls. */
  function After(range: Range, ops: seq<Op>): Books
  {
    if ops == [] then Books({}, {}) else Perform(range, After(range, ops[..|ops| - 1]), ops[|ops| - 1])
  }

  lemma {:induction false} FirstFreeIs(range: Range, used: set<int>, from: int)
    ensures match FirstFree(range, used, from)
            case Exhausted => forall p :: from <= p <= range.hi ==> p in used
            case Port(p) => from <= p <= range.hi && p !in used && forall q :: from <= q < p ==> q in used
    decreases range.hi - from
  {
    if from <= range.hi && from in used {
      FirstFreeIs(range, used, from + 1);
    }
  }

  /** The allocator keeps exactly these books. */
  method Replay(range: Range, ops: seq<Op>) returns (a: PortAllocator)
    ensures fresh(a) && a.range == range && Books(a.used, a.issued) == After(range, ops)
  {
    a := new PortAllocator(range);
    for k := 0 to |ops|
      invariant fresh(a) && a.range == range && Books(a.used, a.issued) == After(range, ops[..k])
    {
      assert ops[..k + 1][..k] == ops[..k];
      FirstFreeIs(range, a.used, range.lo);
      match ops[k]
      case Take => var _ := a.Next();
      case Return(p) => a.Release(p);
    }
    assert ops[..|ops|] == ops;
  }

  /** Some history of calls hands out p. */
  ghost predicate CanIssue(range: Range, p: int)
  {
    exists ops: seq<Op> :: p in After(range, ops).issued
  }

  lemma {:induction false} IssuedInRange(range: Range, ops: seq<Op>)
    ensures forall p :: p in After(range, ops).issued ==> range.Has(p)
  {
    if ops != [] {
      IssuedInRange(range, ops[..|ops| - 1]);
      FirstFreeIs(range, After(range, ops[..|ops| - 1]).used, range.lo);
    }
  }

  function Takes(n: nat): seq<Op> { seq(n, _ => Take) }

  /** n calls of Next take the first n ports of the range. */
  lemma {:induction false} TakesFill(range: Range, n: nat)
    requires range.lo + n <= range.hi + 1
    ensures forall p :: p in After(range, Takes(n)).used <==> range.lo <= p < range.lo + n
    ensures After(range, Takes(n)).issued == After(range, Takes(n)).used
  {
    if n > 0 {
      TakesFill(range, n - 1);
      assert Takes(n)[..n - 1] == Takes(n - 1);
      var b := After(range, Takes(n - 1));
      FirstFreeIs(range, b.used, range.lo);
      assert range.lo + n - 1 !in b.used;
      assert FirstFree(range, b.used, range.lo) == Port(range.lo + n - 1);
    }
  }

  lemma CanIssueIff(range: Range, p: int)
    ensures CanIssue(range, p) <==> range.Has(p)
  {
    if CanIssue(range, p) {
      var ops: seq<Op> :| p in After(range, ops).issued;
      IssuedInRange(range, ops);
    }
    if range.Has(p) {
      TakesFill(range, p - range.lo + 1);
    }
  }

  /** Two allocators can come to hand out a common port exactly when their ranges meet. */
  lemma CommonPortIff(r: Range, s: Range)
    ensures (exists p :: CanIssue(r, p) && CanIssue(s, p)) <==> !Apart(r, s)
  {
    if p :| CanIssue(r, p) && CanIssue(s, p) {
      CanIssueIff(r, p);
      CanIssueIff(s, p);
    }
    if !Apart(r, s) {
      var p := if r.lo > s.lo then r.lo else s.lo;
      CanIssueIff(r, p);
      CanIssueIff(s, p);
    }
  }

  /** The default single-container range meets both group ranges: a single deployment and a
      prefill replica are given the same host port by their first calls. */
  method DefaultRangesCollide() returns (single: PortResult, prefill: PortResult, decode: PortResult)
    ensures !Apart(SINGLE_RANGE, PREFILL_RANGE) && !Apart(SINGLE_RANGE, DECODE_RANGE)
    ensures Apart(PREFILL_RANGE, DECODE_RANGE)
    ensures single == prefill == Port(19000) && decode == Port(19500)
  {
    var s := new PortAllocator(SINGLE_RANGE);
    var p := new PortAllocator(PREFILL_RANGE);
    var d := new PortAllocator(DECODE_RANGE);
    assert SINGLE_RANGE.Has(19000) && PREFILL_RANGE.Has(19000) && DECODE_RANGE.Has(19500);
    assert 19000 !in s.used && 19000 !in p.used && 19500 !in d.used;
    single := s.Next();
    prefill := p.Next();
    decode := d.Next();
  }
}
