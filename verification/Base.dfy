/** Machine integers and the optional value shared by every other module. */
module Base {

  datatype Option<+T> = None | Some(value: T)

  const TWO_63: int := 0x8000_0000_0000_0000
  const TWO_64: int := 0x1_0000_0000_0000_0000

  // Go's int64: amounts and balances.
  type int64 = x: int | -0x8000_0000_0000_0000 <= x < 0x8000_0000_0000_0000

  // Go's uint64: receipt sequence numbers.
  type uint64 = x: int | 0 <= x < 0x1_0000_0000_0000_0000

  /** Two's-complement wrap-around: add or subtract 2^64 until the value fits in 64 bits. */
  function Wrap64(x: int): (r: int64)
    decreases if -TWO_63 <= x < TWO_63 then 0 else if x < 0 then -x else x
  {
    if x >= TWO_63 then Wrap64(x - TWO_64)
    else if x < -TWO_63 then Wrap64(x + TWO_64)
    else x
  }

  lemma WrapShift(x: int)
    ensures Wrap64(x + TWO_64) == Wrap64(x)
  {
    if x >= -TWO_63 {
      assert Wrap64(x + TWO_64) == Wrap64(x + TWO_64 - TWO_64);
    }
  }

  /** Wrapping at every step of a calculation is the same as wrapping once at the end. */
  lemma {:induction false} WrapAdd(x: int, d: int)
    ensures Wrap64(Wrap64(x) + d) == Wrap64(x + d)
    decreases if -TWO_63 <= x < TWO_63 then 0 else if x < 0 then -x else x
  {
    if x >= TWO_63 {
      WrapAdd(x - TWO_64, d);
      WrapShift(x - TWO_64 + d);
    } else if x < -TWO_63 {
      WrapAdd(x + TWO_64, d);
      WrapShift(x + d);
    }
  }

  /** WrapAdd for a running total: a wrapped value moved from m to m' keeps tracking base + m'. */
  lemma WrapChain(base: int, m: int, m': int, before: int, after: int)
    requires before == Wrap64(base + m) && after == Wrap64(before + m' - m)
    ensures after == Wrap64(base + m')
  {
    WrapAdd(base + m, m' - m);
  }

  lemma {:induction false} SubsetSize<T>(a: set<T>, b: set<T>)
    requires a <= b
    ensures |a| <= |b|
  {
    if x :| x in a {
      SubsetSize(a - {x}, b - {x});
    }
  }
}
