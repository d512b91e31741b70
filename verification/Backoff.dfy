/** Reconnect backoff of `Run` (internal/node/connection.go): durations are int64
    nanoseconds and the doubling wraps. */
module Backoff {
  const TWO62 := 0x4000_0000_0000_0000
  const TWO63 := 0x8000_0000_0000_0000

  type Int64 = x: int | -TWO63 <= x < TWO63

  datatype Outcome = DialFails | Drops

  /** int64 overflow of a doubling */
  function Wrap(x: int): Int64
    requires -2 * TWO63 <= x < 2 * TWO63
  {
    if x >= TWO63 then x - 2 * TWO63 else if x < -TWO63 then x + 2 * TWO63 else x
  }

  function Min(a: int, b: int): int {
    if a < b then a else b
  }

  function Doubled(b: Int64, max: Int64): Int64 {
    Min(Wrap(2 * b), max)
  }

  /** The variable `backoff` after some outcomes. */
  function After(base: Int64, max: Int64, os: seq<Outcome>): Int64 {
    if os == [] then base
    else Doubled(if os[|os| - 1].Drops? then base else After(base, max, os[..|os| - 1]), max)
  }

  /** How long the i-th outcome makes the loop wait. */
  function Wait(base: Int64, max: Int64, os: seq<Outcome>, i: nat): Int64
    requires i < |os|
  {
    if os[i].Drops? then base else After(base, max, os[..i])
  }

  function Pow2(k: nat): (p: nat)
    ensures p >= 1
  {
    if k == 0 then 1 else 2 * Pow2(k - 1)
  }

  /** Failed dials in a row up to i: counted from the last drop, or from start-up
      without the first. */
  function Exponent(os: seq<Outcome>, i: nat): nat
    requires i < |os|
  {
    if os[i].Drops? || i == 0 then 0 else Exponent(os, i - 1) + 1
  }

  /** The k-th failed dial in a row has exponent k - 1 from start-up and k after a
      dropped connection. */
  lemma {:induction false} ExponentCounts(os: seq<Outcome>, from: nat, i: nat)
    requires from <= i < |os| && forall j :: from < j <= i ==> os[j].DialFails?
    requires from == 0 || os[from].Drops?
    ensures Exponent(os, i) == i - from
    decreases i
  {
    if i > from {
      ExponentCounts(os, from, i - 1);
    }
  }

  predicate Sane(base: Int64, max: Int64) {
    1 <= base <= max
  }

  function Capped(base: Int64, max: Int64, e: nat): int {
    Min(base * Pow2(e), max)
  }

  lemma CapDoubles(base: Int64, max: Int64, e: nat)
    requires Sane(base, max) && max < TWO62
    ensures base <= Capped(base, max, e) <= max
    ensures Wrap(2 * Capped(base, max, e)) == 2 * Capped(base, max, e)
    ensures Doubled(Capped(base, max, e), max) == Capped(base, max, e + 1)
  {
    assert base * Pow2(e) >= base * 1;
    assert base * (2 * Pow2(e)) == 2 * (base * Pow2(e));
    DoubleMin(base, max, base * Pow2(e));
  }

  lemma DoubleMin(base: Int64, max: Int64, v: nat)
    requires Sane(base, max) && max < TWO62 && base <= v
    ensures base <= Min(v, max) <= max && Wrap(2 * Min(v, max)) == 2 * Min(v, max)
    ensures Doubled(Min(v, max), max) == Min(2 * v, max)
  {
  }

  /** Every wait is min(base * 2^k, max), within [base, max], and no doubling wraps. */
  lemma {:induction false} ClosedForm(base: Int64, max: Int64, os: seq<Outcome>, i: nat)
    requires Sane(base, max) && max < TWO62 && i < |os|
    ensures Wait(base, max, os, i) == Capped(base, max, Exponent(os, i))
    ensures base <= Wait(base, max, os, i) <= max
    ensures Wrap(2 * Wait(base, max, os, i)) == 2 * Wait(base, max, os, i)
    decreases i
  {
    CapDoubles(base, max, Exponent(os, i));
    if os[i].DialFails? && i > 0 {
      ClosedForm(base, max, os, i - 1);
      CapDoubles(base, max, Exponent(os, i - 1));
      assert os[..i][..i - 1] == os[..i - 1];
    }
  }

  ghost predicate AlwaysInRange(base: Int64, max: Int64) {
    forall os: seq<Outcome>, i: nat :: i < |os| ==> base <= Wait(base, max, os, i) <= max
  }

  /** n failed dials in a row */
  function Fails(n: nat): seq<Outcome> {
    seq(n, _ => DialFails)
  }

  /** From any reachable backoff, enough failed dials reach the wrapping half. */
  lemma {:induction false} Overflows(base: Int64, max: Int64, n: nat) returns (m: nat)
    requires Sane(base, max) && max >= TWO62
    requires base <= After(base, max, Fails(n)) <= max
    ensures After(base, max, Fails(m)) < 0
    decreases max - After(base, max, Fails(n))
  {
    assert Fails(n + 1)[..n] == Fails(n);
    var b := After(base, max, Fails(n));
    if b >= TWO62 {
      m := n + 1;
    } else if 2 * b >= max {
      assert After(base, max, Fails(n + 1)) == max;
      assert Fails(n + 2)[..n + 1] == Fails(n + 1);
      m := n + 2;
    } else {
      m := Overflows(base, max, n + 1);
    }
  }

  /** The waits stay within [base, max] on every run exactly when the configured
      maximum is below 2^62 nanoseconds. */
  lemma InRangeIff(base: Int64, max: Int64)
    requires Sane(base, max)
    ensures AlwaysInRange(base, max) <==> max < TWO62
  {
    if max < TWO62 {
      forall os: seq<Outcome>, i: nat | i < |os| ensures base <= Wait(base, max, os, i) <= max {
        ClosedForm(base, max, os, i);
      }
    } else {
      var m := Overflows(base, max, 0);
      assert Fails(m + 1)[..m] == Fails(m);
      assert Wait(base, max, Fails(m + 1), m) < base;
    }
  }

  /** The loop of `Run`, with dial results as input and the waits as output. */
  method Run(base: Int64, max: Int64, os: seq<Outcome>) returns (waits: seq<Int64>)
    ensures |waits| == |os| && forall i :: 0 <= i < |os| ==> waits[i] == Wait(base, max, os, i)
    ensures Sane(base, max) && max < TWO62 ==>
              forall i :: 0 <= i < |os| ==> waits[i] == Capped(base, max, Exponent(os, i))
  {
    var backoff := base;
    waits := [];
    for i := 0 to |os|
      invariant |waits| == i && backoff == After(base, max, os[..i])
      invariant forall j :: 0 <= j < i ==> waits[j] == Wait(base, max, os, j)
    {
      assert os[..i + 1][..i] == os[..i];
      if os[i].Drops? {
        backoff := base;
      }
      waits := waits + [backoff];
      backoff := Min(Wrap(2 * backoff), max);
    }
    assert os[..|os|] == os;
    if Sane(base, max) && max < TWO62 {
      forall i | 0 <= i < |os| ensures waits[i] == Capped(base, max, Exponent(os, i)) {
        ClosedForm(base, max, os, i);
      }
    }
  }
}
