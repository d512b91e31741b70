module Wrappers {
  datatype Option<+T> = None | Some(value: T)

  /** `a` is `b` with elements left out. */
  predicate Subsequence<T(==)>(a: seq<T>, b: seq<T>) {
    a == [] || (b != [] && if a[0] == b[0] then Subsequence(a[1..], b[1..]) else Subsequence(a, b[1..]))
  }

  lemma {:induction false} SubsequenceSkip<T>(a: seq<T>, b: seq<T>, x: T)
    requires Subsequence(a, b)
    ensures Subsequence(a, [x] + b)
    decreases |a| + |b|, 1
  {
    assert ([x] + b)[1..] == b;
    if a != [] && a[0] == x {
      DropHead(a, b);
    }
  }

  lemma {:induction false} DropHead<T>(a: seq<T>, b: seq<T>)
    requires a != [] && Subsequence(a, b)
    ensures Subsequence(a[1..], b)
    decreases |a| + |b|, 0
  {
    assert [b[0]] + b[1..] == b;
    if a[0] != b[0] {
      DropHead(a, b[1..]);
    }
    SubsequenceSkip(a[1..], b[1..], b[0]);
  }

  /** Both grow by c, or only the longer one. */
  lemma {:induction false} SubsequenceGrows<T>(a: seq<T>, b: seq<T>, c: seq<T>, d: seq<T>)
    requires Subsequence(a, b) && (c == [] || c == d)
    ensures Subsequence(a + c, b + d)
    decreases |b| + |d|
  {
    if b == [] {
      assert a + c == c && b + d == d;
      if c != [] {
        SubsequenceGrows([], [], c[1..], c[1..]);
        assert [] + c[1..] == c[1..];
      }
    } else if a != [] && a[0] == b[0] {
      SubsequenceGrows(a[1..], b[1..], c, d);
      assert (a + c)[1..] == a[1..] + c && (b + d)[1..] == b[1..] + d;
    } else {
      SubsequenceGrows(a, b[1..], c, d);
      SubsequenceSkip(a + c, b[1..] + d, b[0]);
      assert [b[0]] + (b[1..] + d) == b + d;
    }
  }

  lemma Regroup<T>(a: seq<T>, b: seq<T>, c: seq<T>)
    ensures a + (b + c) == (a + b) + c
  {
  }
}
