/** List operations shared by several components: comprehension-style
    filtering, the fixed-size batching used for uploads and embedding calls,
    and flattening. */
module Seqs {
  import opened Values

  /** `[x for x in s if p(x)]`. */
  function Filter<T>(s: seq<T>, p: T -> bool): (r: seq<T>)
    ensures |r| <= |s|
    ensures forall i :: 0 <= i < |r| ==> r[i] in s && p(r[i])
    ensures forall i :: 0 <= i < |s| && p(s[i]) ==> s[i] in r
  {
    if s == [] then []
    else if p(s[0]) then [s[0]] + Filter(s[1..], p)
    else Filter(s[1..], p)
  }

  /** Filtering a concatenation filters each part. */
  lemma {:induction false} FilterAppend<T>(a: seq<T>, b: seq<T>, p: T -> bool)
    ensures Filter(a + b, p) == Filter(a, p) + Filter(b, p)
  {
    if a == [] {
      assert a + b == b;
    } else {
      assert (a + b)[1..] == a[1..] + b;
      FilterAppend(a[1..], b, p);
    }
  }

  /** The number of elements satisfying `p`. */
  function Count<T>(s: seq<T>, p: T -> bool): nat
  {
    |Filter(s, p)|
  }

  /** Elements that satisfy `p` and elements that satisfy its negation `q`
      partition the list. */
  lemma {:induction false} CountComplement<T>(s: seq<T>, p: T -> bool, q: T -> bool)
    requires forall x :: q(x) == !p(x)
    ensures Count(s, p) + Count(s, q) == |s|
  {
    if s != [] {
      CountComplement(s[1..], p, q);
    }
  }

  /** The index of the first element satisfying `p`, if any: what a loop
      that stops at the first match finds. */
  function FirstIndex<T>(s: seq<T>, p: T -> bool): (r: Option<nat>)
    ensures r.Some? ==> r.value < |s| && p(s[r.value]) && forall j :: 0 <= j < r.value ==> !p(s[j])
    ensures r.None? ==> forall j :: 0 <= j < |s| ==> !p(s[j])
  {
    if s == [] then None
    else if p(s[0]) then Some(0)
    else match FirstIndex(s[1..], p)
      case None => None
      case Some(k) => Some(k + 1)
  }

  /** Python's `s[:n]` for `n >= 0`. */
  function Prefix<T>(s: seq<T>, n: nat): (r: seq<T>)
    ensures |r| == if n < |s| then n else |s|
    ensures r <= s
  {
    if n < |s| then s[..n] else s
  }

  /** Concatenation of a list of lists. */
  function Flatten<T>(ss: seq<seq<T>>): seq<T>
  {
    if ss == [] then [] else ss[0] + Flatten(ss[1..])
  }

  /** An element is in the concatenation exactly when it is in one of the
      lists. */
  lemma {:induction false} InFlatten<T>(ss: seq<seq<T>>, x: T)
    ensures x in Flatten(ss) <==> exists i :: 0 <= i < |ss| && x in ss[i]
  {
    if ss != [] {
      InFlatten(ss[1..], x);
      assert forall i :: 1 <= i < |ss| ==> ss[i] == ss[1..][i - 1];
      if x in Flatten(ss[1..]) {
        var i :| 0 <= i < |ss[1..]| && x in ss[1..][i];
        assert x in ss[i + 1];
      }
    }
  }

  lemma {:induction false} FlattenAppend<T>(a: seq<seq<T>>, b: seq<seq<T>>)
    ensures Flatten(a + b) == Flatten(a) + Flatten(b)
  {
    if a == [] {
      assert a + b == b;
    } else {
      assert (a + b)[1..] == a[1..] + b;
      FlattenAppend(a[1..], b);
    }
  }

  /** The consecutive slices `s[i:i + size]` for `i` in
      `range(0, len(s), size)`. */
  function Batches<T>(s: seq<T>, size: nat): seq<seq<T>>
    requires size > 0
    decreases |s|
  {
    if s == [] then []
    else if |s| <= size then [s]
    else [s[..size]] + Batches(s[size..], size)
  }

  /** The batches, in order, make up the whole list again. */
  lemma {:induction false} FlattenBatches<T>(s: seq<T>, size: nat)
    requires size > 0
    ensures Flatten(Batches(s, size)) == s
    decreases |s|
  {
    if |s| > size {
      FlattenBatches(s[size..], size);
      assert s[..size] + s[size..] == s;
    }
  }

  /** There are `ceil(len(s) / size)` batches, none empty and none longer
      than `size`; all but the last hold exactly `size` elements. */
  lemma {:induction false} BatchShape<T>(s: seq<T>, size: nat)
    requires size > 0
    ensures |Batches(s, size)| == (|s| + size - 1) / size
    ensures forall k :: 0 <= k < |Batches(s, size)| ==> 0 < |Batches(s, size)[k]| <= size
    ensures forall k :: 0 <= k < |Batches(s, size)| - 1 ==> |Batches(s, size)[k]| == size
    decreases |s|
  {
    if |s| > size {
      var rest := Batches(s[size..], size);
      BatchShape(s[size..], size);
      assert (|s| + size - 1) / size == (|s| - size + size - 1) / size + 1 by {
        DivShift(|s| - size + size - 1, size);
      }
      assert Batches(s, size) == [s[..size]] + rest;
    } else if s != [] {
      assert (|s| + size - 1) / size == 1 by {
        assert size <= |s| + size - 1 < 2 * size;
      }
    }
  }

  lemma DivShift(a: nat, b: nat)
    requires b > 0
    ensures (a + b) / b == a / b + 1
  {
    var q, r := a / b, a % b;
    var d, r' := (a + b) / b, (a + b) % b;
    assert a == q * b + r && 0 <= r < b;
    assert a + b == d * b + r' && 0 <= r' < b;
    MulSub(d, q + 1, b);
    assert (d - (q + 1)) * b == r - r';
    if d - (q + 1) >= 1 {
      MulAtLeast(d - (q + 1), b);
    } else if (q + 1) - d >= 1 {
      MulAtLeast((q + 1) - d, b);
      MulSub(q + 1, d, b);
    }
  }

  lemma MulSub(x: int, y: int, b: int)
    ensures (x - y) * b == x * b - y * b
  {
  }

  lemma {:induction false} MulAtLeast(k: int, b: nat)
    requires k >= 1
    ensures k * b >= b
    decreases k
  {
    if k > 1 {
      MulAtLeast(k - 1, b);
      MulSub(k, 1, b);
    }
  }
}
