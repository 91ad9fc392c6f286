/**
  A `collections.deque(maxlen=cap)` seen as the sequence of its samples,
  oldest first. Appending to a full deque evicts the oldest sample, so the
  deque always holds the `cap` most recent values ever appended.
 */
module BoundedDeque {

  /** Capacity of every history buffer of the ground-control engine. */
  const MaxLength: nat := 100

  /** The reference window: the `n` most recent elements of `s`, oldest first. */
  function Newest<T>(s: seq<T>, n: nat): (r: seq<T>)
    ensures |r| == if |s| <= n then |s| else n
  {
    if |s| <= n then s else s[|s| - n..]
  }

  /** `deque.append(x)`: grow while below capacity, otherwise drop the head first. */
  function Append<T>(q: seq<T>, x: T, cap: nat): (r: seq<T>)
    requires |q| <= cap
    ensures |r| == if |q| < cap then |q| + 1 else cap
    ensures cap > 0 ==> r[|r| - 1] == x
  {
    if |q| < cap then q + [x]
    else if cap == 0 then []
    else q[1..] + [x]
  }

  /** One append leaves exactly the `cap` newest of the old samples and `x`. */
  lemma AppendIsNewest<T>(q: seq<T>, x: T, cap: nat)
    requires |q| <= cap
    ensures Append(q, x, cap) == Newest(q + [x], cap)
  {
  }

  /** Appends every element of `xs` in order, one `deque.append` at a time. */
  function AppendAll<T>(q: seq<T>, xs: seq<T>, cap: nat): (r: seq<T>)
    requires |q| <= cap
    ensures |r| <= cap
    decreases |xs|
  {
    if xs == [] then q
    else AppendAll(Append(q, xs[0], cap), xs[1..], cap)
  }

  /** The last element, as Python's `d[-1]` on a non-empty deque. */
  function Last<T>(s: seq<T>): T
    requires |s| > 0
  {
    s[|s| - 1]
  }

  /** Appending to a full deque keeps the `cap - 1` newest prior samples, then `x`. */
  lemma AppendToFull<T>(q: seq<T>, x: T, cap: nat)
    requires 0 < |q| == cap
    ensures Append(q, x, cap) == q[1..] + [x]
    ensures |Append(q, x, cap)| == cap
    ensures Last(Append(q, x, cap)) == x
  {
  }

  /**
    However many samples are appended, the deque holds exactly the `cap`
    newest of its prior contents followed by them: nothing is lost or
    reordered except by eviction of the oldest.
   */
  lemma {:induction false} AppendAllIsNewest<T>(q: seq<T>, xs: seq<T>, cap: nat)
    requires |q| <= cap
    ensures AppendAll(q, xs, cap) == Newest(q + xs, cap)
    decreases |xs|
  {
    if xs == [] {
      assert q + xs == q;
    } else {
      var q' := Append(q, xs[0], cap);
      calc {
        AppendAll(q, xs, cap);
        AppendAll(q', xs[1..], cap);
        { AppendAllIsNewest(q', xs[1..], cap); }
        Newest(q' + xs[1..], cap);
        { AppendIsNewest(q, xs[0], cap); NewestConcat(q + [xs[0]], xs[1..], cap); }
        Newest((q + [xs[0]]) + xs[1..], cap);
        { assert (q + [xs[0]]) + xs[1..] == q + xs; }
        Newest(q + xs, cap);
      }
    }
  }

  /** One append followed by more samples has the same window as appending them all at once. */
  lemma AppendThenMore<T>(q: seq<T>, x: T, rest: seq<T>, cap: nat)
    requires |q| <= cap
    ensures Newest(Append(q, x, cap) + rest, cap) == Newest(q + ([x] + rest), cap)
  {
    AppendIsNewest(q, x, cap);
    NewestConcat(q + [x], rest, cap);
    assert (q + [x]) + rest == q + ([x] + rest);
  }

  /** Windowing the prefix first does not change the window of the whole. */
  lemma NewestConcat<T>(s: seq<T>, t: seq<T>, n: nat)
    ensures Newest(Newest(s, n) + t, n) == Newest(s + t, n)
  {
    var a := Newest(Newest(s, n) + t, n);
    var b := Newest(s + t, n);
    assert |a| == |b|;
    forall i | 0 <= i < |a|
      ensures a[i] == b[i]
    {
    }
  }
}
