/**
 * The bounded, most-recent-first history both handlers keep: `unshift` the
 * new signal, then cut the list back to its capacity with `slice(0, cap)`.
 */
module History {
  import opened Wrappers

  /** The first `n` items of `s` (all of them when there are fewer). */
  function Take<T>(s: seq<T>, n: nat): seq<T>
  {
    s[..Min(n, |s|)]
  }

  function Reverse<T>(s: seq<T>): (r: seq<T>)
    ensures |r| == |s|
  {
    if s == [] then [] else Reverse(s[1..]) + [s[0]]
  }

  /**
   * `h.unshift(x); if (h.length > cap) h = h.slice(0, cap)`: the new item comes
   * first, the length grows by one up to the cap, and what follows the new item
   * is a prefix of the old history, so only the oldest entries are dropped.
   */
  function Prepend<T>(h: seq<T>, x: T, cap: nat): (r: seq<T>)
    requires cap > 0
    ensures |r| == Min(|h| + 1, cap)
    ensures r[0] == x
    ensures r[1..] == h[..|r| - 1]
    ensures |h| < cap ==> r[1..] == h
  {
    var u := [x] + h;
    if |u| > cap then u[..cap] else u
  }

  /** The history after the items of `xs` arrive one after another, `xs[0]` first. */
  function PrependAll<T>(h: seq<T>, xs: seq<T>, cap: nat): (r: seq<T>)
    requires cap > 0
    decreases |xs|
  {
    if xs == [] then h else PrependAll(Prepend(h, xs[0], cap), xs[1..], cap)
  }

  lemma TakeOfTake<T>(a: seq<T>, b: seq<T>, cap: nat)
    ensures Take(a + Take(b, cap), cap) == Take(a + b, cap)
  {
    var n := Min(cap, |a + b|);
    assert Take(a + Take(b, cap), cap) == (a + b)[..n] by {
      var c := a + Take(b, cap);
      assert |c| >= n || |c| == |a + b|;
      forall i | 0 <= i < Min(cap, |c|) ensures c[i] == (a + b)[i] {
      }
    }
  }

  /**
   * Starting from any history within the cap, the history after a run of
   * arrivals is the run newest first followed by the old history, cut to the cap.
   */
  lemma {:induction false} PrependAllKeepsNewest<T>(h: seq<T>, xs: seq<T>, cap: nat)
    requires cap > 0 && |h| <= cap
    ensures PrependAll(h, xs, cap) == Take(Reverse(xs) + h, cap)
    decreases |xs|
  {
    if xs == [] {
      assert Take(h, cap) == h;
    } else {
      var h1 := Prepend(h, xs[0], cap);
      assert PrependAll(h, xs, cap) == PrependAll(h1, xs[1..], cap);
      PrependAllKeepsNewest(h1, xs[1..], cap);
      PrependIsTake(h, xs[0], cap);
      TakeOfTake(Reverse(xs[1..]), [xs[0]] + h, cap);
      ReverseThenAppend(xs, h);
    }
  }

  lemma PrependIsTake<T>(h: seq<T>, x: T, cap: nat)
    requires cap > 0
    ensures Prepend(h, x, cap) == Take([x] + h, cap)
  {
  }

  lemma ReverseThenAppend<T>(xs: seq<T>, h: seq<T>)
    requires xs != []
    ensures Reverse(xs[1..]) + ([xs[0]] + h) == Reverse(xs) + h
  {
    var a, b := Reverse(xs[1..]), [xs[0]] + h;
    assert Reverse(xs) == a + [xs[0]];
    ConcatAssoc(a, [xs[0]], h);
  }

  lemma ConcatAssoc<T>(a: seq<T>, b: seq<T>, c: seq<T>)
    ensures (a + b) + c == a + (b + c)
  {
  }

  /**
   * After at least `cap` arrivals the history is exactly the newest `cap`
   * items, newest first; nothing older survives.
   */
  lemma NewestCapSurvive<T>(h: seq<T>, xs: seq<T>, cap: nat)
    requires cap > 0 && |h| <= cap && |xs| >= cap
    ensures PrependAll(h, xs, cap) == Reverse(xs)[..cap]
  {
    PrependAllKeepsNewest(h, xs, cap);
    assert (Reverse(xs) + h)[..cap] == Reverse(xs)[..cap];
  }

  /** The ids `ids` strictly increase and all lie in `(lo, hi]`: none is handed out twice. */
  predicate FreshIncreasing(ids: seq<nat>, lo: nat, hi: nat)
  {
    && (forall i, j :: 0 <= i < j < |ids| ==> ids[i] < ids[j])
    && (forall i :: 0 <= i < |ids| ==> lo < ids[i] <= hi)
  }

  /** Putting the id `mid` (or nothing) in front of ids that lie in `(mid, hi]` keeps them fresh and increasing. */
  lemma FreshIncreasingPrepend(pre: seq<nat>, ids: seq<nat>, lo: nat, mid: nat, hi: nat)
    requires FreshIncreasing(ids, mid, hi) && lo <= mid <= hi
    requires pre == [] || (pre == [mid] && lo < mid)
    ensures FreshIncreasing(pre + ids, lo, hi)
  {
  }
}
