/**
 * The list shaping the templates do with JavaScript arrays:
 * `.filter(Boolean)` over a literal of optional entries, `.slice(0, n)`
 * and the `xs.length ? <list of xs.slice(0, n)> : null` idiom.
 */
module Lists {
  import opened Wrappers

  function Min(a: nat, b: nat): nat {
    if a <= b then a else b
  }

  /** `[x]` when `b` holds, `[]` otherwise. */
  function When<T>(b: bool, x: T): seq<T> {
    if b then [x] else []
  }

  /** `xs.filter(Boolean)` where every entry is either null or an object:
      the present entries, unwrapped, in order. */
  function Present<T>(xs: seq<Option<T>>): (r: seq<T>)
    ensures |r| <= |xs|
  {
    if xs == [] then []
    else (match xs[0] case Some(x) => [x] case None => []) + Present(xs[1..])
  }

  /** An item survives exactly when some entry holds it. */
  lemma {:induction false} PresentMembers<T>(xs: seq<Option<T>>, x: T)
    ensures x in Present(xs) <==> Some(x) in xs
  {
    if xs != [] {
      PresentMembers(xs[1..], x);
      assert xs == [xs[0]] + xs[1..];
    }
  }

  /** Filtering distributes over concatenation: order is kept and a missing
      entry leaves no gap. */
  lemma {:induction false} PresentAppend<T>(a: seq<Option<T>>, b: seq<Option<T>>)
    ensures Present(a + b) == Present(a) + Present(b)
  {
    if a == [] {
      assert a + b == b;
    } else {
      assert (a + b)[0] == a[0];
      assert (a + b)[1..] == a[1..] + b;
      PresentAppend(a[1..], b);
    }
  }

  /** A single entry contributes one item when present and none otherwise. */
  lemma PresentOne<T>(x: Option<T>)
    ensures Present([x]) == if x.Some? then [x.value] else []
  {
    assert [x][1..] == [];
  }

  /** Filtering a four-entry literal, entry by entry. */
  lemma PresentFour<T>(a: Option<T>, b: Option<T>, c: Option<T>, d: Option<T>)
    ensures Present([a, b, c, d]) == Present([a]) + Present([b]) + Present([c]) + Present([d])
  {
    assert [a, b, c, d] == [a] + [b] + [c] + [d];
    PresentAppend([a] + [b] + [c], [d]);
    PresentAppend([a] + [b], [c]);
    PresentAppend([a], [b]);
  }

  /** Filtering a five-entry literal, entry by entry. */
  lemma PresentFive<T>(a: Option<T>, b: Option<T>, c: Option<T>, d: Option<T>, e: Option<T>)
    ensures Present([a, b, c, d, e]) == Present([a]) + Present([b]) + Present([c]) + Present([d]) + Present([e])
  {
    assert [a, b, c, d, e] == [a, b, c, d] + [e];
    PresentAppend([a, b, c, d], [e]);
    PresentFour(a, b, c, d);
  }

  /** `xs.slice(0, n)`: the first min(n, |xs|) items in their original order. */
  function Take<T>(xs: seq<T>, n: nat): (r: seq<T>)
    ensures |r| == Min(n, |xs|)
    ensures r <= xs
  {
    xs[..Min(n, |xs|)]
  }

  /** `xs.length ? xs.slice(0, cap) : null`: hidden when empty, otherwise the
      first min(cap, |xs|) items in order. */
  function Capped<T>(xs: seq<T>, cap: nat): (r: Option<seq<T>>)
    ensures r.None? <==> xs == []
    ensures r.Some? ==> |r.value| == Min(cap, |xs|) && r.value <= xs
  {
    if |xs| == 0 then None else Some(Take(xs, cap))
  }

  /** A capped list shows the whole list exactly when it fits under the cap. */
  lemma CappedWhole<T>(xs: seq<T>, cap: nat)
    requires xs != []
    ensures Capped(xs, cap).value == xs <==> |xs| <= cap
  {
  }
}
