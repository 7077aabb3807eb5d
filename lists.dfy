/** The shape every check of the validator shares: walk a sequence of
    entries and append the errors each entry produces, in order. */
module Lists {

  import opened Results

  /** The concatenation of `f(x)` over the entries `x` of `xs`, in order. */
  function Collect<T, U>(xs: seq<T>, f: T -> seq<U>): seq<U>
  {
    if |xs| == 0 then [] else f(xs[0]) + Collect(xs[1..], f)
  }

  /** One more step of a loop that collects the prefix `xs[..i]`. */
  lemma CollectStep<T, U>(xs: seq<T>, i: nat, f: T -> seq<U>, found: seq<U>)
    requires i < |xs| && found == f(xs[i])
    ensures Collect(xs[..i + 1], f) == Collect(xs[..i], f) + found
  {
    assert xs[..i + 1] == xs[..i] + [xs[i]];
    CollectSnoc(xs[..i], xs[i], f);
  }

  /** Appending one entry appends its errors. */
  lemma {:induction false} CollectSnoc<T, U>(xs: seq<T>, x: T, f: T -> seq<U>)
    ensures Collect(xs + [x], f) == Collect(xs, f) + f(x)
  {
    if |xs| == 0 {
      assert xs + [x] == [x];
    } else {
      assert (xs + [x])[1..] == xs[1..] + [x];
      CollectSnoc(xs[1..], x, f);
    }
  }

  /** An error is collected exactly when some entry produces it. */
  lemma {:induction false} CollectMember<T, U>(xs: seq<T>, f: T -> seq<U>, e: U)
    ensures e in Collect(xs, f) <==> exists i | 0 <= i < |xs| :: e in f(xs[i])
  {
    if |xs| > 0 {
      CollectMember(xs[1..], f, e);
      if e in Collect(xs[1..], f) {
        var i :| 0 <= i < |xs[1..]| && e in f(xs[1..][i]);
        assert e in f(xs[i + 1]);
      }
      if exists i | 0 <= i < |xs| :: e in f(xs[i]) {
        var i :| 0 <= i < |xs| && e in f(xs[i]);
        if i > 0 {
          assert xs[1..][i - 1] == xs[i];
        }
      }
    }
  }

  /** What the entry at index i contributes is in the collection. */
  lemma CollectHas<T, U>(xs: seq<T>, f: T -> seq<U>, i: nat, e: U)
    requires i < |xs| && e in f(xs[i])
    ensures e in Collect(xs, f)
  {
    CollectMember(xs, f, e);
  }

  /** When no entry produces more than one error, there are at most as many
      errors as entries. */
  lemma {:induction false} CollectBound<T, U>(xs: seq<T>, f: T -> seq<U>)
    requires forall i | 0 <= i < |xs| :: |f(xs[i])| <= 1
    ensures |Collect(xs, f)| <= |xs|
  {
    if |xs| > 0 {
      assert |f(xs[0])| <= 1;
      CollectBound(xs[1..], f);
    }
  }

  /** The entries `p` accepts, in their order. */
  function Filter<T(!new)>(xs: seq<T>, p: T -> bool): (r: seq<T>)
    ensures |r| <= |xs|
    ensures forall e :: e in r <==> e in xs && p(e)
  {
    if |xs| == 0 then []
    else
      var rest := Filter(xs[1..], p);
      assert forall e :: e in xs <==> e == xs[0] || e in xs[1..];
      if p(xs[0]) then [xs[0]] + rest else rest
  }

  /** Filtering keeps the relative order: it distributes over concatenation. */
  lemma {:induction false} FilterAppend<T(!new)>(a: seq<T>, b: seq<T>, p: T -> bool)
    ensures Filter(a + b, p) == Filter(a, p) + Filter(b, p)
  {
    if |a| == 0 {
      assert a + b == b;
    } else {
      assert (a + b)[1..] == a[1..] + b;
      FilterAppend(a[1..], b, p);
    }
  }

  /** Filtering with a predicate that accepts every entry changes nothing. */
  lemma {:induction false} FilterAll<T(!new)>(xs: seq<T>, p: T -> bool)
    requires forall i | 0 <= i < |xs| :: p(xs[i])
    ensures Filter(xs, p) == xs
  {
    if |xs| > 0 {
      assert p(xs[0]);
      FilterAll(xs[1..], p);
    }
  }

  /** `n` copies of `x`. */
  function Repeat<T>(x: T, n: nat): (r: seq<T>)
    ensures |r| == n
    ensures forall k :: 0 <= k < n ==> r[k] == x
  {
    if n == 0 then [] else Repeat(x, n - 1) + [x]
  }

  /** The index of the first entry `p` accepts, if any. */
  function FirstWhere<T>(xs: seq<T>, p: T -> bool): (r: Option<nat>)
    ensures r.None? <==> forall k :: 0 <= k < |xs| ==> !p(xs[k])
    ensures r.Some? ==> r.value < |xs| && p(xs[r.value]) && forall k :: 0 <= k < r.value ==> !p(xs[k])
  {
    if |xs| == 0 then None
    else if p(xs[0]) then Some(0)
    else
      match FirstWhere(xs[1..], p)
      case None => None
      case Some(i) => Some(i + 1)
  }
}
