/** First-match search and filtering over API listings, as the Find and FindAll helpers do it. */
module Lists {
  import opened Wrappers

  /** The first element that matches. */
  function First<T>(xs: seq<T>, p: T -> bool): (r: Option<T>)
    ensures r.Some? ==> r.value in xs && p(r.value)
    ensures r.None? ==> forall x | x in xs :: !p(x)
  {
    if xs == [] then None
    else if p(xs[0]) then Some(xs[0])
    else First(xs[1..], p)
  }

  /** The elements that match, in list order. */
  function Keep<T>(xs: seq<T>, p: T -> bool): (r: seq<T>)
    ensures forall x | x in r :: x in xs && p(x)
    ensures forall x | x in xs && p(x) :: x in r
  {
    if xs == [] then []
    else if p(xs[0]) then [xs[0]] + Keep(xs[1..], p)
    else Keep(xs[1..], p)
  }

  /** The lists made from the elements, one after the other: what nested loops collect. */
  function FlatMap<A, B>(xs: seq<A>, f: A -> seq<B>): (r: seq<B>)
    ensures forall y | y in r :: exists x :: x in xs && y in f(x)
    ensures forall x, y | x in xs && y in f(x) :: y in r
  {
    if xs == [] then [] else f(xs[0]) + FlatMap(xs[1..], f)
  }

  function Not<T>(p: T -> bool): T -> bool {
    x => !p(x)
  }

  /** The least number from n on that is not in use: how units and device names are handed out. */
  function LeastFree(used: set<nat>, n: nat := 0): (r: nat)
    ensures r >= n && r !in used
    ensures forall k: nat | n <= k < r :: k in used
    decreases |used|
  {
    if n !in used then n
    else
      var r := LeastFree(used - {n}, n + 1);
      assert forall k: nat | n <= k < r :: k in used by {
        forall k: nat | n <= k < r ensures k in used {
          assert k == n || k in used - {n};
        }
      }
      r
  }

  /** A search loop that stops at the first match. */
  method FindFirst<T>(xs: seq<T>, p: T -> bool) returns (r: Option<T>)
    ensures r == First(xs, p)
    ensures r.Some? ==>
      exists i :: 0 <= i < |xs| && xs[i] == r.value && p(xs[i]) && forall j :: 0 <= j < i ==> !p(xs[j])
  {
    for i := 0 to |xs|
      invariant forall j :: 0 <= j < i ==> !p(xs[j])
      invariant First(xs, p) == First(xs[i..], p)
    {
      if p(xs[i]) {
        return Some(xs[i]);
      }
    }
    return None;
  }

  /** A filter loop that appends each match. */
  method FindAll<T>(xs: seq<T>, p: T -> bool) returns (r: seq<T>)
    ensures r == Keep(xs, p)
  {
    r := [];
    for i := 0 to |xs|
      invariant r + Keep(xs[i..], p) == Keep(xs, p)
    {
      if p(xs[i]) {
        r := r + [xs[i]];
      }
    }
  }

  lemma {:induction false} KeepAppend<T>(xs: seq<T>, ys: seq<T>, p: T -> bool)
    ensures Keep(xs + ys, p) == Keep(xs, p) + Keep(ys, p)
  {
    if xs == [] {
      assert xs + ys == ys;
    } else {
      assert (xs + ys)[1..] == xs[1..] + ys;
      KeepAppend(xs[1..], ys, p);
    }
  }

  lemma KeepOne<T>(xs: seq<T>, x: T, p: T -> bool)
    ensures Keep(xs + [x], p) == if p(x) then Keep(xs, p) + [x] else Keep(xs, p)
  {
    KeepAppend(xs, [x], p);
  }

  /** A list of one element is emptied by filtering that element out. */
  lemma KeepNotOne<T>(xs: seq<T>, p: T -> bool)
    requires |xs| == 1 && !p(xs[0])
    ensures Keep(xs, p) == []
  {
  }

  lemma {:induction false} KeepKeep<T>(xs: seq<T>, q: T -> bool, p: T -> bool, r: T -> bool)
    requires forall x | x in xs :: (q(x) && p(x)) <==> r(x)
    ensures Keep(Keep(xs, q), p) == Keep(xs, r)
  {
    if xs == [] {
    } else {
      KeepKeep(xs[1..], q, p, r);
      assert xs[0] in xs;
      if q(xs[0]) {
        assert ([xs[0]] + Keep(xs[1..], q))[1..] == Keep(xs[1..], q);
      }
    }
  }

  /** Filtering by a weaker predicate first changes nothing. */
  lemma KeepThrough<T>(xs: seq<T>, q: T -> bool, p: T -> bool)
    requires forall x | x in xs :: p(x) ==> q(x)
    ensures Keep(Keep(xs, q), p) == Keep(xs, p)
  {
    KeepKeep(xs, q, p, p);
  }

  lemma {:induction false} KeepSame<T>(xs: seq<T>, p: T -> bool, r: T -> bool)
    requires forall x | x in xs :: p(x) <==> r(x)
    ensures Keep(xs, p) == Keep(xs, r)
  {
    if xs == [] {
    } else {
      assert xs[0] in xs;
      KeepSame(xs[1..], p, r);
    }
  }

  lemma {:induction false} KeepAll<T>(xs: seq<T>, p: T -> bool)
    requires forall x | x in xs :: p(x)
    ensures Keep(xs, p) == xs
  {
    if xs == [] {
    } else {
      assert xs[0] in xs;
      KeepAll(xs[1..], p);
    }
  }

  lemma {:induction false} KeepNone<T>(xs: seq<T>, p: T -> bool)
    requires forall x | x in xs :: !p(x)
    ensures Keep(xs, p) == []
  {
    if xs == [] {
    } else {
      assert xs[0] in xs;
      KeepNone(xs[1..], p);
    }
  }

  lemma {:induction false} FirstSame<T>(xs: seq<T>, p: T -> bool, r: T -> bool)
    requires forall x | x in xs :: p(x) <==> r(x)
    ensures First(xs, p) == First(xs, r)
  {
    if xs == [] {
    } else {
      assert xs[0] in xs;
      FirstSame(xs[1..], p, r);
    }
  }

  /** Where each element gives at most one, the lists run in step with the elements that give one. */
  lemma {:induction false} FlatMapInStep<A, B>(xs: seq<A>, f: A -> seq<B>, p: A -> bool)
    requires forall x | x in xs :: |f(x)| <= 1 && (p(x) <==> f(x) != [])
    ensures |FlatMap(xs, f)| == |Keep(xs, p)|
    ensures forall i | 0 <= i < |Keep(xs, p)| :: f(Keep(xs, p)[i]) == [FlatMap(xs, f)[i]]
  {
    if xs == [] {
    } else {
      assert xs[0] in xs;
      var made, kept := FlatMap(xs[1..], f), Keep(xs[1..], p);
      FlatMapInStep(xs[1..], f, p);
      assert FlatMap(xs, f) == f(xs[0]) + made;
      if p(xs[0]) {
        InStepWithOne(xs[0], f, kept, made);
        assert Keep(xs, p) == [xs[0]] + kept;
      } else {
        assert f(xs[0]) + made == made && Keep(xs, p) == kept;
      }
    }
  }

  lemma InStepWithOne<A, B>(x: A, f: A -> seq<B>, kept: seq<A>, made: seq<B>)
    requires |f(x)| == 1 && |made| == |kept| && forall i | 0 <= i < |kept| :: f(kept[i]) == [made[i]]
    ensures forall i | 0 <= i < |kept| + 1 :: f(([x] + kept)[i]) == [(f(x) + made)[i]]
  {
    forall i | 0 <= i < |kept| + 1 ensures f(([x] + kept)[i]) == [(f(x) + made)[i]] {
      if i > 0 {
        assert ([x] + kept)[i] == kept[i - 1] && (f(x) + made)[i] == made[i - 1];
      }
    }
  }

  /** Searching finds the head of what filtering keeps. */
  lemma {:induction false} FirstIsHead<T>(xs: seq<T>, p: T -> bool)
    ensures First(xs, p) == if Keep(xs, p) == [] then None else Some(Keep(xs, p)[0])
  {
    if xs == [] {
    } else {
      FirstIsHead(xs[1..], p);
    }
  }

  /** Position i holds the first element that matches. */
  ghost predicate FirstAt<T(!new)>(xs: seq<T>, i: nat, p: T -> bool) {
    i < |xs| && p(xs[i]) && forall j | 0 <= j < i :: !p(xs[j])
  }

  lemma {:induction false} FirstIsAt<T(!new)>(xs: seq<T>, p: T -> bool)
    ensures First(xs, p).Some? ==> exists i: nat :: FirstAt(xs, i, p) && xs[i] == First(xs, p).value
  {
    if xs == [] {
    } else if p(xs[0]) {
      assert FirstAt(xs, 0, p);
    } else {
      FirstIsAt(xs[1..], p);
      if First(xs, p).Some? {
        var i: nat :| FirstAt(xs[1..], i, p) && xs[1..][i] == First(xs[1..], p).value;
        assert FirstAt(xs, i + 1, p) && xs[i + 1] == First(xs, p).value;
      }
    }
  }

  lemma {:induction false} KeepShorter<T>(xs: seq<T>, p: T -> bool)
    ensures |Keep(xs, p)| <= |xs|
  {
    if xs == [] {
    } else {
      KeepShorter(xs[1..], p);
    }
  }

  /** Of the elements a filter keeps, two different positions cannot both match what at most one matches. */
  lemma AtMostOnePosition<T>(xs: seq<T>, p: T -> bool, i: nat, j: nat)
    requires |Keep(xs, p)| <= 1 && i < |xs| && j < |xs| && p(xs[i]) && p(xs[j])
    ensures i == j
  {
    if i < j {
      TwoKept(xs, p, i, j);
    } else if j < i {
      TwoKept(xs, p, j, i);
    }
  }

  lemma TwoKept<T>(xs: seq<T>, p: T -> bool, i: nat, j: nat)
    requires i < j < |xs| && p(xs[i]) && p(xs[j])
    ensures |Keep(xs, p)| >= 2
  {
    assert xs == xs[..j] + xs[j..];
    KeepAppend(xs[..j], xs[j..], p);
    assert xs[..j][i] in Keep(xs[..j], p);
    assert xs[j..][0] in Keep(xs[j..], p);
  }

  lemma FewerKept<T>(xs: seq<T>, q: T -> bool, p: T -> bool)
    ensures |Keep(Keep(xs, q), p)| <= |Keep(xs, p)|
  {
    var both := (x: T) => q(x) && p(x);
    KeepKeep(xs, q, p, both);
    KeepKeep(xs, p, q, both);
    KeepShorter(Keep(xs, p), q);
  }
}
