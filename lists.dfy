/** `Array.prototype.filter` on immutable lists, what it means for the result to keep the
    order of the input, and the search loop that stops at the first element giving a hit. */
module Lists {
  import opened JsText

  function Filter<T>(xs: seq<T>, keep: T -> bool): (r: seq<T>)
    ensures |r| <= |xs|
    ensures forall x :: x in r ==> x in xs && keep(x)
    ensures forall x :: x in xs && keep(x) ==> x in r
  {
    if xs == [] then []
    else if keep(xs[0]) then [xs[0]] + Filter(xs[1..], keep)
    else Filter(xs[1..], keep)
  }

  /** `sub` is `xs` with some elements dropped, the rest in their original order. */
  predicate IsSubsequence<T(==)>(sub: seq<T>, xs: seq<T>)
    decreases |xs|
  {
    if sub == [] then true
    else if xs == [] then false
    else (sub[0] == xs[0] && IsSubsequence(sub[1..], xs[1..])) || IsSubsequence(sub, xs[1..])
  }

  lemma {:induction false} FilterIsSubsequence<T>(xs: seq<T>, keep: T -> bool)
    ensures IsSubsequence(Filter(xs, keep), xs)
  {
    if xs != [] {
      FilterIsSubsequence(xs[1..], keep);
    }
  }

  /** Every element the predicate keeps occurs as often as in the input; every other
      element is gone. Together with `FilterIsSubsequence` this pins the result down. */
  lemma {:induction false} FilterCounts<T>(xs: seq<T>, keep: T -> bool)
    ensures forall x :: multiset(Filter(xs, keep))[x] == if keep(x) then multiset(xs)[x] else 0
  {
    if xs != [] {
      FilterCounts(xs[1..], keep);
      assert xs == [xs[0]] + xs[1..];
      assert multiset(xs) == multiset{xs[0]} + multiset(xs[1..]);
    }
  }

  /** A filter whose predicate holds everywhere changes nothing. */
  lemma {:induction false} FilterKeepsAll<T>(xs: seq<T>, keep: T -> bool)
    requires forall i :: 0 <= i < |xs| ==> keep(xs[i])
    ensures Filter(xs, keep) == xs
  {
    if xs != [] {
      FilterKeepsAll(xs[1..], keep);
    }
  }

  /** A filter whose predicate holds nowhere empties the list. */
  lemma {:induction false} FilterDropsAll<T>(xs: seq<T>, keep: T -> bool)
    requires forall i :: 0 <= i < |xs| ==> !keep(xs[i])
    ensures Filter(xs, keep) == []
  {
    if xs != [] {
      FilterDropsAll(xs[1..], keep);
    }
  }

  /** How many elements of `xs` the predicate keeps. */
  function CountWhere<T>(xs: seq<T>, keep: T -> bool): nat {
    if xs == [] then 0 else (if keep(xs[0]) then 1 else 0) + CountWhere(xs[1..], keep)
  }

  /** The filter keeps exactly as many elements as satisfy the predicate. */
  lemma {:induction false} FilterLength<T>(xs: seq<T>, keep: T -> bool)
    ensures |Filter(xs, keep)| == CountWhere(xs, keep)
  {
    if xs != [] {
      FilterLength(xs[1..], keep);
    }
  }

  /** A prefix of a subsequence is a subsequence too. */
  lemma {:induction false} PrefixIsSubsequence<T>(sub: seq<T>, xs: seq<T>, k: nat)
    requires k <= |sub| && IsSubsequence(sub, xs)
    ensures IsSubsequence(sub[..k], xs)
    decreases |xs|
  {
    if k > 0 {
      if sub[0] == xs[0] && IsSubsequence(sub[1..], xs[1..]) {
        PrefixIsSubsequence(sub[1..], xs[1..], k - 1);
        assert sub[..k][1..] == sub[1..][..k - 1];
      } else {
        PrefixIsSubsequence(sub, xs[1..], k);
      }
    }
  }

  /** The head of a non-empty filter result is the first element the predicate keeps. */
  lemma {:induction false} FilterHead<T>(xs: seq<T>, keep: T -> bool)
    requires Filter(xs, keep) != []
    ensures exists i :: 0 <= i < |xs| && Filter(xs, keep)[0] == xs[i] && keep(xs[i])
                        && forall j :: 0 <= j < i ==> !keep(xs[j])
  {
    if !keep(xs[0]) {
      FilterHead(xs[1..], keep);
      var i :| 0 <= i < |xs[1..]| && Filter(xs[1..], keep)[0] == xs[1..][i] && keep(xs[1..][i])
               && forall j :: 0 <= j < i ==> !keep(xs[1..][j]);
      assert forall j :: 0 <= j < i + 1 ==> !keep(xs[j]) by {
        forall j | 0 <= j < i + 1
          ensures !keep(xs[j])
        {
          if j > 0 {
            assert xs[j] == xs[1..][j - 1];
          }
        }
      }
      assert Filter(xs, keep)[0] == xs[i + 1];
    } else {
      assert Filter(xs, keep)[0] == xs[0];
    }
  }

  /** A loop over `xs[from..]` that returns at the first element `hit` answers for. */
  function FirstHit<T, R>(xs: seq<T>, hit: T -> Option<R>, from: nat): Option<R>
    decreases |xs| - from
  {
    if from >= |xs| then None
    else if hit(xs[from]).Some? then hit(xs[from])
    else FirstHit(xs, hit, from + 1)
  }

  /** The loop finds nothing exactly when no element gives a hit. */
  lemma {:induction false} FirstHitNoneIff<T, R>(xs: seq<T>, hit: T -> Option<R>, from: nat)
    ensures FirstHit(xs, hit, from).None? <==> forall k :: from <= k < |xs| ==> hit(xs[k]).None?
    decreases |xs| - from
  {
    if from < |xs| {
      FirstHitNoneIff(xs, hit, from + 1);
    }
  }

  /** The first element that gives a hit decides. */
  lemma {:induction false} FirstHitIsFirst<T, R>(xs: seq<T>, hit: T -> Option<R>, from: nat, k: nat)
    requires from <= k < |xs| && hit(xs[k]).Some?
    requires forall j :: from <= j < k ==> hit(xs[j]).None?
    ensures FirstHit(xs, hit, from) == hit(xs[k])
    decreases k - from
  {
    if from < k {
      FirstHitIsFirst(xs, hit, from + 1, k);
    }
  }

  /** Whatever the loop returns is the hit of one of the elements it looked at. */
  lemma {:induction false} FirstHitFound<T, R>(xs: seq<T>, hit: T -> Option<R>, from: nat)
    ensures FirstHit(xs, hit, from).Some? ==>
              exists k :: from <= k < |xs| && hit(xs[k]) == FirstHit(xs, hit, from)
    decreases |xs| - from
  {
    if from < |xs| && hit(xs[from]).None? {
      FirstHitFound(xs, hit, from + 1);
    }
  }
}
