/** Small value types and sequence helpers shared by every module of the model. */
module Base {

  datatype Option<+T> = None | Some(value: T) {
    function GetOr(default: T): T {
      match this
      case Some(v) => v
      case None => default
    }
  }

  /** An operation that either produces a value or raises one of the source's exceptions. */
  datatype Result<+T, +E> = Ok(value: T) | Err(error: E)

  /** No element occurs twice. */
  predicate NoDup<T(==)>(s: seq<T>) {
    forall i, j :: 0 <= i < j < |s| ==> s[i] != s[j]
  }

  /** Position of the first occurrence of `x` in `s`. */
  function IndexOf<T(==)>(s: seq<T>, x: T): (k: nat)
    requires x in s
    ensures k < |s| && s[k] == x
    ensures forall j :: 0 <= j < k ==> s[j] != x
  {
    if s[0] == x then 0 else 1 + IndexOf(s[1..], x)
  }

  /** Order-preserving duplicate removal: each element is kept at its first occurrence
      (Python's `dict.fromkeys`, or a loop over a `seen` set that appends unseen items). */
  function Dedup<T(==,!new)>(s: seq<T>): (r: seq<T>)
    ensures NoDup(r)
    ensures forall x :: x in r <==> x in s
    ensures |r| <= |s|
  {
    if s == [] then []
    else
      var p := Dedup(s[..|s| - 1]);
      var x := s[|s| - 1];
      assert forall y :: y in s <==> y in s[..|s| - 1] || y == x;
      if x in p then p else p + [x]
  }

  /** Dedup of a prefix is a prefix of the Dedup of the whole sequence. */
  lemma {:induction false} DedupPrefix<T(!new)>(s: seq<T>, i: nat)
    requires i <= |s|
    ensures |Dedup(s[..i])| <= |Dedup(s)|
    ensures Dedup(s[..i]) == Dedup(s)[..|Dedup(s[..i])|]
    decreases |s| - i
  {
    if i < |s| {
      DedupPrefix(s, i + 1);
      assert s[..i + 1][..i] == s[..i];
    } else {
      assert s[..i] == s;
    }
  }

  /** The position of `x` in Dedup(s) is the number of distinct values seen before the
      first occurrence of `x`: Dedup numbers values in first-seen order. */
  lemma DedupRank<T(!new)>(s: seq<T>, x: T)
    requires x in s
    ensures x in Dedup(s)
    ensures IndexOf(Dedup(s), x) == |Dedup(s[..IndexOf(s, x)])|
  {
    var f := IndexOf(s, x);
    assert s[..f + 1][..f] == s[..f];
    assert x !in s[..f];
    assert Dedup(s[..f + 1]) == Dedup(s[..f]) + [x];
    DedupPrefix(s, f + 1);
    var r := Dedup(s);
    var k := |Dedup(s[..f])|;
    assert r[k] == x;
    assert forall j :: 0 <= j < k ==> r[j] == Dedup(s[..f])[j];
    assert forall j :: 0 <= j < k ==> r[j] != x;
  }

  /** The elements of `s` for which `keep` holds, in order. */
  function Filter<T(!new)>(s: seq<T>, keep: T -> bool): (r: seq<T>)
    ensures |r| <= |s|
    ensures forall x :: x in r <==> x in s && keep(x)
  {
    if s == [] then []
    else
      var p := Filter(s[..|s| - 1], keep);
      var x := s[|s| - 1];
      assert forall y :: y in s <==> y in s[..|s| - 1] || y == x;
      if keep(x) then p + [x] else p
  }

  lemma {:induction false} FilterConcat<T(!new)>(a: seq<T>, b: seq<T>, keep: T -> bool)
    ensures Filter(a + b, keep) == Filter(a, keep) + Filter(b, keep)
    decreases |b|
  {
    if b == [] {
      assert a + b == a;
    } else {
      var b' := b[..|b| - 1];
      assert (a + b)[..|a + b| - 1] == a + b';
      FilterConcat(a, b', keep);
    }
  }

  /** Dropping elements and removing duplicates commute. */
  lemma {:induction false} DedupFilter<T(!new)>(s: seq<T>, keep: T -> bool)
    ensures Dedup(Filter(s, keep)) == Filter(Dedup(s), keep)
  {
    if s != [] {
      var q := s[..|s| - 1];
      var x := s[|s| - 1];
      DedupFilter(q, keep);
      var e := Dedup(q);
      assert (e + [x])[..|e|] == e;
      if keep(x) {
        assert Filter(s, keep) == Filter(q, keep) + [x];
        assert Filter(s, keep)[..|Filter(s, keep)| - 1] == Filter(q, keep);
      }
    }
  }

  /** One step of a first-seen scan: a dropped or already kept element adds nothing, a new
      kept element is appended. */
  lemma DedupFilterStep<T(!new)>(s: seq<T>, i: nat, keep: T -> bool)
    requires i < |s|
    ensures var f := Filter(s[..i], keep);
            Dedup(Filter(s[..i + 1], keep)) ==
              if !keep(s[i]) || s[i] in Dedup(f) then Dedup(f) else Dedup(f) + [s[i]]
  {
    var f := Filter(s[..i], keep);
    assert s[..i + 1][..i] == s[..i];
    if keep(s[i]) {
      assert Filter(s[..i + 1], keep) == f + [s[i]];
      assert (f + [s[i]])[..|f|] == f;
    }
  }

  /** The state of a first-seen scan after i elements: the kept list and its `seen` set. */
  ghost predicate Scanned<T(!new)>(s: seq<T>, i: nat, keep: T -> bool, seen: set<T>, result: seq<T>)
    requires i <= |s|
  {
    result == Dedup(Filter(s[..i], keep)) && forall x :: x in seen <==> x in result
  }

  lemma ScanStep<T(!new)>(s: seq<T>, i: nat, keep: T -> bool, seen: set<T>, result: seq<T>)
    requires i < |s| && Scanned(s, i, keep, seen, result)
    ensures keep(s[i]) && s[i] !in seen ==> Scanned(s, i + 1, keep, seen + {s[i]}, result + [s[i]])
    ensures !(keep(s[i]) && s[i] !in seen) ==> Scanned(s, i + 1, keep, seen, result)
  {
    DedupFilterStep(s, i, keep);
  }

  /** The `seen`-set loop: `if keep(d) and d not in seen: seen.add(d); result.append(d)`. */
  method KeepFirst<T(==,!new)>(s: seq<T>, keep: T -> bool) returns (result: seq<T>)
    ensures result == Dedup(Filter(s, keep))
  {
    var seen: set<T> := {};
    result := [];
    for i := 0 to |s|
      invariant Scanned(s, i, keep, seen, result)
    {
      var d := s[i];
      ScanStep(s, i, keep, seen, result);
      if keep(d) && d !in seen {
        seen := seen + {d};
        result := result + [d];
      }
    }
    assert s[..|s|] == s;
  }

  /** Keeping everything keeps the sequence. */
  lemma {:induction false} FilterAll<T(!new)>(s: seq<T>, keep: T -> bool)
    requires forall x :: keep(x)
    ensures Filter(s, keep) == s
  {
    if s != [] {
      FilterAll(s[..|s| - 1], keep);
    }
  }

  /** Sum of f over the elements of s (Python's `sum(f(e) for e in s)`). */
  function Sum<T>(s: seq<T>, f: T -> int): int {
    if s == [] then 0 else Sum(s[..|s| - 1], f) + f(s[|s| - 1])
  }

  lemma {:induction false} SumConcat<T>(a: seq<T>, b: seq<T>, f: T -> int)
    ensures Sum(a + b, f) == Sum(a, f) + Sum(b, f)
    decreases |b|
  {
    if b == [] {
      assert a + b == a;
    } else {
      var b' := b[..|b| - 1];
      assert (a + b)[..|a + b| - 1] == a + b';
      SumConcat(a, b', f);
    }
  }

  lemma {:induction false} SumNonNegative<T>(s: seq<T>, f: T -> int)
    requires forall x :: x in s ==> f(x) >= 0
    ensures Sum(s, f) >= 0
  {
    if s != [] {
      SumNonNegative(s[..|s| - 1], f);
    }
  }

  /** A sum of non-negative terms is at least each of its terms. */
  lemma {:induction false} SumAtLeastTerm<T>(s: seq<T>, f: T -> int, x: T)
    requires forall y :: y in s ==> f(y) >= 0
    requires x in s
    ensures Sum(s, f) >= f(x)
  {
    var p := s[..|s| - 1];
    if s[|s| - 1] == x {
      SumNonNegative(p, f);
    } else {
      assert x in p;
      SumAtLeastTerm(p, f, x);
    }
  }

  /** A sum of non-negative terms is at least any two terms at distinct values. */
  lemma {:induction false} SumAtLeastTwoTerms<T>(s: seq<T>, f: T -> int, x: T, y: T)
    requires forall z :: z in s ==> f(z) >= 0
    requires x in s && y in s && x != y
    ensures Sum(s, f) >= f(x) + f(y)
  {
    var p := s[..|s| - 1];
    var l := s[|s| - 1];
    assert forall z :: z in s <==> z in p || z == l;
    if l == x {
      SumAtLeastTerm(p, f, y);
    } else if l == y {
      SumAtLeastTerm(p, f, x);
    } else {
      SumAtLeastTwoTerms(p, f, x, y);
    }
  }

  /** A sum of zero terms is zero. */
  lemma {:induction false} SumZero<T>(s: seq<T>, f: T -> int)
    requires forall x :: x in s ==> f(x) == 0
    ensures Sum(s, f) == 0
  {
    if s != [] {
      SumZero(s[..|s| - 1], f);
    }
  }

  /** A sum of terms that are each at most 1 is at most the number of terms. */
  lemma {:induction false} SumAtMostLength<T>(s: seq<T>, f: T -> int)
    requires forall x :: x in s ==> f(x) <= 1
    ensures Sum(s, f) <= |s|
  {
    if s != [] {
      SumAtMostLength(s[..|s| - 1], f);
    }
  }

  /** An element of a prefix has the same first position in the whole sequence. */
  lemma IndexOfPrefix<T>(s: seq<T>, m: nat, x: T)
    requires m <= |s| && x in s[..m]
    ensures IndexOf(s, x) == IndexOf(s[..m], x) < m
  {
    var k := IndexOf(s[..m], x);
    assert s[k] == x;
    assert forall j :: 0 <= j < k ==> s[j] == s[..m][j];
  }

  /** Without duplicates, the first position of the last element is the last position. */
  lemma IndexOfLast<T>(s: seq<T>)
    requires NoDup(s) && |s| > 0
    ensures IndexOf(s, s[|s| - 1]) == |s| - 1
  {
  }
}
