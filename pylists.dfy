/** Python's list and string operations that the core relies on, with Python's semantics:
    slices clamp their bounds, negative indices count from the end, `[x] * n` is empty for n <= 0. */
module PyLists {
  import opened Wrappers

  /** The position a slice bound denotes: negative bounds count from the end, then clamp to [0, n]. */
  function ClampBound(i: int, n: nat): (b: nat)
    ensures b <= n
    ensures 0 <= i <= n ==> b == i
    ensures i > n ==> b == n
    ensures i < 0 && i + n >= 0 ==> b == i + n
    ensures i + n < 0 ==> b == 0
  {
    if i < 0 then (if i + n < 0 then 0 else i + n) else if i > n then n else i
  }

  /** `s[i:j]` */
  function Slice<T>(s: seq<T>, i: int, j: int): (r: seq<T>)
    ensures ClampBound(i, |s|) <= ClampBound(j, |s|) ==>
              r == s[ClampBound(i, |s|)..ClampBound(j, |s|)]
    ensures ClampBound(i, |s|) > ClampBound(j, |s|) ==> r == []
  {
    var a, b := ClampBound(i, |s|), ClampBound(j, |s|);
    if a <= b then s[a..b] else []
  }

  /** `s[i]` */
  function GetIndex<T>(s: seq<T>, i: int): (r: Result<T>)
    ensures 0 <= i < |s| ==> r == Success(s[i])
    ensures -|s| <= i < 0 ==> r == Success(s[|s| + i])
    ensures r.Failure? <==> (i >= |s| || i < -|s|)
    ensures r.Failure? ==> r.error == IndexError
  {
    if 0 <= i < |s| then Success(s[i])
    else if -|s| <= i < 0 then Success(s[|s| + i])
    else Failure(IndexError)
  }

  /** `s[i] = v` */
  function SetIndex<T>(s: seq<T>, i: int, v: T): (r: Result<seq<T>>)
    ensures 0 <= i < |s| ==> r == Success(s[i := v])
    ensures -|s| <= i < 0 ==> r == Success(s[|s| + i := v])
    ensures r.Failure? <==> (i >= |s| || i < -|s|)
    ensures r.Failure? ==> r.error == IndexError
  {
    if 0 <= i < |s| then Success(s[i := v])
    else if -|s| <= i < 0 then Success(s[|s| + i := v])
    else Failure(IndexError)
  }

  /** `[x] * n` */
  function Repeat<T>(x: T, n: int): (r: seq<T>)
    ensures |r| == if n < 0 then 0 else n
    ensures forall k :: 0 <= k < |r| ==> r[k] == x
  {
    if n <= 0 then [] else Repeat(x, n - 1) + [x]
  }

  /** `s.index(x)`: the first position of `x`; the callers only use it where `x` occurs. */
  function FirstIndex<T(==)>(s: seq<T>, x: T): (k: nat)
    requires x in s
    ensures k < |s| && s[k] == x
    ensures forall j :: 0 <= j < k ==> s[j] != x
  {
    if s[0] == x then 0 else 1 + FirstIndex(s[1..], x)
  }

  /** `sep.join(words)` */
  function Join(sep: string, words: seq<string>): (r: string)
    ensures words == [] ==> r == ""
  {
    if words == [] then ""
    else if |words| == 1 then words[0]
    else Join(sep, words[..|words| - 1]) + sep + words[|words| - 1]
  }

  /** The elements of `s`, in order, that satisfy `keep`. */
  function Filter<T>(s: seq<T>, keep: T -> bool): (r: seq<T>)
    ensures |r| <= |s|
    ensures forall x :: x in r ==> x in s && keep(x)
    ensures forall i :: 0 <= i < |s| && keep(s[i]) ==> s[i] in r
  {
    if s == [] then [] else (if keep(s[0]) then [s[0]] else []) + Filter(s[1..], keep)
  }

  lemma {:induction false} FilterConcat<T>(a: seq<T>, b: seq<T>, keep: T -> bool)
    ensures Filter(a + b, keep) == Filter(a, keep) + Filter(b, keep)
  {
    if a == [] {
      assert a + b == b;
    } else {
      assert (a + b)[1..] == a[1..] + b;
      FilterConcat(a[1..], b, keep);
    }
  }

  /** Filtering a list that starts with a dropped element. */
  lemma FilterDrop<T>(x: T, s: seq<T>, keep: T -> bool)
    requires !keep(x)
    ensures Filter([x] + s, keep) == Filter(s, keep)
  {
    assert ([x] + s)[1..] == s;
  }

  /** Filtering across a dropped element. */
  lemma FilterAcross<T>(p: seq<T>, x: T, q: seq<T>, keep: T -> bool)
    requires !keep(x)
    ensures Filter(p + [x] + q, keep) == Filter(p, keep) + Filter(q, keep)
  {
    FilterConcat(p + [x], q, keep);
    FilterConcat(p, [x], keep);
    FilterDrop(x, [], keep);
    assert [x] + [] == [x];
  }

  lemma {:induction false} FilterAll<T>(s: seq<T>, keep: T -> bool)
    requires forall x :: x in s ==> keep(x)
    ensures Filter(s, keep) == s
  {
    if s != [] {
      FilterAll(s[1..], keep);
    }
  }

  lemma {:induction false} FilterNone<T>(s: seq<T>, keep: T -> bool)
    requires forall x :: x in s ==> !keep(x)
    ensures Filter(s, keep) == []
  {
    if s != [] {
      FilterNone(s[1..], keep);
    }
  }

  /** No element occurs twice. */
  predicate NoDuplicates<T(==)>(s: seq<T>) {
    forall i, j :: 0 <= i < j < |s| ==> s[i] != s[j]
  }

  /** A list without duplicates drawn from a set is no longer than the set. */
  lemma {:induction false} NoDuplicatesWithin<T>(s: seq<T>, within: set<T>)
    requires NoDuplicates(s) && forall k :: 0 <= k < |s| ==> s[k] in within
    ensures |s| <= |within|
  {
    if s != [] {
      var rest := within - {s[0]};
      forall i, j | 0 <= i < j < |s[1..]| ensures s[1..][i] != s[1..][j] {
        assert s[1..][i] == s[i + 1] && s[1..][j] == s[j + 1];
      }
      forall k | 0 <= k < |s[1..]| ensures s[1..][k] in rest {
        assert s[1..][k] == s[k + 1];
      }
      NoDuplicatesWithin(s[1..], rest);
    }
  }

  /** No element occurs twice, stated from the front: each element is absent from the rest. The
      verifier unfolds this recursive form only where a proof asks for it. */
  predicate Distinct<T(==)>(s: seq<T>) {
    s == [] || (s[0] !in s[1..] && Distinct(s[1..]))
  }

  lemma {:induction false} DistinctNoDuplicates<T>(s: seq<T>)
    ensures Distinct(s) <==> NoDuplicates(s)
  {
    if s != [] {
      DistinctNoDuplicates(s[1..]);
      if NoDuplicates(s) {
        forall i, j | 0 <= i < j < |s[1..]| ensures s[1..][i] != s[1..][j] {
          assert s[1..][i] == s[i + 1] && s[1..][j] == s[j + 1];
        }
        forall k | 0 <= k < |s[1..]| ensures s[1..][k] != s[0] {
          assert s[1..][k] == s[k + 1];
        }
      }
      if Distinct(s) {
        forall i, j | 0 <= i < j < |s| ensures s[i] != s[j] {
          if i == 0 {
            assert s[j] == s[1..][j - 1];
          } else {
            assert s[i] == s[1..][i - 1] && s[j] == s[1..][j - 1];
          }
        }
      }
    }
  }

  /** `a < b` on Python strings: lexicographic order of the code points, a proper prefix first. */
  predicate Less(a: string, b: string)
    decreases |a|
  {
    if a == [] then b != []
    else if b == [] then false
    else if a[0] != b[0] then a[0] < b[0]
    else Less(a[1..], b[1..])
  }

  lemma {:induction false} LessIrreflexive(a: string)
    ensures !Less(a, a)
    decreases |a|
  {
    if a != [] {
      LessIrreflexive(a[1..]);
    }
  }

  lemma {:induction false} LessTotal(a: string, b: string)
    ensures a == b || Less(a, b) || Less(b, a)
    decreases |a|
  {
    if a != [] && b != [] && a[0] == b[0] {
      LessTotal(a[1..], b[1..]);
      if a[1..] == b[1..] {
        assert a == [a[0]] + a[1..] && b == [b[0]] + b[1..];
      }
    }
  }

  lemma {:induction false} LessTransitive(a: string, b: string, c: string)
    requires Less(a, b) && Less(b, c)
    ensures Less(a, c)
    decreases |a|
  {
    if a != [] && a[0] == b[0] && b[0] == c[0] {
      LessTransitive(a[1..], b[1..], c[1..]);
    }
  }

  /** Every element precedes the next one, so no element occurs twice. */
  predicate Increasing(s: seq<string>) {
    forall i, j :: 0 <= i < j < |s| ==> Less(s[i], s[j])
  }

  /** `m` is the least element of `s`. */
  predicate Least(m: string, s: set<string>) {
    m in s && forall x :: x in s && x != m ==> Less(m, x)
  }

  /** A non-empty set of strings has exactly one least element. */
  lemma {:induction false} LeastExists(s: set<string>)
    requires s != {}
    ensures exists m :: Least(m, s)
    ensures forall m, m' :: Least(m, s) && Least(m', s) ==> m == m'
    decreases |s|
  {
    forall m, m' | Least(m, s) && Least(m', s) ensures m == m' {
      if m != m' {
        LessTransitive(m, m', m);
        LessIrreflexive(m);
      }
    }
    var y :| y in s;
    if s != {y} {
      LeastExists(s - {y});
      var m :| Least(m, s - {y});
      LessTotal(m, y);
      if Less(m, y) {
        assert Least(m, s);
      } else {
        forall x | x in s && x != y ensures Less(y, x) {
          if x != m {
            LessTransitive(y, m, x);
          }
        }
        assert Least(y, s);
      }
    } else {
      assert Least(y, s);
    }
  }

  /** `sorted(s)` for a set of strings: its elements in increasing order. */
  function SortedSet(s: set<string>): (r: seq<string>)
    ensures (set x | x in r) == s && |r| == |s|
    ensures Increasing(r)
    decreases |s|
  {
    if s == {} then []
    else
      LeastExists(s);
      var m :| Least(m, s);
      var rest := SortedSet(s - {m});
      PrependLeast(m, rest, s);
      assert |s - {m}| == |s| - 1;
      [m] + rest
  }

  lemma PrependLeast(m: string, rest: seq<string>, s: set<string>)
    requires Least(m, s) && (set x | x in rest) == s - {m} && Increasing(rest)
    ensures Increasing([m] + rest) && (set x | x in [m] + rest) == s
  {
    var r := [m] + rest;
    forall i, j | 0 <= i < j < |r| ensures Less(r[i], r[j]) {
      assert r[j] == rest[j - 1] && rest[j - 1] in (set x | x in rest);
      if i > 0 {
        assert r[i] == rest[i - 1];
        assert Less(rest[i - 1], rest[j - 1]);
      } else {
        assert r[i] == m && r[j] in s - {m};
      }
    }
    assert (set x | x in r) == {m} + (set x | x in rest);
  }

  lemma {:induction false} IncreasingNoDuplicates(s: seq<string>)
    requires Increasing(s)
    ensures NoDuplicates(s)
  {
    forall i, j | 0 <= i < j < |s| ensures s[i] != s[j] {
      LessIrreflexive(s[i]);
    }
  }

  /** A loop that computes one value per element and stops at the first exception. */
  function Sequenced<T>(rs: seq<Result<T>>): Result<seq<T>>
    decreases |rs|
  {
    if rs == [] then Success([])
    else
      var before :- Sequenced(rs[..|rs| - 1]);
      var x :- rs[|rs| - 1];
      Success(before + [x])
  }

  /** The loop succeeds exactly when every step does, and then collects the steps' values in order. */
  lemma {:induction false} SequencedAt<T>(rs: seq<Result<T>>)
    ensures Sequenced(rs).Success? <==> forall i :: 0 <= i < |rs| ==> rs[i].Success?
    ensures Sequenced(rs).Success? ==> (|Sequenced(rs).value| == |rs| &&
              forall i :: 0 <= i < |rs| ==> Sequenced(rs).value[i] == rs[i].value)
    decreases |rs|
  {
    if rs != [] {
      var n := |rs| - 1;
      SequencedAt(rs[..n]);
      assert forall i :: 0 <= i < n ==> rs[..n][i] == rs[i];
    }
  }

  /** A loop that fails fails with the error of one of its steps. */
  lemma {:induction false} SequencedError<T>(rs: seq<Result<T>>)
    ensures Sequenced(rs).Failure? ==> exists i :: 0 <= i < |rs| && rs[i] == Failure(Sequenced(rs).error)
    decreases |rs|
  {
    if rs != [] {
      var n := |rs| - 1;
      SequencedError(rs[..n]);
      if Sequenced(rs[..n]).Failure? {
        var i :| 0 <= i < n && rs[..n][i] == Failure(Sequenced(rs[..n]).error);
        assert rs[i] == rs[..n][i];
      }
    }
  }

  /** The first step that fails decides the loop's error. */
  lemma {:induction false} SequencedAbort<T>(rs: seq<Result<T>>, k: nat)
    requires k < |rs| && Sequenced(rs[..k]).Success? && rs[k].Failure?
    ensures Sequenced(rs) == Failure(rs[k].error)
    decreases |rs|
  {
    var n := |rs| - 1;
    if k < n {
      assert rs[..n][..k] == rs[..k];
      assert rs[..n][k] == rs[k];
      SequencedAbort(rs[..n], k);
    } else {
      assert rs[..n] == rs[..k];
    }
  }

  /** One more successful step extends the loop's values. */
  lemma SequencedStep<T>(rs: seq<Result<T>>, k: nat)
    requires k < |rs| && Sequenced(rs[..k]).Success? && rs[k].Success?
    ensures Sequenced(rs[..k + 1]) == Success(Sequenced(rs[..k]).value + [rs[k].value])
  {
    assert rs[..k + 1][..k] == rs[..k];
  }

  /** `seen` extended by the members of `xs` it does not hold yet, in the order they come. */
  function Seen(seen: seq<string>, xs: seq<string>): seq<string>
    decreases |xs|
  {
    if xs == [] then seen
    else
      var before := Seen(seen, xs[..|xs| - 1]);
      if xs[|xs| - 1] in before then before else before + [xs[|xs| - 1]]
  }

  /** Adding keeps what was seen, in front and without duplicates, and adds exactly the members of
      `xs`. */
  lemma {:induction false} SeenFacts(seen: seq<string>, xs: seq<string>)
    ensures NoDuplicates(seen) ==> NoDuplicates(Seen(seen, xs))
    ensures forall x :: x in Seen(seen, xs) <==> x in seen || x in xs
    ensures |seen| <= |Seen(seen, xs)| && Seen(seen, xs)[..|seen|] == seen
    decreases |xs|
  {
    if xs != [] {
      var n := |xs| - 1;
      SeenFacts(seen, xs[..n]);
      assert xs == xs[..n] + [xs[n]];
      var before := Seen(seen, xs[..n]);
      if xs[n] !in before {
        assert (before + [xs[n]])[..|seen|] == before[..|seen|];
      }
    }
  }

  /** Adding two lists in turn is adding their concatenation. */
  lemma {:induction false} SeenConcat(seen: seq<string>, a: seq<string>, b: seq<string>)
    ensures Seen(seen, a + b) == Seen(Seen(seen, a), b)
    decreases |b|
  {
    if b == [] {
      assert a + b == a;
    } else {
      var n := |b| - 1;
      assert (a + b)[..|a| + n] == a + b[..n];
      assert (a + b)[|a| + n] == b[n];
      SeenConcat(seen, a, b[..n]);
    }
  }

  /** A loop that computes a list per element, extends its result by each in turn and stops at the
      first exception. */
  function Concatenated<T>(rs: seq<Result<seq<T>>>): Result<seq<T>>
    decreases |rs|
  {
    if rs == [] then Success([])
    else
      var before :- Concatenated(rs[..|rs| - 1]);
      var xs :- rs[|rs| - 1];
      Success(before + xs)
  }

  lemma ConcatenatedStep<T>(rs: seq<Result<seq<T>>>, k: nat)
    requires k < |rs| && Concatenated(rs[..k]).Success? && rs[k].Success?
    ensures Concatenated(rs[..k + 1]) == Success(Concatenated(rs[..k]).value + rs[k].value)
  {
    assert rs[..k + 1][..k] == rs[..k];
  }

  /** The first failing step is the failure of the whole loop. */
  lemma {:induction false} ConcatenatedAbort<T>(rs: seq<Result<seq<T>>>, k: nat)
    requires k < |rs| && Concatenated(rs[..k]).Success? && rs[k].Failure?
    ensures Concatenated(rs) == Failure(rs[k].error)
    decreases |rs|
  {
    var n := |rs| - 1;
    if k < n {
      assert rs[..n][..k] == rs[..k];
      ConcatenatedAbort(rs[..n], k);
    } else {
      assert rs[..k] == rs[..n];
    }
  }

  /** The loop succeeds exactly when every step does, and every element of its result comes from
      some step. */
  lemma {:induction false} ConcatenatedMembers<T>(rs: seq<Result<seq<T>>>)
    ensures Concatenated(rs).Success? <==> forall i :: 0 <= i < |rs| ==> rs[i].Success?
    ensures Concatenated(rs).Success? ==>
              forall x :: x in Concatenated(rs).value ==> exists i :: 0 <= i < |rs| && rs[i].Success? && x in rs[i].value
    decreases |rs|
  {
    if rs != [] {
      var n := |rs| - 1;
      ConcatenatedMembers(rs[..n]);
      assert forall i :: 0 <= i < n ==> rs[..n][i] == rs[i];
    }
  }

  /** When the loop succeeds, every element of every step is in its result. */
  lemma {:induction false} ConcatenatedHas<T>(rs: seq<Result<seq<T>>>, i: nat, x: T)
    requires Concatenated(rs).Success? && i < |rs|
    ensures rs[i].Success?
    ensures x in rs[i].value ==> x in Concatenated(rs).value
    decreases |rs|
  {
    var n := |rs| - 1;
    assert Concatenated(rs[..n]).Success?;
    if i < n {
      assert rs[..n][i] == rs[i];
      ConcatenatedHas(rs[..n], i, x);
    }
  }

  /** Filtering keeps the elements distinct. */
  lemma {:induction false} FilterNoDuplicates<T>(s: seq<T>, keep: T -> bool)
    requires NoDuplicates(s)
    ensures NoDuplicates(Filter(s, keep))
  {
    if s != [] {
      FilterNoDuplicates(s[1..], keep);
    }
  }
}
