/** Sequence operations shared by the app's lists: JavaScript's `filter`, `slice(0, n)`
    and `Array.from(new Set(xs))`, with the order facts the pages rely on. */
module Seqs {

  /** `a` can be obtained from `b` by deleting elements: same elements, same relative order. */
  predicate IsSubsequence<T(==,!new)>(a: seq<T>, b: seq<T>)
    decreases |b|
  {
    if a == [] then true
    else if b == [] then false
    else (a[0] == b[0] && IsSubsequence(a[1..], b[1..])) || IsSubsequence(a, b[1..])
  }

  /** No value occurs twice. */
  predicate NoDuplicates<T(==,!new)>(s: seq<T>) {
    forall i, j :: 0 <= i < j < |s| ==> s[i] != s[j]
  }

  /** `s.filter(keep)`. */
  function Filter<T(==,!new)>(s: seq<T>, keep: T -> bool): (r: seq<T>)
    ensures |r| <= |s|
    ensures forall x :: x in r <==> x in s && keep(x)
  {
    if s == [] then []
    else if keep(s[0]) then [s[0]] + Filter(s[1..], keep)
    else Filter(s[1..], keep)
  }

  /** What `filter` keeps stays in its original relative order. */
  lemma {:induction false} FilterIsSubsequence<T(!new)>(s: seq<T>, keep: T -> bool)
    ensures IsSubsequence(Filter(s, keep), s)
    decreases |s|
  {
    if s != [] {
      FilterIsSubsequence(s[1..], keep);
      if keep(s[0]) {
        assert Filter(s, keep)[1..] == Filter(s[1..], keep);
      }
    }
  }

  /** `filter` keeps every copy of a value it keeps and no copy of one it drops. */
  lemma {:induction false} FilterMultiset<T(!new)>(s: seq<T>, keep: T -> bool)
    ensures forall x :: multiset(Filter(s, keep))[x] == if keep(x) then multiset(s)[x] else 0
    decreases |s|
  {
    if s != [] {
      FilterMultiset(s[1..], keep);
      assert s == [s[0]] + s[1..];
      assert multiset(s) == multiset([s[0]]) + multiset(s[1..]);
      if keep(s[0]) {
        assert multiset(Filter(s, keep)) == multiset([s[0]]) + multiset(Filter(s[1..], keep));
      }
    }
  }

  /** The test `y => y !== x`. */
  function NotEqualTo<T(==)>(x: T): T -> bool {
    (y: T) => y != x
  }

  /** `s.filter(y => y !== x)`. */
  function RemoveAll<T(==,!new)>(s: seq<T>, x: T): (r: seq<T>)
    ensures x !in r
    ensures forall y :: y != x ==> (y in r <==> y in s)
  {
    Filter(s, NotEqualTo(x))
  }

  /** `s.slice(0, n)`. */
  function Take<T>(s: seq<T>, n: nat): (r: seq<T>)
    ensures |r| == if |s| <= n then |s| else n
    ensures r == s[..|r|]
  {
    if |s| <= n then s else s[..n]
  }

  /** `Array.from(new Set(s))`: every value once, at the position of its first occurrence. */
  function Dedup<T(==,!new)>(s: seq<T>): seq<T>
    decreases |s|
  {
    if s == [] then [] else [s[0]] + Dedup(RemoveAll(s[1..], s[0]))
  }

  /** What the Set keeps: every value of `s` exactly once, nothing else, in the input's
      relative order. */
  lemma {:induction false} DedupFacts<T(!new)>(s: seq<T>)
    ensures NoDuplicates(Dedup(s))
    ensures forall x :: x in Dedup(s) <==> x in s
    ensures IsSubsequence(Dedup(s), s)
    decreases |s|
  {
    if s != [] {
      var rest := RemoveAll(s[1..], s[0]);
      var r := Dedup(s);
      DedupFacts(rest);
      FilterIsSubsequence(s[1..], NotEqualTo(s[0]));
      assert r == [s[0]] + Dedup(rest);
      NoDuplicatesCons(s[0], Dedup(rest));
      SubsequenceTransitive(Dedup(rest), rest, s[1..]);
      assert r[1..] == Dedup(rest);
    }
  }

  lemma NoDuplicatesCons<T(!new)>(x: T, s: seq<T>)
    requires x !in s && NoDuplicates(s)
    ensures NoDuplicates([x] + s)
  {
    var t := [x] + s;
    forall i, j | 0 <= i < j < |t|
      ensures t[i] != t[j]
    {
      assert t[j] == s[j - 1];
      if i > 0 { assert t[i] == s[i - 1]; }
    }
  }

  lemma {:induction false} SubsequenceTransitive<T(!new)>(a: seq<T>, b: seq<T>, c: seq<T>)
    requires IsSubsequence(a, b) && IsSubsequence(b, c)
    ensures IsSubsequence(a, c)
    decreases |c|
  {
    if a != [] {
      if b[0] == c[0] && IsSubsequence(b[1..], c[1..]) {
        if a[0] == b[0] && IsSubsequence(a[1..], b[1..]) {
          SubsequenceTransitive(a[1..], b[1..], c[1..]);
        } else {
          SubsequenceTransitive(a, b[1..], c[1..]);
        }
      } else {
        SubsequenceTransitive(a, b, c[1..]);
      }
    }
  }

  /** A prefix of a sequence without repeats has none either. */
  lemma PrefixNoDuplicates<T(!new)>(s: seq<T>, k: nat)
    requires NoDuplicates(s) && k <= |s|
    ensures NoDuplicates(s[..k])
  {
    forall i, j | 0 <= i < j < k
      ensures s[..k][i] != s[..k][j]
    {
      assert s[..k][i] == s[i] && s[..k][j] == s[j];
    }
  }

  /** A prefix followed by anything keeps the prefix as a subsequence. */
  lemma {:induction false} PrefixIsSubsequence<T(!new)>(a: seq<T>, b: seq<T>)
    ensures IsSubsequence(a, a + b)
    decreases |a|
  {
    if a == [] {
    } else {
      assert (a + b)[1..] == a[1..] + b;
      PrefixIsSubsequence(a[1..], b);
    }
  }

  /** Every element of a subsequence is an element of the whole. */
  lemma {:induction false} SubsequenceMembers<T(!new)>(a: seq<T>, b: seq<T>)
    requires IsSubsequence(a, b)
    ensures forall x :: x in a ==> x in b
    decreases |b|
  {
    if a != [] {
      if a[0] == b[0] && IsSubsequence(a[1..], b[1..]) {
        SubsequenceMembers(a[1..], b[1..]);
        assert forall x :: x in a ==> x == a[0] || x in a[1..];
      } else {
        SubsequenceMembers(a, b[1..]);
      }
    }
  }

  /** Any prefix of a subsequence is a subsequence. */
  lemma PrefixOfSubsequence<T(!new)>(a: seq<T>, k: nat, b: seq<T>)
    requires IsSubsequence(a, b) && k <= |a|
    ensures IsSubsequence(a[..k], b)
  {
    assert a == a[..k] + a[k..];
    PrefixIsSubsequence(a[..k], a[k..]);
    SubsequenceTransitive(a[..k], a, b);
  }

  /** Filtering distributes over concatenation. */
  lemma {:induction false} FilterAppend<T(!new)>(a: seq<T>, b: seq<T>, keep: T -> bool)
    ensures Filter(a + b, keep) == Filter(a, keep) + Filter(b, keep)
    decreases |a|
  {
    if a == [] {
      assert a + b == b;
    } else {
      assert (a + b)[0] == a[0];
      assert (a + b)[1..] == a[1..] + b;
      FilterAppend(a[1..], b, keep);
    }
  }

  /** Filtering keeps everything when every element passes. */
  lemma {:induction false} FilterKeepsAll<T(!new)>(s: seq<T>, keep: T -> bool)
    requires forall x :: x in s ==> keep(x)
    ensures Filter(s, keep) == s
    decreases |s|
  {
    if s != [] {
      assert forall x :: x in s[1..] ==> x in s;
      FilterKeepsAll(s[1..], keep);
    }
  }

  /** Filtering keeps nothing when no element passes. */
  lemma FilterKeepsNone<T(!new)>(s: seq<T>, keep: T -> bool)
    requires forall x :: x in s ==> !keep(x)
    ensures Filter(s, keep) == []
  {
  }

  /** Filtering four blocks where the test passes everything in the first and treats each
      other block as a whole: the first block, then each other block whole or not at all. */
  lemma FilterBlocks<T(!new)>(a: seq<T>, b: seq<T>, c: seq<T>, d: seq<T>, keep: T -> bool,
                              kb: bool, kc: bool, kd: bool)
    requires forall x :: x in a ==> keep(x)
    requires forall x :: x in b ==> keep(x) == kb
    requires forall x :: x in c ==> keep(x) == kc
    requires forall x :: x in d ==> keep(x) == kd
    ensures Filter(a + b + c + d, keep)
            == a + (if kb then b else []) + (if kc then c else []) + (if kd then d else [])
  {
    FilterAppend(a + b + c, d, keep);
    FilterAppend(a + b, c, keep);
    FilterAppend(a, b, keep);
    FilterKeepsAll(a, keep);
    if kb { FilterKeepsAll(b, keep); } else { FilterKeepsNone(b, keep); }
    if kc { FilterKeepsAll(c, keep); } else { FilterKeepsNone(c, keep); }
    if kd { FilterKeepsAll(d, keep); } else { FilterKeepsNone(d, keep); }
  }

  /** A cut of the Set of `[x] + s` keeps, after `x`, only values of `s` in their order. */
  lemma {:induction false} DedupConsTakeTail<T(!new)>(x: T, s: seq<T>, n: nat)
    requires n > 0
    ensures var next := Take(Dedup([x] + s), n);
            |next| > 0 && IsSubsequence(next[1..], s)
  {
    var rest := RemoveAll(s, x);
    var tail := Dedup(rest);
    var d := Dedup([x] + s);
    DedupCons(x, s);
    assert d == [x] + tail;
    var next := Take(d, n);
    var k := |next|;
    assert 1 <= k <= |d| && next == d[..k];
    assert next[1..] == tail[..k - 1];
    assert IsSubsequence(tail, rest) by {
      DedupFacts(rest);
    }
    assert IsSubsequence(rest, s) by {
      FilterIsSubsequence(s, NotEqualTo(x));
    }
    PrefixOfSubsequence(tail, k - 1, rest);
    SubsequenceTransitive(tail[..k - 1], rest, s);
  }

  /** Filtering a duplicate-free sequence leaves it duplicate-free. */
  lemma {:induction false} FilterNoDuplicates<T(!new)>(s: seq<T>, keep: T -> bool)
    requires NoDuplicates(s)
    ensures NoDuplicates(Filter(s, keep))
    decreases |s|
  {
    if s != [] {
      FilterNoDuplicates(s[1..], keep);
      if keep(s[0]) {
        assert s[0] !in s[1..];
        NoDuplicatesCons(s[0], Filter(s[1..], keep));
      }
    }
  }

  /** On a duplicate-free sequence, the Set round trip changes nothing. */
  lemma {:induction false} DedupOfDistinct<T(!new)>(s: seq<T>)
    requires NoDuplicates(s)
    ensures Dedup(s) == s
    decreases |s|
  {
    if s != [] {
      assert s[0] !in s[1..];
      FilterKeepsAll(s[1..], NotEqualTo(s[0]));
      assert RemoveAll(s[1..], s[0]) == s[1..];
      DedupOfDistinct(s[1..]);
    }
  }

  /** The first value of a non-empty sequence leads its Set, followed by the Set of the
      remaining values with that one removed. */
  lemma DedupCons<T(!new)>(x: T, t: seq<T>)
    ensures Dedup([x] + t) == [x] + Dedup(RemoveAll(t, x))
  {
    assert ([x] + t)[0] == x;
    assert ([x] + t)[1..] == t;
  }

  lemma RemoveAllSnoc<T(!new)>(t: seq<T>, x: T, y: T)
    ensures RemoveAll(t + [y], x) == if y == x then RemoveAll(t, x) else RemoveAll(t, x) + [y]
  {
    FilterAppend(t, [y], NotEqualTo(x));
    assert [y][1..] == [];
  }

  /** One step of the Set of `s + [y]`: its head, then the Set of the rest without that
      head, where `y` is dropped iff it equals the head. */
  lemma DedupSnocHead<T(!new)>(s: seq<T>, y: T)
    requires s != []
    ensures Dedup(s + [y]) == [s[0]] + Dedup(if y == s[0] then RemoveAll(s[1..], s[0])
                                              else RemoveAll(s[1..], s[0]) + [y])
  {
    var u := s + [y];
    assert u[0] == s[0] && u[1..] == s[1..] + [y];
    RemoveAllSnoc(s[1..], s[0], y);
  }

  /** Adding one more value to the Set: it is appended iff it has not been seen. */
  lemma {:induction false} DedupSnoc<T(!new)>(s: seq<T>, y: T)
    ensures Dedup(s + [y]) == if y in s then Dedup(s) else Dedup(s) + [y]
    decreases |s|
  {
    if s == [] {
      assert Dedup([y]) == [y] + Dedup(RemoveAll([], y));
      assert s + [y] == [y];
    } else {
      var x, rest := s[0], RemoveAll(s[1..], s[0]);
      DedupSnocHead(s, y);
      if y != x {
        DedupSnoc(rest, y);
        assert (y in rest) == (y in s) by {
          assert s == [x] + s[1..];
        }
        if y !in s {
          assert [x] + (Dedup(rest) + [y]) == ([x] + Dedup(rest)) + [y];
        }
      }
    }
  }

  /** One step of the Set walk: with `seen` holding exactly the values before index `i`,
      `s[i]` is appended iff it is not in `seen`, and adding it to `seen` keeps `seen`
      exact for the next index. */
  lemma DedupStep<T(!new)>(s: seq<T>, i: nat, seen: set<T>)
    requires i < |s|
    requires forall x :: x in seen <==> x in s[..i]
    ensures Dedup(s[..i + 1]) == if s[i] in seen then Dedup(s[..i]) else Dedup(s[..i]) + [s[i]]
    ensures forall x :: x in seen + {s[i]} <==> x in s[..i + 1]
  {
    assert s[..i + 1] == s[..i] + [s[i]];
    DedupSnoc(s[..i], s[i]);
  }

  /** The Set construction done the way the runtime does it: walk the array once,
      appending each value not seen before. It agrees with `Dedup`. */
  method DedupBySet<T(==,!new)>(s: seq<T>) returns (r: seq<T>)
    ensures r == Dedup(s)
  {
    var seen: set<T> := {};
    r := [];
    var i := 0;
    while i < |s|
      invariant 0 <= i <= |s|
      invariant r == Dedup(s[..i])
      invariant forall x :: x in seen <==> x in s[..i]
    {
      DedupStep(s, i, seen);
      if s[i] !in seen {
        r := r + [s[i]];
      }
      seen := seen + {s[i]};
      i := i + 1;
    }
    assert s[..|s|] == s;
  }
}
