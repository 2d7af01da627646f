/** The array operations the rental store and the pages apply to their record lists:
    `filter`, `find`, `map` over records that match a key, and `reduce` into a sum or a count. */
module Tables {
  import opened Wrappers

  /** `rows.filter(keep)`. */
  function Filter<T(!new)>(rows: seq<T>, keep: T -> bool): (r: seq<T>)
    ensures |r| <= |rows|
    ensures forall x :: x in r <==> x in rows && keep(x)
  {
    if rows == [] then []
    else
      var rest := Filter(rows[1..], keep);
      assert rows == [rows[0]] + rows[1..];
      if keep(rows[0]) then [rows[0]] + rest else rest
  }

  /** `b` lists some of the elements of `a`, in the order `a` has them. */
  ghost predicate IsSubsequence<T>(b: seq<T>, a: seq<T>)
  {
    if b == [] then true
    else if a == [] then false
    else (b[0] == a[0] && IsSubsequence(b[1..], a[1..])) || IsSubsequence(b, a[1..])
  }

  /** Filtering keeps the surviving records in their original relative order. */
  lemma {:induction false} FilterIsSubsequence<T(!new)>(rows: seq<T>, keep: T -> bool)
    ensures IsSubsequence(Filter(rows, keep), rows)
  {
    if rows != [] {
      FilterIsSubsequence(rows[1..], keep);
    }
  }

  /** Filtering a concatenation filters each part and keeps them in order. */
  lemma {:induction false} FilterAppend<T(!new)>(a: seq<T>, b: seq<T>, keep: T -> bool)
    ensures Filter(a + b, keep) == Filter(a, keep) + Filter(b, keep)
  {
    if a != [] {
      assert (a + b)[1..] == a[1..] + b;
      FilterAppend(a[1..], b, keep);
    } else {
      assert a + b == b;
    }
  }

  /** A filter that every record passes returns the list unchanged. */
  lemma {:induction false} FilterKeepsAll<T(!new)>(rows: seq<T>, keep: T -> bool)
    requires forall i :: 0 <= i < |rows| ==> keep(rows[i])
    ensures Filter(rows, keep) == rows
  {
    if rows != [] {
      FilterKeepsAll(rows[1..], keep);
    }
  }

  /** A record occurs in the filtered list as often as in the original list when it
      passes the test, and not at all when it fails it. */
  lemma {:induction false} FilterMultiset<T(!new)>(rows: seq<T>, keep: T -> bool, x: T)
    ensures multiset(Filter(rows, keep))[x] == if keep(x) then multiset(rows)[x] else 0
  {
    if rows != [] {
      FilterMultiset(rows[1..], keep, x);
      assert rows == [rows[0]] + rows[1..];
    }
  }

  /** Filtering twice with the same test is filtering once. */
  lemma {:induction false} FilterIdempotent<T(!new)>(rows: seq<T>, keep: T -> bool)
    ensures Filter(Filter(rows, keep), keep) == Filter(rows, keep)
  {
    var r := Filter(rows, keep);
    forall i | 0 <= i < |r| ensures keep(r[i]) {
      assert r[i] in r;
    }
    FilterKeepsAll(r, keep);
  }

  /** The number of records that pass `keep` (`rows.filter(keep).length`). */
  function Count<T>(rows: seq<T>, keep: T -> bool): (n: nat)
    ensures n <= |rows|
  {
    if rows == [] then 0 else Count(rows[..|rows| - 1], keep) + (if keep(rows[|rows| - 1]) then 1 else 0)
  }

  lemma {:induction false} CountIsFilterLength<T(!new)>(rows: seq<T>, keep: T -> bool)
    ensures Count(rows, keep) == |Filter(rows, keep)|
  {
    if rows != [] {
      var n := |rows| - 1;
      assert rows == rows[..n] + [rows[n]];
      FilterAppend(rows[..n], [rows[n]], keep);
      CountIsFilterLength(rows[..n], keep);
    }
  }

  /** Records that pass two exclusive tests are at most all the records. */
  lemma {:induction false} CountDisjoint<T>(rows: seq<T>, p: T -> bool, q: T -> bool)
    requires forall x :: !(p(x) && q(x))
    ensures Count(rows, p) + Count(rows, q) <= |rows|
  {
    if rows != [] {
      CountDisjoint(rows[..|rows| - 1], p, q);
    }
  }

  /** `rows.filter(keep).reduce((total, x) => total + amount(x), 0)`. */
  function SumWhere<T>(rows: seq<T>, keep: T -> bool, amount: T -> int): int
  {
    if rows == [] then 0
    else SumWhere(rows[..|rows| - 1], keep, amount) + (if keep(rows[|rows| - 1]) then amount(rows[|rows| - 1]) else 0)
  }

  lemma {:induction false} SumWhereAppend<T>(a: seq<T>, b: seq<T>, keep: T -> bool, amount: T -> int)
    ensures SumWhere(a + b, keep, amount) == SumWhere(a, keep, amount) + SumWhere(b, keep, amount)
  {
    if b == [] {
      assert a + b == a;
    } else {
      var n := |b| - 1;
      assert (a + b)[..|a + b| - 1] == a + b[..n];
      SumWhereAppend(a, b[..n], keep, amount);
    }
  }

  /** Only the records that pass the test contribute to the sum: putting a record that
      fails it anywhere in the list leaves the sum as it was. */
  lemma SumWhereIgnores<T>(a: seq<T>, x: T, b: seq<T>, keep: T -> bool, amount: T -> int)
    requires !keep(x)
    ensures SumWhere(a + [x] + b, keep, amount) == SumWhere(a + b, keep, amount)
  {
    SumWhereAppend(a + [x], b, keep, amount);
    SumWhereAppend(a, [x], keep, amount);
    SumWhereAppend(a, b, keep, amount);
    assert SumWhere([x], keep, amount) == 0 by {
      assert [x][..0] == [];
    }
  }

  /** `rows.find(r => key(r) === k)`: the first record with key `k`, if any. */
  function FindKey<T(==)>(rows: seq<T>, key: T -> string, k: string): (r: Option<T>)
    ensures r.None? <==> forall i :: 0 <= i < |rows| ==> key(rows[i]) != k
    ensures r.Some? ==> exists i :: 0 <= i < |rows| && rows[i] == r.value && key(rows[i]) == k
                                      && forall j :: 0 <= j < i ==> key(rows[j]) != k
  {
    if rows == [] then None
    else if key(rows[0]) == k then Some(rows[0])
    else
      var r := FindKey(rows[1..], key, k);
      if r.Some? then
        var i :| 0 <= i < |rows[1..]| && rows[1..][i] == r.value && key(rows[1..][i]) == k
                 && forall j :: 0 <= j < i ==> key(rows[1..][j]) != k;
        assert rows[i + 1] == r.value && forall j :: 0 <= j < i + 1 ==> key(rows[j]) != k;
        r
      else r
  }

  /** `rows.filter(r => key(r) !== k)`: every record with key `k` removed. */
  function RemoveKey<T(!new)>(rows: seq<T>, key: T -> string, k: string): (r: seq<T>)
    ensures forall x :: x in r <==> x in rows && key(x) != k
  {
    Filter(rows, x => key(x) != k)
  }

  /** Removing a key no record carries changes nothing. */
  lemma RemoveAbsentKey<T(!new)>(rows: seq<T>, key: T -> string, k: string)
    requires forall i :: 0 <= i < |rows| ==> key(rows[i]) != k
    ensures RemoveKey(rows, key, k) == rows
  {
    FilterKeepsAll(rows, x => key(x) != k);
  }

  /** Removal takes away exactly as many records as carry the key. */
  lemma RemoveKeyLength<T(!new)>(rows: seq<T>, key: T -> string, k: string)
    ensures |RemoveKey(rows, key, k)| + Count(rows, x => key(x) == k) == |rows|
  {
    CountIsFilterLength(rows, x => key(x) != k);
    CountSplit(rows, x => key(x) == k, x => key(x) != k);
  }

  lemma {:induction false} CountSplit<T>(rows: seq<T>, p: T -> bool, q: T -> bool)
    requires forall x :: q(x) == !p(x)
    ensures Count(rows, p) + Count(rows, q) == |rows|
  {
    if rows != [] {
      CountSplit(rows[..|rows| - 1], p, q);
    }
  }

  /** `rows.map(r => key(r) === k ? merge(r, patch, now) : r)`. */
  function UpdateKey<T, P>(rows: seq<T>, key: T -> string, k: string, merge: (T, P, int) -> T, patch: P, now: int): (r: seq<T>)
    ensures |r| == |rows|
    ensures forall i :: 0 <= i < |rows| ==> r[i] == if key(rows[i]) == k then merge(rows[i], patch, now) else rows[i]
  {
    if rows == [] then []
    else
      [if key(rows[0]) == k then merge(rows[0], patch, now) else rows[0]]
      + UpdateKey(rows[1..], key, k, merge, patch, now)
  }

  /** Updating a key no record carries changes nothing. */
  lemma UpdateAbsentKey<T, P>(rows: seq<T>, key: T -> string, k: string, merge: (T, P, int) -> T, patch: P, now: int)
    requires forall i :: 0 <= i < |rows| ==> key(rows[i]) != k
    ensures UpdateKey(rows, key, k, merge, patch, now) == rows
  {
  }

  /** Growing a prefix by one element appends that element. */
  lemma PrefixSnoc<T>(s: seq<T>, n: nat)
    requires n < |s|
    ensures s[..n + 1] == s[..n] + [s[n]]
  {
  }

  /** A prefix and the rest hold, together, the elements of the whole. */
  lemma PrefixMultiset<T>(s: seq<T>, n: nat)
    requires n <= |s|
    ensures multiset(s[..n]) + multiset(s[n..]) == multiset(s)
  {
    assert s == s[..n] + s[n..];
  }
}
