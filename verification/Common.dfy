/** Small vocabulary shared by the models: optional values, results, identifiers and finite sums. */
module Common {

  /** Stands for a UUID. The order of the numbers stands for the database's order of UUIDs. */
  type Id = nat

  datatype Option<+T> = None | Some(value: T)

  datatype Result<+T, +E> = Ok(value: T) | Err(error: E)

  function Min(a: int, b: int): int {
    if a <= b then a else b
  }

  function Max(a: int, b: int): int {
    if a <= b then b else a
  }

  /** The point of [lo, hi] nearest to x. */
  function Clamp(x: int, lo: int, hi: int): int {
    Max(lo, Min(x, hi))
  }

  ghost predicate Ascending(s: seq<Id>) {
    forall j, k :: 0 <= j < k < |s| ==> s[j] < s[k]
  }

  ghost predicate Distinct<T>(s: seq<T>) {
    forall j, k :: 0 <= j < k < |s| ==> s[j] != s[k]
  }

  predicate IsLeast(m: Id, s: set<Id>) {
    m in s && forall y :: y in s ==> m <= y
  }

  lemma {:induction false} LeastExists(s: set<Id>)
    requires s != {}
    ensures exists m :: IsLeast(m, s)
  {
    var x :| x in s;
    if exists y :: y in s && y < x {
      var y :| y in s && y < x;
      var below := set z | z in s && z < x;
      assert y in below && x !in below;
      assert below < s;
      LeastExists(below);
      var m :| IsLeast(m, below);
      forall y | y in s ensures m <= y {
        if y < x {
          assert y in below;
        }
      }
      assert IsLeast(m, s);
    } else {
      assert IsLeast(x, s);
    }
  }

  function Least(s: set<Id>): (m: Id)
    requires s != {}
    ensures m in s && forall y :: y in s ==> m <= y
  {
    LeastExists(s);
    var m :| m in s && IsLeast(m, s);
    m
  }

  /** `ORDER BY id`: the members of a finite set in ascending order. */
  function SortedIds(s: set<Id>): (r: seq<Id>)
    ensures Ascending(r) && Distinct(r)
    ensures forall i :: i in r <==> i in s
    ensures |r| == |s|
  {
    if s == {} then [] else
    var m := Least(s);
    var rest := SortedIds(s - {m});
    [m] + rest
  }

  /** Two ascending listings of the same members are the same listing. */
  lemma {:induction false} AscendingUnique(a: seq<Id>, b: seq<Id>)
    requires Ascending(a) && Ascending(b)
    requires forall i :: i in a <==> i in b
    ensures a == b
  {
    if b != [] {
      assert b[0] in b;
    }
    if a != [] {
      assert a[0] in a;
      assert a[0] in b && b[0] in a;
      assert a[0] == b[0];
      forall i ensures i in a[1..] <==> i in b[1..] {
        assert i in a <==> i == a[0] || i in a[1..];
        assert i in b <==> i == b[0] || i in b[1..];
        if i in a[1..] { var j :| 1 <= j < |a| && a[j] == i; assert a[0] < i; }
        if i in b[1..] { var j :| 1 <= j < |b| && b[j] == i; assert b[0] < i; }
      }
      AscendingUnique(a[1..], b[1..]);
      assert a == [a[0]] + a[1..] && b == [b[0]] + b[1..];
    }
  }

  /** The set of elements of a duplicate-free sequence is as large as the sequence is long. */
  lemma {:induction false} DistinctCardinality<T>(s: seq<T>)
    requires Distinct(s)
    ensures |set x | x in s| == |s|
  {
    if s == [] {
    } else {
      var n := |s| - 1;
      DistinctCardinality(s[..n]);
      assert (set x | x in s) == (set x | x in s[..n]) + {s[n]};
    }
  }

  function Sum(xs: seq<int>): int {
    if xs == [] then 0 else Sum(xs[..|xs|-1]) + xs[|xs|-1]
  }

  lemma {:induction false} SumAppend(xs: seq<int>, ys: seq<int>)
    ensures Sum(xs + ys) == Sum(xs) + Sum(ys)
  {
    if ys == [] {
      assert xs + ys == xs;
    } else {
      var n := |ys| - 1;
      assert (xs + ys)[..|xs + ys| - 1] == xs + ys[..n];
      SumAppend(xs, ys[..n]);
    }
  }

  lemma MultisetWithout<T>(s: seq<T>, n: nat)
    requires n < |s|
    ensures multiset(s[..n] + s[n + 1..]) == multiset(s) - multiset{s[n]}
  {
    assert s == s[..n] + ([s[n]] + s[n + 1..]);
  }

  /** A permutation of xs holds xs's last element somewhere; without it, the rests are permutations too. */
  lemma PermutationSplit<T>(xs: seq<T>, ys: seq<T>) returns (n: nat)
    requires multiset(xs) == multiset(ys) && xs != []
    ensures n < |ys| && ys[n] == xs[|xs| - 1]
    ensures multiset(xs[..|xs| - 1]) == multiset(ys[..n] + ys[n + 1..])
  {
    var x := xs[|xs| - 1];
    assert xs == xs[..|xs| - 1] + [x];
    assert x in multiset(ys);
    n :| 0 <= n < |ys| && ys[n] == x;
    MultisetWithout(ys, n);
  }
}
