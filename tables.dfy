/**
  Queries over a table kept as a map from row id to record: the rows a
  `findAll` reads, a `where` filter over them, and an `ORDER BY ... DESC`.
*/
module Tables {

  /** The ids of `s` strictly increase along the sequence. */
  predicate IdsIncreasing<R>(s: seq<(int, R)>) {
    forall i, j :: 0 <= i < j < |s| ==> s[i].0 < s[j].0
  }

  /** No id occurs twice in `s`. */
  predicate DistinctIds<R>(s: seq<(int, R)>) {
    forall i, j :: 0 <= i < j < |s| ==> s[i].0 != s[j].0
  }

  /** `s` is ordered by `key` from largest to smallest. */
  predicate SortedDesc<R>(s: seq<(int, R)>, key: R -> int) {
    forall i, j :: 0 <= i < j < |s| ==> key(s[i].1) >= key(s[j].1)
  }

  /** The rows of `m` whose ids lie in [0, n), in increasing id order. */
  function Rows<R(!new)>(m: map<int, R>, n: nat): (s: seq<(int, R)>)
    ensures forall e :: e in s <==> 0 <= e.0 < n && e.0 in m && m[e.0] == e.1
    ensures IdsIncreasing(s)
  {
    if n == 0 then []
    else
      var prefix := Rows(m, n - 1);
      var last := if n - 1 in m then [(n - 1, m[n - 1])] else [];
      assert forall e :: e in prefix + last <==> e in prefix || e in last;
      prefix + last
  }

  /** The rows of `s` that satisfy `keep`, in their order in `s`. */
  function Where<R(!new)>(s: seq<(int, R)>, keep: R -> bool): (r: seq<(int, R)>)
    ensures forall e :: e in r <==> e in s && keep(e.1)
    ensures IdsIncreasing(s) ==> IdsIncreasing(r)
  {
    if s == [] then []
    else
      var rest := Where(s[1..], keep);
      assert forall e :: e in s <==> e == s[0] || e in s[1..];
      if keep(s[0].1) then [s[0]] + rest else rest
  }

  /** Every row of a permutation of `s` plus `x` is `x` or a row of `s`. */
  lemma MembersOfInsert<R>(x: (int, R), s: seq<(int, R)>, r: seq<(int, R)>)
    requires multiset(r) == multiset(s) + multiset{x}
    ensures forall e :: e in r ==> e == x || e in s
  {
    forall e | e in r ensures e == x || e in s {
      assert e in multiset(r);
    }
  }

  /** In a descending sequence no row's key exceeds the first row's. */
  lemma {:induction false} HeadIsLargest<R>(s: seq<(int, R)>, key: R -> int)
    requires s != [] && SortedDesc(s, key)
    ensures forall e :: e in s ==> key(e.1) <= key(s[0].1)
  {
    forall e | e in s ensures key(e.1) <= key(s[0].1) {
      var j :| 0 <= j < |s| && s[j] == e;
    }
  }

  /** A row whose key is at least every key of a descending sequence can go in front of it. */
  lemma {:induction false} PrependDesc<R>(y: (int, R), t: seq<(int, R)>, key: R -> int)
    requires SortedDesc(t, key)
    requires forall e :: e in t ==> key(e.1) <= key(y.1)
    ensures SortedDesc([y] + t, key)
  {
    var r := [y] + t;
    forall i, j | 0 <= i < j < |r| ensures key(r[i].1) >= key(r[j].1) {
      assert r[j] == t[j - 1];
      if i > 0 {
        assert r[i] == t[i - 1];
      } else {
        assert t[j - 1] in t;
      }
    }
  }

  /** `s` with `x` placed before the first row whose key does not exceed `x`'s. */
  function InsertDesc<R>(x: (int, R), s: seq<(int, R)>, key: R -> int): (r: seq<(int, R)>)
    requires SortedDesc(s, key)
    ensures SortedDesc(r, key)
    ensures multiset(r) == multiset(s) + multiset{x}
  {
    if s == [] then [x]
    else if key(x.1) >= key(s[0].1) then
      HeadIsLargest(s, key);
      PrependDesc(x, s, key);
      [x] + s
    else
      var rest := InsertDesc(x, s[1..], key);
      assert s == [s[0]] + s[1..];
      MembersOfInsert(x, s[1..], rest);
      HeadIsLargest(s, key);
      PrependDesc(s[0], rest, key);
      [s[0]] + rest
  }

  /** Inserting a row whose id is new into rows with distinct ids keeps the ids distinct. */
  lemma {:induction false} InsertDescDistinct<R>(x: (int, R), s: seq<(int, R)>, key: R -> int)
    requires SortedDesc(s, key) && DistinctIds(s)
    requires forall e :: e in s ==> e.0 != x.0
    ensures DistinctIds(InsertDesc(x, s, key))
  {
    if s == [] || key(x.1) >= key(s[0].1) {
    } else {
      var rest := InsertDesc(x, s[1..], key);
      assert s == [s[0]] + s[1..];
      InsertDescDistinct(x, s[1..], key);
      MembersOfInsert(x, s[1..], rest);
      assert forall j :: 0 <= j < |rest| ==> s[0].0 != rest[j].0 by {
        forall j | 0 <= j < |rest| ensures s[0].0 != rest[j].0 {
          assert rest[j] in rest;
        }
      }
      assert InsertDesc(x, s, key) == [s[0]] + rest;
    }
  }

  /** `s` sorted by `key`, largest first (insertion sort). */
  function SortDesc<R>(s: seq<(int, R)>, key: R -> int): (r: seq<(int, R)>)
    ensures SortedDesc(r, key)
    ensures multiset(r) == multiset(s)
  {
    if s == [] then []
    else
      assert s == [s[0]] + s[1..];
      InsertDesc(s[0], SortDesc(s[1..], key), key)
  }

  /** Sorting rows with distinct ids keeps the ids distinct. */
  lemma {:induction false} SortDescDistinct<R>(s: seq<(int, R)>, key: R -> int)
    requires DistinctIds(s)
    ensures DistinctIds(SortDesc(s, key))
  {
    if s != [] {
      var rest := SortDesc(s[1..], key);
      assert s == [s[0]] + s[1..];
      SortDescDistinct(s[1..], key);
      assert forall e :: e in rest ==> e.0 != s[0].0 by {
        forall e | e in rest ensures e.0 != s[0].0 {
          assert e in multiset(rest);
          assert e in s[1..];
        }
      }
      InsertDescDistinct(s[0], rest, key);
    }
  }

  /**
    The rows of `m` with ids in [0, n) that satisfy `keep`, ordered by `key`
    from largest to smallest; rows with equal keys keep no promised order.
  */
  function Ordered<R(!new)>(m: map<int, R>, n: nat, keep: R -> bool, key: R -> int): (r: seq<(int, R)>)
    ensures forall e :: e in r <==> 0 <= e.0 < n && e.0 in m && m[e.0] == e.1 && keep(e.1)
    ensures SortedDesc(r, key)
    ensures DistinctIds(r)
  {
    var rows := Where(Rows(m, n), keep);
    var r := SortDesc(rows, key);
    SortDescDistinct(rows, key);
    assert forall e :: e in r <==> e in rows by {
      forall e ensures e in r <==> e in rows {
        assert e in r <==> e in multiset(r);
        assert e in rows <==> e in multiset(rows);
      }
    }
    r
  }

  /** The rows of `m` that satisfy `keep`; the order of a query without ORDER BY is not modelled. */
  function Select<R>(m: map<int, R>, keep: R -> bool): (r: map<int, R>)
    ensures forall id :: id in r <==> id in m && keep(m[id])
    ensures forall id :: id in r ==> r[id] == m[id]
  {
    map id | id in m && keep(m[id]) :: m[id]
  }
}
