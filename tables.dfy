/**
 The table operations the workflows borrow from pandas, on sequences of rows:
 the keys of a column, `drop_duplicates(subset=..., keep='first' | 'last')`,
 boolean-mask filtering, a left `merge` on one key column, and `sort_values`
 on one string column.
 */
module Tables {
  import opened Wrappers
  import opened Strings

  /** The distinct values of the key column. */
  function Keys<T(==), K>(s: seq<T>, key: T -> K): set<K>
  {
    set x | x in s :: key(x)
  }

  predicate DistinctKeys<T(==), K(==)>(s: seq<T>, key: T -> K)
  {
    forall i, j :: 0 <= i < j < |s| ==> key(s[i]) != key(s[j])
  }

  lemma KeysAppend<T, K>(a: seq<T>, b: seq<T>, key: T -> K)
    ensures Keys(a + b, key) == Keys(a, key) + Keys(b, key)
  {
    assert forall x :: x in a + b <==> x in a || x in b;
  }

  // ---------------------------------------------------------------------------
  // The first and the last row that carries a key

  /** The first row, in table order, whose key is k. */
  function FirstWithKey<T(==), K(==)>(s: seq<T>, k: K, key: T -> K): (r: Option<T>)
    ensures r.Some? <==> k in Keys(s, key)
    ensures r.Some? ==> r.value in s && key(r.value) == k
  {
    if s == [] then None
    else if key(s[0]) == k then Some(s[0])
    else
      assert forall x :: x in s ==> x == s[0] || x in s[1..];
      FirstWithKey(s[1..], k, key)
  }

  /** The last row, in table order, whose key is k. */
  function LastWithKey<T(==), K(==)>(s: seq<T>, k: K, key: T -> K): (r: Option<T>)
    ensures r.Some? <==> k in Keys(s, key)
    ensures r.Some? ==> r.value in s && key(r.value) == k
  {
    if s == [] then None
    else
      assert forall x :: x in s ==> x == s[0] || x in s[1..];
      match LastWithKey(s[1..], k, key)
      case Some(x) => Some(x)
      case None => if key(s[0]) == k then Some(s[0]) else None
  }

  lemma {:induction false} FirstWithKeyAppend<T, K>(a: seq<T>, b: seq<T>, k: K, key: T -> K)
    ensures FirstWithKey(a + b, k, key)
            == if k in Keys(a, key) then FirstWithKey(a, k, key) else FirstWithKey(b, k, key)
  {
    if a != [] {
      assert (a + b)[0] == a[0] && (a + b)[1..] == a[1..] + b;
      FirstWithKeyAppend(a[1..], b, k, key);
      KeysAppend([a[0]], a[1..], key);
      assert [a[0]] + a[1..] == a;
    } else {
      assert a + b == b;
    }
  }

  lemma {:induction false} LastWithKeyAppend<T, K>(a: seq<T>, b: seq<T>, k: K, key: T -> K)
    ensures LastWithKey(a + b, k, key)
            == if k in Keys(b, key) then LastWithKey(b, k, key) else LastWithKey(a, k, key)
  {
    if a != [] {
      assert (a + b)[0] == a[0] && (a + b)[1..] == a[1..] + b;
      LastWithKeyAppend(a[1..], b, k, key);
    } else {
      assert a + b == b;
    }
  }

  // ---------------------------------------------------------------------------
  // drop_duplicates

  /** `drop_duplicates(subset=key, keep='last')`: the last row of each key, in table order. */
  function KeepLast<T(==), K(==)>(s: seq<T>, key: T -> K): seq<T>
  {
    if s == [] then []
    else if key(s[0]) in Keys(s[1..], key) then KeepLast(s[1..], key)
    else [s[0]] + KeepLast(s[1..], key)
  }

  /** `drop_duplicates(subset=key, keep='first')`: the first row of each key, in table order. */
  function KeepFirst<T(==), K(==)>(s: seq<T>, key: T -> K): seq<T>
  {
    if s == [] then []
    else if key(s[|s| - 1]) in Keys(s[..|s| - 1], key) then KeepFirst(s[..|s| - 1], key)
    else KeepFirst(s[..|s| - 1], key) + [s[|s| - 1]]
  }

  /**
   After keep='last' every key of the input is still present, no key occurs
   twice, and the row kept for a key is the last row of the input with that key.
   */
  lemma {:induction false} KeepLastSpec<T, K>(s: seq<T>, key: T -> K)
    ensures Keys(KeepLast(s, key), key) == Keys(s, key)
    ensures DistinctKeys(KeepLast(s, key), key)
    ensures forall x :: x in KeepLast(s, key) ==> LastWithKey(s, key(x), key) == Some(x)
  {
    KeepLastKeys(s, key);
    KeepLastDistinct(s, key);
    KeepLastLast(s, key);
  }

  lemma KeysSingleton<T, K>(x: T, key: T -> K)
    ensures Keys([x], key) == {key(x)}
  {
    assert x in [x];
    assert forall y :: y in [x] ==> y == x;
  }

  lemma {:induction false} KeepLastKeys<T, K>(s: seq<T>, key: T -> K)
    ensures Keys(KeepLast(s, key), key) == Keys(s, key)
  {
    if s != [] {
      var t := s[1..];
      KeepLastKeys(t, key);
      assert s == [s[0]] + t;
      KeysAppend([s[0]], t, key);
      KeysSingleton(s[0], key);
      if key(s[0]) !in Keys(t, key) {
        KeysAppend([s[0]], KeepLast(t, key), key);
      }
    }
  }

  lemma {:induction false} KeepLastDistinct<T, K>(s: seq<T>, key: T -> K)
    ensures DistinctKeys(KeepLast(s, key), key)
  {
    if s != [] {
      var t := s[1..];
      var rt := KeepLast(t, key);
      KeepLastDistinct(t, key);
      if key(s[0]) !in Keys(t, key) {
        KeepLastKeys(t, key);
        var r := [s[0]] + rt;
        forall i, j | 0 <= i < j < |r| ensures key(r[i]) != key(r[j]) {
          if i == 0 {
            assert r[j] in rt;
          } else {
            assert r[i] == rt[i - 1] && r[j] == rt[j - 1];
          }
        }
      }
    }
  }

  lemma {:induction false} KeepLastLast<T, K>(s: seq<T>, key: T -> K)
    ensures forall x :: x in KeepLast(s, key) ==> LastWithKey(s, key(x), key) == Some(x)
  {
    if s != [] {
      var t := s[1..];
      KeepLastLast(t, key);
      forall x | x in KeepLast(s, key) ensures LastWithKey(s, key(x), key) == Some(x) {
        if x in KeepLast(t, key) {
          assert LastWithKey(t, key(x), key) == Some(x);
        } else {
          assert x == s[0] && key(s[0]) !in Keys(t, key);
        }
      }
    }
  }

  /**
   After keep='first' every key of the input is still present, no key occurs
   twice, and the row kept for a key is the first row of the input with that key.
   */
  lemma {:induction false} KeepFirstSpec<T, K>(s: seq<T>, key: T -> K)
    ensures Keys(KeepFirst(s, key), key) == Keys(s, key)
    ensures DistinctKeys(KeepFirst(s, key), key)
    ensures forall x :: x in KeepFirst(s, key) ==> FirstWithKey(s, key(x), key) == Some(x)
  {
    if s != [] {
      var p, z := s[..|s| - 1], s[|s| - 1];
      var r := KeepFirst(s, key);
      KeepFirstSpec(p, key);
      assert s == p + [z];
      KeysAppend(p, [z], key);
      forall x | x in r ensures FirstWithKey(s, key(x), key) == Some(x) {
        FirstWithKeyAppend(p, [z], key(x), key);
      }
      if key(z) !in Keys(p, key) {
        assert r == KeepFirst(p, key) + [z];
        forall i, j | 0 <= i < j < |r| ensures key(r[i]) != key(r[j]) {
          if j == |r| - 1 {
            assert r[i] in KeepFirst(p, key);
          } else {
            assert r[i] == KeepFirst(p, key)[i] && r[j] == KeepFirst(p, key)[j];
          }
        }
        KeysAppend(KeepFirst(p, key), [z], key);
      }
    }
  }

  // ---------------------------------------------------------------------------
  // Row filters

  /** `df[mask]`: the rows that satisfy p, in table order. */
  function Filter<T(==)>(s: seq<T>, p: T -> bool): seq<T>
  {
    if s == [] then [] else (if p(s[0]) then [s[0]] else []) + Filter(s[1..], p)
  }

  /** A filter keeps exactly the rows that satisfy the mask. */
  lemma {:induction false} FilterMembers<T>(s: seq<T>, p: T -> bool)
    ensures forall x :: x in Filter(s, p) <==> x in s && p(x)
  {
    if s != [] {
      FilterMembers(s[1..], p);
      assert forall x :: x in s <==> x == s[0] || x in s[1..];
    }
  }

  /** Each kept row comes from the table and satisfies the mask. */
  lemma {:induction false} FilterAt<T>(s: seq<T>, p: T -> bool, i: nat)
    requires i < |Filter(s, p)|
    ensures Filter(s, p)[i] in s && p(Filter(s, p)[i])
  {
    var h := if p(s[0]) then [s[0]] else [];
    assert Filter(s, p) == h + Filter(s[1..], p);
    if i < |h| {
      assert Filter(s, p)[i] == s[0];
    } else {
      FilterAt(s[1..], p, i - |h|);
      assert Filter(s, p)[i] == Filter(s[1..], p)[i - |h|];
    }
  }

  /** A filter keeps the order of the rows: filtering distributes over concatenation. */
  lemma {:induction false} FilterAppend<T>(a: seq<T>, b: seq<T>, p: T -> bool)
    ensures Filter(a + b, p) == Filter(a, p) + Filter(b, p)
  {
    if a == [] {
      assert a + b == b;
    } else {
      var h := if p(a[0]) then [a[0]] else [];
      assert (a + b)[0] == a[0] && (a + b)[1..] == a[1..] + b;
      assert Filter(a + b, p) == h + Filter(a[1..] + b, p);
      FilterAppend(a[1..], b, p);
      assert Filter(a, p) == h + Filter(a[1..], p);
    }
  }

  /** The rows a mask keeps and the rows it drops are, together, the table. */
  lemma {:induction false} FilterPartition<T>(s: seq<T>, p: T -> bool, q: T -> bool)
    requires forall x :: q(x) == !p(x)
    ensures multiset(Filter(s, p)) + multiset(Filter(s, q)) == multiset(s)
  {
    if s != [] {
      FilterPartition(s[1..], p, q);
      assert s == [s[0]] + s[1..];
    }
  }

  /** No element occurs twice. */
  predicate NoRepeats<T(==)>(s: seq<T>)
  {
    forall i, j :: 0 <= i < j < |s| ==> s[i] != s[j]
  }

  lemma NoRepeatsTail<T>(s: seq<T>)
    requires s != [] && NoRepeats(s)
    ensures NoRepeats(s[1..]) && s[0] !in s[1..]
  {
    forall i, j | 0 <= i < j < |s[1..]| ensures s[1..][i] != s[1..][j] {
      assert s[1..][i] == s[i + 1] && s[1..][j] == s[j + 1];
    }
    forall j | 0 <= j < |s[1..]| ensures s[1..][j] != s[0] { assert s[1..][j] == s[j + 1]; }
  }

  /** A filter of a list without repeats has no repeats. */
  lemma {:induction false} FilterDistinct<T>(s: seq<T>, p: T -> bool)
    requires NoRepeats(s)
    ensures NoRepeats(Filter(s, p))
  {
    if s != [] {
      NoRepeatsTail(s);
      FilterDistinct(s[1..], p);
      FilterMembers(s[1..], p);
      var t := Filter(s[1..], p);
      assert s[0] !in t;
      var r := Filter(s, p);
      if p(s[0]) {
        assert r == [s[0]] + t;
        forall i, j | 0 <= i < j < |r| ensures r[i] != r[j] {
          assert r[j] == t[j - 1];
          if i > 0 { assert r[i] == t[i - 1]; }
        }
      } else {
        assert r == t;
      }
    }
  }

  /** In a list without repeats every element occurs once. */
  lemma {:induction false} DistinctCount<T>(s: seq<T>, x: T)
    requires NoRepeats(s)
    ensures multiset(s)[x] == if x in s then 1 else 0
  {
    if s != [] {
      assert s == [s[0]] + s[1..];
      NoRepeatsTail(s);
      DistinctCount(s[1..], x);
    }
  }

  lemma NotFirstKey<T, K>(s: seq<T>, key: T -> K, x: T)
    requires s != [] && DistinctKeys(s, key) && x in s[1..]
    ensures key(x) != key(s[0])
  {
    var j :| 0 <= j < |s[1..]| && s[1..][j] == x;
    assert s[j + 1] == x;
  }

  /** Filtering a table whose key column has no duplicates leaves none. */
  lemma {:induction false} FilterKeepsDistinctKeys<T, K>(s: seq<T>, p: T -> bool, key: T -> K)
    requires DistinctKeys(s, key)
    ensures DistinctKeys(Filter(s, p), key)
  {
    if s != [] {
      var t := Filter(s[1..], p);
      assert DistinctKeys(s[1..], key) by {
        forall i, j | 0 <= i < j < |s[1..]| ensures key(s[1..][i]) != key(s[1..][j]) {
          assert s[1..][i] == s[i + 1] && s[1..][j] == s[j + 1];
        }
      }
      FilterKeepsDistinctKeys(s[1..], p, key);
      forall i | 0 <= i < |t| ensures key(t[i]) != key(s[0]) {
        FilterAt(s[1..], p, i);
        NotFirstKey(s, key, t[i]);
      }
      var r := Filter(s, p);
      if p(s[0]) {
        assert r == [s[0]] + t;
        forall i, j | 0 <= i < j < |r| ensures key(r[i]) != key(r[j]) {
          assert r[j] == t[j - 1];
          if i > 0 { assert r[i] == t[i - 1]; }
        }
      } else {
        assert r == [] + t == t;
      }
    }
  }

  /** A filter that keeps every row with key k does not change which row is first with k. */
  lemma {:induction false} FirstWithKeyFilter<T, K>(s: seq<T>, p: T -> bool, k: K, key: T -> K)
    requires forall x :: x in s && key(x) == k ==> p(x)
    ensures FirstWithKey(Filter(s, p), k, key) == FirstWithKey(s, k, key)
  {
    if s != [] {
      assert forall x :: x in s[1..] ==> x in s;
      FirstWithKeyFilter(s[1..], p, k, key);
      var t := Filter(s[1..], p);
      if p(s[0]) {
        assert Filter(s, p) == [s[0]] + t;
        assert ([s[0]] + t)[1..] == t;
      } else {
        assert Filter(s, p) == [] + t == t;
      }
    }
  }

  /** Column assignment through a row function. */
  function MapRows<T, U>(s: seq<T>, f: T -> U): seq<U>
  {
    seq(|s|, i requires 0 <= i < |s| => f(s[i]))
  }

  // ---------------------------------------------------------------------------
  // Left merge on one key column

  /** The right rows whose key equals the left key, in right-table order; a missing left key matches nothing. */
  function Matches<R(==), K(==)>(k: Option<K>, rs: seq<R>, rkey: R -> K): seq<R>
  {
    if rs == [] then [] else (if k == Some(rkey(rs[0])) then [rs[0]] else []) + Matches(k, rs[1..], rkey)
  }

  /** The output rows one left row gives: one per match, or one with the right side missing. */
  function JoinOne<L, R, O>(l: L, ms: seq<R>, combine: (L, Option<R>) -> O): seq<O>
  {
    if ms == [] then [combine(l, None)]
    else seq(|ms|, i requires 0 <= i < |ms| => combine(l, Some(ms[i])))
  }

  /** `left.merge(right, left_on=lkey, right_on=rkey, how='left')`. */
  function LeftJoin<L, R(==), K(==), O>(ls: seq<L>, lkey: L -> Option<K>, rs: seq<R>, rkey: R -> K,
                                   combine: (L, Option<R>) -> O): seq<O>
  {
    if ls == [] then []
    else JoinOne(ls[0], Matches(lkey(ls[0]), rs, rkey), combine) + LeftJoin(ls[1..], lkey, rs, rkey, combine)
  }

  /** The right row a left key selects, when there is one. */
  function Lookup<R(==), K(==)>(k: Option<K>, rs: seq<R>, rkey: R -> K): Option<R>
  {
    match k
    case None => None
    case Some(k) => FirstWithKey(rs, k, rkey)
  }

  lemma {:induction false} MatchesUnique<R, K>(k: Option<K>, rs: seq<R>, rkey: R -> K)
    requires DistinctKeys(rs, rkey)
    ensures Matches(k, rs, rkey) == match Lookup(k, rs, rkey) case Some(r) => [r] case None => []
  {
    if rs != [] {
      var t := rs[1..];
      assert DistinctKeys(t, rkey) by {
        forall i, j | 0 <= i < j < |t| ensures rkey(t[i]) != rkey(t[j]) {
          assert t[i] == rs[i + 1] && t[j] == rs[j + 1];
        }
      }
      MatchesUnique(k, t, rkey);
      if k == Some(rkey(rs[0])) {
        assert rkey(rs[0]) !in Keys(t, rkey) by {
          forall x | x in t ensures rkey(x) != rkey(rs[0]) {
            var j :| 0 <= j < |t| && t[j] == x;
            assert rs[j + 1] == x;
          }
        }
      }
    }
  }

  /**
   A left merge against a right table whose key column has no duplicates keeps
   every left row exactly once, in order, each joined with its match or with a
   missing right side.
   */
  lemma {:induction false} LeftJoinUnique<L, R, K, O>(ls: seq<L>, lkey: L -> Option<K>, rs: seq<R>, rkey: R -> K,
                                                  combine: (L, Option<R>) -> O)
    requires DistinctKeys(rs, rkey)
    ensures |LeftJoin(ls, lkey, rs, rkey, combine)| == |ls|
    ensures forall i :: 0 <= i < |ls| ==>
              LeftJoin(ls, lkey, rs, rkey, combine)[i] == combine(ls[i], Lookup(lkey(ls[i]), rs, rkey))
  {
    if ls != [] {
      var head := JoinOne(ls[0], Matches(lkey(ls[0]), rs, rkey), combine);
      var tail := LeftJoin(ls[1..], lkey, rs, rkey, combine);
      JoinOneUnique(ls[0], lkey, rs, rkey, combine);
      LeftJoinUnique(ls[1..], lkey, rs, rkey, combine);
      assert LeftJoin(ls, lkey, rs, rkey, combine) == head + tail;
      forall i | 0 < i < |ls| ensures (head + tail)[i] == combine(ls[i], Lookup(lkey(ls[i]), rs, rkey)) {
        assert (head + tail)[i] == tail[i - 1];
        assert ls[1..][i - 1] == ls[i];
      }
    }
  }

  lemma JoinOneUnique<L, R, K, O>(l: L, lkey: L -> Option<K>, rs: seq<R>, rkey: R -> K, combine: (L, Option<R>) -> O)
    requires DistinctKeys(rs, rkey)
    ensures JoinOne(l, Matches(lkey(l), rs, rkey), combine) == [combine(l, Lookup(lkey(l), rs, rkey))]
  {
    MatchesUnique(lkey(l), rs, rkey);
  }

  /** A left merge never loses a left row: every one gives at least one output row. */
  lemma {:induction false} LeftJoinKeepsRows<L, R, K, O>(ls: seq<L>, lkey: L -> Option<K>, rs: seq<R>, rkey: R -> K,
                                                          combine: (L, Option<R>) -> O)
    ensures |LeftJoin(ls, lkey, rs, rkey, combine)| >= |ls|
  {
    if ls != [] {
      LeftJoinKeepsRows(ls[1..], lkey, rs, rkey, combine);
    }
  }

  /** The matches of a key are the right rows with that key. */
  lemma {:induction false} MatchesMembers<R, K>(k: Option<K>, rs: seq<R>, rkey: R -> K)
    ensures forall r :: r in Matches(k, rs, rkey) <==> r in rs && k == Some(rkey(r))
    ensures Matches(k, rs, rkey) == [] <==> k.None? || k.value !in Keys(rs, rkey)
  {
    if rs != [] {
      MatchesMembers(k, rs[1..], rkey);
      assert forall r :: r in rs <==> r == rs[0] || r in rs[1..];
      KeysAppend([rs[0]], rs[1..], rkey);
      assert rs == [rs[0]] + rs[1..];
    }
  }

  /**
   Every left row reaches the output: joined with each of its matches, or once
   with a missing right side when it has none.
   */
  lemma {:induction false} LeftJoinMembers<L, R, K, O>(ls: seq<L>, lkey: L -> Option<K>, rs: seq<R>, rkey: R -> K,
                                                        combine: (L, Option<R>) -> O)
    ensures forall i, r :: 0 <= i < |ls| && r in Matches(lkey(ls[i]), rs, rkey) ==>
              combine(ls[i], Some(r)) in LeftJoin(ls, lkey, rs, rkey, combine)
    ensures forall i :: 0 <= i < |ls| && Matches(lkey(ls[i]), rs, rkey) == [] ==>
              combine(ls[i], None) in LeftJoin(ls, lkey, rs, rkey, combine)
  {
    if ls != [] {
      LeftJoinMembers(ls[1..], lkey, rs, rkey, combine);
      var head := JoinOne(ls[0], Matches(lkey(ls[0]), rs, rkey), combine);
      var tail := LeftJoin(ls[1..], lkey, rs, rkey, combine);
      assert LeftJoin(ls, lkey, rs, rkey, combine) == head + tail;
      forall i, r | 0 <= i < |ls| && r in Matches(lkey(ls[i]), rs, rkey)
        ensures combine(ls[i], Some(r)) in head + tail
      {
        if i == 0 {
          var ms := Matches(lkey(ls[0]), rs, rkey);
          var j :| 0 <= j < |ms| && ms[j] == r;
          assert head[j] == combine(ls[0], Some(r));
        } else {
          assert ls[1..][i - 1] == ls[i];
        }
      }
      forall i | 0 <= i < |ls| && Matches(lkey(ls[i]), rs, rkey) == []
        ensures combine(ls[i], None) in head + tail
      {
        if i == 0 {
          assert head[0] == combine(ls[0], None);
        } else {
          assert ls[1..][i - 1] == ls[i];
        }
      }
    }
  }

  // ---------------------------------------------------------------------------
  // sort_values on one string column

  predicate SortedBy<T(==)>(s: seq<T>, key: T -> string)
  {
    forall i, j :: 0 <= i < j < |s| ==> LexLe(key(s[i]), key(s[j]))
  }

  function Insert<T(==)>(x: T, s: seq<T>, key: T -> string): seq<T>
  {
    if s == [] then [x]
    else if LexLe(key(x), key(s[0])) then [x] + s
    else [s[0]] + Insert(x, s[1..], key)
  }

  /** `sort_values(by=key)`: the rows in ascending key order, equal keys in table order. */
  function SortBy<T(==)>(s: seq<T>, key: T -> string): seq<T>
  {
    if s == [] then [] else Insert(s[0], SortBy(s[1..], key), key)
  }

  lemma InsertSpec<T>(x: T, s: seq<T>, key: T -> string)
    requires SortedBy(s, key)
    ensures SortedBy(Insert(x, s, key), key)
    ensures multiset(Insert(x, s, key)) == multiset(s) + multiset{x}
  {
    InsertPerm(x, s, key);
    InsertSorted(x, s, key);
  }

  /** Inserting adds exactly the one row. */
  lemma {:induction false} InsertPerm<T>(x: T, s: seq<T>, key: T -> string)
    ensures multiset(Insert(x, s, key)) == multiset(s) + multiset{x}
  {
    if s != [] {
      assert s == [s[0]] + s[1..];
      if !LexLe(key(x), key(s[0])) {
        InsertPerm(x, s[1..], key);
      }
    }
  }

  /** Inserting into a sorted table keeps it sorted. */
  lemma {:induction false} InsertSorted<T>(x: T, s: seq<T>, key: T -> string)
    requires SortedBy(s, key)
    ensures SortedBy(Insert(x, s, key), key)
  {
    if s != [] {
      if LexLe(key(x), key(s[0])) {
        forall j | 0 <= j < |s| ensures LexLe(key(x), key(s[j])) {
          if j > 0 { LexLeTransitive(key(x), key(s[0]), key(s[j])); }
        }
        SortedCons(x, s, key);
      } else {
        LexLeTotal(key(x), key(s[0]));
        SortedTail(s, key);
        InsertSorted(x, s[1..], key);
        InsertBound(x, s, key);
        SortedCons(s[0], Insert(x, s[1..], key), key);
      }
    }
  }

  lemma SortedCons<T>(a: T, t: seq<T>, key: T -> string)
    requires SortedBy(t, key)
    requires forall j :: 0 <= j < |t| ==> LexLe(key(a), key(t[j]))
    ensures SortedBy([a] + t, key)
  {
    var r := [a] + t;
    forall i, j | 0 <= i < j < |r| ensures LexLe(key(r[i]), key(r[j])) {
      assert r[j] == t[j - 1];
      if i > 0 { assert r[i] == t[i - 1]; }
    }
  }

  lemma SortedTail<T>(s: seq<T>, key: T -> string)
    requires s != [] && SortedBy(s, key)
    ensures SortedBy(s[1..], key)
  {
    forall i, j | 0 <= i < j < |s[1..]| ensures LexLe(key(s[1..][i]), key(s[1..][j])) {
      assert s[1..][i] == s[i + 1] && s[1..][j] == s[j + 1];
    }
  }

  /** Every row of the insertion into the tail is at or above the head's key. */
  lemma InsertBound<T>(x: T, s: seq<T>, key: T -> string)
    requires s != [] && SortedBy(s, key) && LexLe(key(s[0]), key(x))
    ensures forall j :: 0 <= j < |Insert(x, s[1..], key)| ==> LexLe(key(s[0]), key(Insert(x, s[1..], key)[j]))
  {
    var t := Insert(x, s[1..], key);
    InsertPerm(x, s[1..], key);
    forall j | 0 <= j < |t| ensures LexLe(key(s[0]), key(t[j])) {
      assert t[j] in multiset(t);
      if t[j] != x {
        assert t[j] in multiset(s[1..]);
        var m :| 0 <= m < |s[1..]| && s[1..][m] == t[j];
        assert s[m + 1] == t[j];
      }
    }
  }

  /** Sorting gives a sorted permutation of the table. */
  lemma {:induction false} SortBySpec<T>(s: seq<T>, key: T -> string)
    ensures SortedBy(SortBy(s, key), key)
    ensures multiset(SortBy(s, key)) == multiset(s)
  {
    if s != [] {
      SortBySpec(s[1..], key);
      InsertSpec(s[0], SortBy(s[1..], key), key);
      assert s == [s[0]] + s[1..];
    }
  }

  lemma MapRowsCons<T, U>(x: T, s: seq<T>, f: T -> U)
    ensures MapRows([x] + s, f) == [f(x)] + MapRows(s, f)
  {
  }

  lemma {:induction false} InsertMap<T>(x: T, s: seq<T>, key: T -> string, f: T -> T)
    requires forall y :: key(f(y)) == key(y)
    ensures Insert(f(x), MapRows(s, f), key) == MapRows(Insert(x, s, key), f)
  {
    if s == [] {
      assert MapRows([x], f) == [f(x)];
    } else {
      var ms := MapRows(s, f);
      assert ms[0] == f(s[0]) && ms[1..] == MapRows(s[1..], f);
      assert key(f(x)) == key(x) && key(f(s[0])) == key(s[0]);
      if LexLe(key(x), key(s[0])) {
        MapRowsCons(x, s, f);
      } else {
        InsertMap(x, s[1..], key, f);
        MapRowsCons(s[0], Insert(x, s[1..], key), f);
      }
    }
  }

  /** Sorting commutes with a row function that leaves the sort key alone. */
  lemma {:induction false} SortByMap<T>(s: seq<T>, key: T -> string, f: T -> T)
    requires forall y :: key(f(y)) == key(y)
    ensures SortBy(MapRows(s, f), key) == MapRows(SortBy(s, key), f)
  {
    if s != [] {
      SortByMap(s[1..], key, f);
      assert MapRows(s, f)[0] == f(s[0]) && MapRows(s, f)[1..] == MapRows(s[1..], f);
      InsertMap(s[0], SortBy(s[1..], key), key, f);
    }
  }
}
