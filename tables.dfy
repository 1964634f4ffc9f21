/** Two-column summary tables (a group key and a count) and the descending sort
    the dashboard applies to most of them. */
module Tables {
  import opened Ordering

  datatype CountRow = CountRow(key: string, count: nat)

  /** Rows ordered by count, largest first; nothing is said about the order of ties. */
  predicate NonIncreasing(t: seq<CountRow>)
  {
    forall i, j :: 0 <= i < j < |t| ==> t[i].count >= t[j].count
  }

  /** Rows in the ascending key order in which a group-by emits its groups. */
  predicate KeyAscending(t: seq<CountRow>)
  {
    forall i, j :: 0 <= i < j < |t| ==> Below(t[i].key, t[j].key)
  }

  predicate DistinctKeys(t: seq<CountRow>)
  {
    forall i, j :: 0 <= i < j < |t| ==> t[i].key != t[j].key
  }

  /** Exactly one row for each key in keys, and no other row. */
  predicate OneRowPerKey(t: seq<CountRow>, keys: set<string>)
  {
    && DistinctKeys(t)
    && (forall i :: 0 <= i < |t| ==> t[i].key in keys)
    && (forall k :: k in keys ==> exists i :: 0 <= i < |t| && t[i].key == k)
  }

  function SumCounts(t: seq<CountRow>): nat
  {
    if t == [] then 0 else t[0].count + SumCounts(t[1..])
  }

  /** Places one row into a table sorted by count, largest first. */
  function InsertByCount(x: CountRow, t: seq<CountRow>): (r: seq<CountRow>)
    requires NonIncreasing(t)
    ensures NonIncreasing(r)
    ensures multiset(r) == multiset(t) + multiset{x}
    ensures SumCounts(r) == SumCounts(t) + x.count
    ensures DistinctKeys(t) && (forall y :: y in t ==> y.key != x.key) ==> DistinctKeys(r)
  {
    if t == [] then [x]
    else if x.count >= t[0].count then
      InsertAtHead(x, t);
      [x] + t
    else
      var rest := InsertByCount(x, t[1..]);
      InsertBehindHead(x, t, rest);
      [t[0]] + rest
  }

  lemma InsertAtHead(x: CountRow, t: seq<CountRow>)
    requires NonIncreasing(t) && t != [] && x.count >= t[0].count
    ensures NonIncreasing([x] + t)
    ensures multiset([x] + t) == multiset(t) + multiset{x}
    ensures SumCounts([x] + t) == SumCounts(t) + x.count
    ensures DistinctKeys(t) && (forall y :: y in t ==> y.key != x.key) ==> DistinctKeys([x] + t)
  {
    var r := [x] + t;
    assert r[1..] == t;
    forall j | 1 <= j < |r| ensures r[j] == t[j - 1] && r[j] in t {
    }
  }

  lemma InsertBehindHead(x: CountRow, t: seq<CountRow>, rest: seq<CountRow>)
    requires NonIncreasing(t) && t != [] && x.count < t[0].count
    requires NonIncreasing(rest) && multiset(rest) == multiset(t[1..]) + multiset{x}
    requires SumCounts(rest) == SumCounts(t[1..]) + x.count
    requires DistinctKeys(t[1..]) && (forall y :: y in t[1..] ==> y.key != x.key) ==> DistinctKeys(rest)
    ensures NonIncreasing([t[0]] + rest)
    ensures multiset([t[0]] + rest) == multiset(t) + multiset{x}
    ensures SumCounts([t[0]] + rest) == SumCounts(t) + x.count
    ensures DistinctKeys(t) && (forall y :: y in t ==> y.key != x.key) ==> DistinctKeys([t[0]] + rest)
  {
    assert t == [t[0]] + t[1..];
    assert ([t[0]] + rest)[1..] == rest;
    BehindHeadRows(x, t, rest);
    if DistinctKeys(t) && (forall y :: y in t ==> y.key != x.key) {
      assert DistinctKeys(t[1..]);
      assert forall y :: y in t[1..] ==> y in t;
      PrependDistinct(t[0], rest);
    }
    PrependNonIncreasing(t[0], rest);
  }

  /** Every row of rest is x or a row of the tail of t, so none is above the head of t. */
  lemma BehindHeadRows(x: CountRow, t: seq<CountRow>, rest: seq<CountRow>)
    requires NonIncreasing(t) && t != [] && x.count < t[0].count
    requires multiset(rest) == multiset(t[1..]) + multiset{x}
    ensures forall y :: y in rest ==> y.count <= t[0].count
    ensures DistinctKeys(t) && x.key != t[0].key ==> forall y :: y in rest ==> y.key != t[0].key
  {
    forall y | y in rest ensures y.count <= t[0].count && (DistinctKeys(t) && x.key != t[0].key ==> y.key != t[0].key) {
      assert y in multiset(rest);
      if y != x {
        assert y in multiset(t[1..]);
        var j :| 0 <= j < |t[1..]| && t[1..][j] == y;
        assert t[j + 1] == y;
      }
    }
  }

  lemma PrependNonIncreasing(h: CountRow, rest: seq<CountRow>)
    requires NonIncreasing(rest) && forall y :: y in rest ==> y.count <= h.count
    ensures NonIncreasing([h] + rest)
  {
    var r := [h] + rest;
    forall i, j | 0 <= i < j < |r| ensures r[i].count >= r[j].count {
      assert r[j] == rest[j - 1];
      if i > 0 { assert r[i] == rest[i - 1]; }
    }
  }

  lemma PrependDistinct(h: CountRow, rest: seq<CountRow>)
    requires DistinctKeys(rest) && forall y :: y in rest ==> y.key != h.key
    ensures DistinctKeys([h] + rest)
  {
    var r := [h] + rest;
    forall i, j | 0 <= i < j < |r| ensures r[i].key != r[j].key {
      assert r[j] == rest[j - 1];
      if i > 0 { assert r[i] == rest[i - 1]; }
    }
  }

  /** The table sorted by count, largest first: a permutation of its rows. */
  function SortByCount(t: seq<CountRow>): (r: seq<CountRow>)
    ensures NonIncreasing(r)
    ensures multiset(r) == multiset(t)
    ensures SumCounts(r) == SumCounts(t)
    ensures DistinctKeys(t) ==> DistinctKeys(r)
  {
    if t == [] then []
    else
      var rest := SortByCount(t[1..]);
      HeadKeyFresh(t, rest);
      assert t == [t[0]] + t[1..];
      InsertByCount(t[0], rest)
  }

  /** With distinct keys, the head's key is not among the keys of any permutation of the tail. */
  lemma HeadKeyFresh(t: seq<CountRow>, rest: seq<CountRow>)
    requires t != [] && multiset(rest) == multiset(t[1..])
    ensures DistinctKeys(t) ==> DistinctKeys(t[1..]) && forall y :: y in rest ==> y.key != t[0].key
  {
    if DistinctKeys(t) {
      forall y | y in rest ensures y.key != t[0].key {
        assert y in multiset(t[1..]);
        var j :| 0 <= j < |t[1..]| && t[1..][j] == y;
        assert t[j + 1] == y;
      }
    }
  }

  /** Sorting a table with one row per key, each row holding the value f gives its key,
      yields again such a table. */
  lemma SortedRows(g: seq<CountRow>, keys: set<string>, f: string -> nat)
    requires OneRowPerKey(g, keys) && forall j :: 0 <= j < |g| ==> g[j].count == f(g[j].key)
    ensures OneRowPerKey(SortByCount(g), keys)
    ensures forall i :: 0 <= i < |SortByCount(g)| ==> SortByCount(g)[i].count == f(SortByCount(g)[i].key)
  {
    var t := SortByCount(g);
    PermutedRows(g, t, keys);
    forall i | 0 <= i < |t| ensures t[i].count == f(t[i].key) {
      var j :| 0 <= j < |g| && g[j] == t[i];
    }
  }

  /** A permutation of a table with one row per key is again one. */
  lemma PermutedRows(g: seq<CountRow>, t: seq<CountRow>, keys: set<string>)
    requires multiset(t) == multiset(g)
    requires OneRowPerKey(g, keys) && DistinctKeys(t)
    ensures OneRowPerKey(t, keys)
    ensures forall i :: 0 <= i < |t| ==> t[i] in g
  {
    forall i | 0 <= i < |t| ensures t[i] in g {
      assert t[i] in multiset(t);
    }
    forall k | k in keys ensures exists i :: 0 <= i < |t| && t[i].key == k {
      var j :| 0 <= j < |g| && g[j].key == k;
      assert g[j] in multiset(g);
      var i :| 0 <= i < |t| && t[i] == g[j];
    }
  }
}
