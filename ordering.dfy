/** The order in which a group-by lays out string keys: Python's ordering of
    str values, lexicographic by code point, with a proper prefix first. */
module Ordering {

  predicate Below(a: string, b: string)
  {
    if a == [] then b != []
    else if b == [] then false
    else a[0] < b[0] || (a[0] == b[0] && Below(a[1..], b[1..]))
  }

  lemma {:induction false} BelowIrreflexive(a: string)
    ensures !Below(a, a)
  {
    if a != [] {
      BelowIrreflexive(a[1..]);
    }
  }

  lemma {:induction false} BelowTransitive(a: string, b: string, c: string)
    requires Below(a, b) && Below(b, c)
    ensures Below(a, c)
  {
    if a != [] && b != [] && c != [] && a[0] == b[0] && b[0] == c[0] {
      BelowTransitive(a[1..], b[1..], c[1..]);
    }
  }

  lemma {:induction false} BelowTotal(a: string, b: string)
    ensures a == b || Below(a, b) || Below(b, a)
  {
    if a != [] && b != [] && a[0] == b[0] {
      BelowTotal(a[1..], b[1..]);
      assert a == [a[0]] + a[1..];
      assert b == [b[0]] + b[1..];
    }
  }

  /** Strictly ascending, hence free of duplicates. */
  predicate Ascending(ks: seq<string>)
  {
    forall i, j :: 0 <= i < j < |ks| ==> Below(ks[i], ks[j])
  }

  /** Adds one key to an ascending key list, keeping it ascending and without duplicates. */
  function InsertKey(ks: seq<string>, x: string): (r: seq<string>)
    requires Ascending(ks)
    ensures Ascending(r)
    ensures forall y :: y in r <==> y in ks || y == x
  {
    if ks == [] then [x]
    else if x == ks[0] then ks
    else if Below(x, ks[0]) then
      AboveAll(x, ks);
      [x] + ks
    else
      BelowTotal(x, ks[0]);
      var rest := InsertKey(ks[1..], x);
      AboveAll(ks[0], rest);
      [ks[0]] + rest
  }

  /** A key below the head of an ascending list, or below each of its members, heads a longer ascending list. */
  lemma AboveAll(x: string, ks: seq<string>)
    requires Ascending(ks)
    requires ks != [] ==> Below(x, ks[0]) || forall y :: y in ks ==> Below(x, y)
    ensures Ascending([x] + ks)
  {
    if ks != [] && Below(x, ks[0]) {
      forall j | 0 <= j < |ks| ensures Below(x, ks[j]) {
        if j > 0 { BelowTransitive(x, ks[0], ks[j]); }
      }
    }
    var r := [x] + ks;
    forall i, j | 0 <= i < j < |r| ensures Below(r[i], r[j]) {
      if i > 0 { assert r[i] == ks[i - 1] && r[j] == ks[j - 1]; }
      else { assert r[j] == ks[j - 1]; assert r[j] in ks; }
    }
  }

  lemma AscendingDistinct(ks: seq<string>, i: int, j: int)
    requires Ascending(ks) && 0 <= i < |ks| && 0 <= j < |ks| && i != j
    ensures ks[i] != ks[j]
  {
    if i < j { BelowIrreflexive(ks[i]); } else { BelowIrreflexive(ks[j]); }
  }
}
