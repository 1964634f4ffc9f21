/** What a group-by over the ledger computes: the groups it forms, the lines it
    counts, the distinct identifiers and the payment sums within one group. */
module Grouping {
  import opened Wrappers
  import opened Ledger
  import opened Ordering

  /** The filter of a group-by that looks at every line. */
  predicate Always(r: Record)
  {
    true
  }

  /** A line that the filter keeps and whose key is k; a line whose key is null
      belongs to no group. */
  predicate Selected<K(==)>(r: Record, keep: Record -> bool, key: Record -> Option<K>, k: K)
  {
    keep(r) && key(r) == Some(k)
  }

  /** The keys of the groups formed over the lines that keep admits. */
  function GroupKeys<K(==)>(recs: seq<Record>, keep: Record -> bool, key: Record -> Option<K>): set<K>
  {
    set r | r in recs && keep(r) && key(r).Some? :: key(r).value
  }

  lemma GroupKeysCons<K>(recs: seq<Record>, keep: Record -> bool, key: Record -> Option<K>)
    requires recs != []
    ensures GroupKeys(recs, keep, key) ==
            (if keep(recs[0]) && key(recs[0]).Some? then {key(recs[0]).value} else {}) + GroupKeys(recs[1..], keep, key)
  {
    assert forall r :: r in recs <==> r == recs[0] || r in recs[1..];
  }

  /** The number of lines in group k (the size of the group). */
  function Count<K(==)>(recs: seq<Record>, keep: Record -> bool, key: Record -> Option<K>, k: K): (n: nat)
    ensures n <= |recs|
    ensures n > 0 <==> k in GroupKeys(recs, keep, key)
  {
    if recs == [] then 0
    else
      GroupKeysCons(recs, keep, key);
      (if Selected(recs[0], keep, key, k) then 1 else 0) + Count(recs[1..], keep, key, k)
  }

  /** The number of lines that the filter keeps and that have a key: the lines
      that end up in some group. */
  function CountKept<K(==)>(recs: seq<Record>, keep: Record -> bool, key: Record -> Option<K>): (n: nat)
    ensures n <= |recs|
    ensures n > 0 <==> GroupKeys(recs, keep, key) != {}
  {
    if recs == [] then 0
    else
      GroupKeysCons(recs, keep, key);
      (if keep(recs[0]) && key(recs[0]).Some? then 1 else 0) + CountKept(recs[1..], keep, key)
  }

  /** The distinct identifiers (as picked by id) among the lines of group k:
      what nunique reports is the size of this set. */
  function DistinctIds<K(==)>(recs: seq<Record>, key: Record -> Option<K>, k: K, id: Record -> string): (s: set<string>)
    ensures |s| <= Count(recs, Always, key, k)
    ensures s != {} <==> k in GroupKeys(recs, Always, key)
  {
    if recs == [] then {}
    else
      var rest := DistinctIds(recs[1..], key, k, id);
      assert forall r :: r in recs <==> r == recs[0] || r in recs[1..];
      GroupKeysCons(recs, Always, key);
      if key(recs[0]) == Some(k) then {id(recs[0])} + rest else rest
  }

  /** An identifier is counted for group k exactly when some line of the group carries it. */
  lemma {:induction false} DistinctIdsMembers<K>(recs: seq<Record>, key: Record -> Option<K>, k: K, id: Record -> string, x: string)
    ensures x in DistinctIds(recs, key, k, id) <==> exists r :: r in recs && key(r) == Some(k) && id(r) == x
  {
    if recs != [] {
      DistinctIdsMembers(recs[1..], key, k, id, x);
      assert forall r :: r in recs <==> r == recs[0] || r in recs[1..];
    }
  }

  /** The sum of payment over the lines of group k; an empty sum is zero. */
  function Payment<K(==)>(recs: seq<Record>, key: Record -> Option<K>, k: K): (p: real)
    ensures k !in GroupKeys(recs, Always, key) ==> p == 0.0
  {
    if recs == [] then 0.0
    else
      GroupKeysCons(recs, Always, key);
      (if key(recs[0]) == Some(k) then recs[0].payment else 0.0) + Payment(recs[1..], key, k)
  }

  /** The sum of payment over the whole ledger. */
  function TotalPayment(recs: seq<Record>): real
  {
    if recs == [] then 0.0 else recs[0].payment + TotalPayment(recs[1..])
  }

  predicate NoDup<K(==)>(ks: seq<K>)
  {
    forall i, j :: 0 <= i < j < |ks| ==> ks[i] != ks[j]
  }

  lemma AscendingNoDup(ks: seq<string>)
    requires Ascending(ks)
    ensures NoDup(ks)
  {
    forall i, j | 0 <= i < j < |ks| ensures ks[i] != ks[j] {
      AscendingDistinct(ks, i, j);
    }
  }

  /** The payment sums of the groups listed in ks, added up. */
  function PaymentOver<K(==)>(recs: seq<Record>, key: Record -> Option<K>, ks: seq<K>): real
  {
    if ks == [] then 0.0 else Payment(recs, key, ks[0]) + PaymentOver(recs, key, ks[1..])
  }

  /** The sizes of the groups listed in ks, added up. */
  function CountOver<K(==)>(recs: seq<Record>, keep: Record -> bool, key: Record -> Option<K>, ks: seq<K>): nat
  {
    if ks == [] then 0 else Count(recs, keep, key, ks[0]) + CountOver(recs, keep, key, ks[1..])
  }

  /** Peeling the first line off the ledger takes its payment off exactly the one
      listed group it belongs to. */
  lemma {:induction false} PaymentOverCons<K>(recs: seq<Record>, key: Record -> Option<K>, ks: seq<K>)
    requires recs != [] && NoDup(ks)
    ensures PaymentOver(recs, key, ks) ==
            (if key(recs[0]).Some? && key(recs[0]).value in ks then recs[0].payment else 0.0)
            + PaymentOver(recs[1..], key, ks)
  {
    if ks != [] {
      PaymentOverCons(recs, key, ks[1..]);
      assert key(recs[0]) == Some(ks[0]) ==> ks[0] !in ks[1..];
      assert forall k :: k in ks <==> k == ks[0] || k in ks[1..];
    }
  }

  /** Group payment sums over a duplicate-free list of keys that covers every
      line's key add up to the ledger's total payment: each line is in exactly one group. */
  lemma {:induction false} PaymentPartition<K>(recs: seq<Record>, key: Record -> Option<K>, ks: seq<K>)
    requires NoDup(ks)
    requires forall r :: r in recs ==> key(r).Some? && key(r).value in ks
    ensures PaymentOver(recs, key, ks) == TotalPayment(recs)
  {
    if recs == [] {
      PaymentOverEmpty(recs, key, ks);
    } else {
      PaymentOverCons(recs, key, ks);
      PaymentPartition(recs[1..], key, ks);
    }
  }

  lemma {:induction false} PaymentOverEmpty<K>(recs: seq<Record>, key: Record -> Option<K>, ks: seq<K>)
    requires recs == []
    ensures PaymentOver(recs, key, ks) == 0.0
  {
    if ks != [] { PaymentOverEmpty(recs, key, ks[1..]); }
  }

  lemma {:induction false} CountOverCons<K>(recs: seq<Record>, keep: Record -> bool, key: Record -> Option<K>, ks: seq<K>)
    requires recs != [] && NoDup(ks)
    ensures CountOver(recs, keep, key, ks) ==
            (if keep(recs[0]) && key(recs[0]).Some? && key(recs[0]).value in ks then 1 else 0)
            + CountOver(recs[1..], keep, key, ks)
  {
    if ks != [] {
      CountOverCons(recs, keep, key, ks[1..]);
      assert key(recs[0]) == Some(ks[0]) ==> ks[0] !in ks[1..];
      assert forall k :: k in ks <==> k == ks[0] || k in ks[1..];
    }
  }

  lemma {:induction false} CountOverEmpty<K>(recs: seq<Record>, keep: Record -> bool, key: Record -> Option<K>, ks: seq<K>)
    requires recs == []
    ensures CountOver(recs, keep, key, ks) == 0
  {
    if ks != [] { CountOverEmpty(recs, keep, key, ks[1..]); }
  }

  /** Group sizes over a duplicate-free list of keys that covers every kept,
      keyed line add up to the number of such lines. */
  lemma {:induction false} CountPartition<K>(recs: seq<Record>, keep: Record -> bool, key: Record -> Option<K>, ks: seq<K>)
    requires NoDup(ks)
    requires forall r :: r in recs && keep(r) && key(r).Some? ==> key(r).value in ks
    ensures CountOver(recs, keep, key, ks) == CountKept(recs, keep, key)
  {
    if recs == [] {
      CountOverEmpty(recs, keep, key, ks);
    } else {
      CountOverCons(recs, keep, key, ks);
      CountPartition(recs[1..], keep, key, ks);
    }
  }

  /** The keys of the groups, ascending, as a group-by lays them out. */
  function SortedKeys(recs: seq<Record>, keep: Record -> bool, key: Record -> Option<string>): (ks: seq<string>)
    ensures Ascending(ks)
    ensures forall k :: k in ks <==> k in GroupKeys(recs, keep, key)
  {
    if recs == [] then []
    else
      GroupKeysCons(recs, keep, key);
      var rest := SortedKeys(recs[1..], keep, key);
      if keep(recs[0]) && key(recs[0]).Some? then InsertKey(rest, key(recs[0]).value) else rest
  }
}
