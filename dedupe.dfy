/**
 * The deduplicator: overlapping search terms return the same pair several
 * times; only the first pair seen for each non-empty address is kept, and pairs
 * without an address are dropped.
 */
module Dedupe {
  import opened Pairs

  /** The non-empty addresses occurring in `s`. */
  function Addresses(s: seq<Pair>): set<string> {
    set i | 0 <= i < |s| && HasAddress(s[i]) :: s[i].address.value
  }

  /** What the loop has produced after reading `s`: the specification of `Dedupe`. */
  function Deduped(s: seq<Pair>): seq<Pair>
    decreases |s|
  {
    if s == [] then []
    else
      var kept := Deduped(s[..|s| - 1]);
      var p := s[|s| - 1];
      if HasAddress(p) && p.address.value !in Addresses(kept) then kept + [p] else kept
  }

  /** Position `i` holds the first pair carrying its (non-empty) address. */
  predicate IsFirstAt(s: seq<Pair>, i: nat)
    requires i < |s|
  {
    HasAddress(s[i]) && forall j | 0 <= j < i :: s[j].address != s[i].address
  }

  /** Independent reference: the first occurrences among `s[..n]`, in input order. */
  function FirstOccurrences(s: seq<Pair>, n: nat): seq<Pair>
    requires n <= |s|
  {
    if n == 0 then []
    else FirstOccurrences(s, n - 1) + (if IsFirstAt(s, n - 1) then [s[n - 1]] else [])
  }

  /** `r` is obtained from `s` by deleting elements (greedy matching from the end). */
  predicate IsSubsequence<T(==)>(r: seq<T>, s: seq<T>)
    decreases |s|
  {
    if r == [] then true
    else if s == [] then false
    else if r[|r| - 1] == s[|s| - 1] then IsSubsequence(r[..|r| - 1], s[..|s| - 1])
    else IsSubsequence(r, s[..|s| - 1])
  }

  /** No two pairs share an address, and every pair has one. */
  predicate UniqueAddresses(s: seq<Pair>) {
    (forall i | 0 <= i < |s| :: HasAddress(s[i])) &&
    (forall i, j | 0 <= i < j < |s| :: s[i].address != s[j].address)
  }

  lemma AddressesAppend(s: seq<Pair>, p: Pair)
    ensures Addresses(s + [p]) == Addresses(s) + (if HasAddress(p) then {p.address.value} else {})
  {
    var t := s + [p];
    forall a | a in Addresses(t)
      ensures a in Addresses(s) + (if HasAddress(p) then {p.address.value} else {})
    {
      var i :| 0 <= i < |t| && HasAddress(t[i]) && t[i].address.value == a;
      if i < |s| { assert s[i] == t[i]; }
    }
    forall a | a in Addresses(s) ensures a in Addresses(t) {
      var i :| 0 <= i < |s| && HasAddress(s[i]) && s[i].address.value == a;
      assert t[i] == s[i];
    }
    if HasAddress(p) { assert t[|s|] == p; }
  }

  /** Every address of the input survives: nothing is lost but duplicates and address-less pairs. */
  lemma {:induction false} DedupedAddresses(s: seq<Pair>)
    ensures Addresses(Deduped(s)) == Addresses(s)
    decreases |s|
  {
    if s != [] {
      var init, p := s[..|s| - 1], s[|s| - 1];
      assert s == init + [p];
      DedupedAddresses(init);
      AddressesAppend(init, p);
      AddressesAppend(Deduped(init), p);
    }
  }

  /** The output never holds two pairs with the same address, nor a pair without one. */
  lemma {:induction false} DedupedUnique(s: seq<Pair>)
    ensures UniqueAddresses(Deduped(s))
    decreases |s|
  {
    if s != [] {
      var init, p := s[..|s| - 1], s[|s| - 1];
      var kept := Deduped(init);
      DedupedUnique(init);
      if HasAddress(p) && p.address.value !in Addresses(kept) {
        var r := kept + [p];
        forall i, j | 0 <= i < j < |r| ensures r[i].address != r[j].address {
          if j == |kept| {
            assert r[i] == kept[i];
            assert kept[i].address.value in Addresses(kept);
          }
        }
      }
    }
  }

  /** Dropping the last element of a subsequence leaves a subsequence. */
  lemma {:induction false} SubsequenceShrinks<T>(r: seq<T>, s: seq<T>)
    requires r != [] && IsSubsequence(r, s)
    ensures IsSubsequence(r[..|r| - 1], s)
    decreases |s|, 0
  {
    var r', s' := r[..|r| - 1], s[..|s| - 1];
    assert s == s' + [s[|s| - 1]];
    if r[|r| - 1] != s[|s| - 1] {
      SubsequenceShrinks(r, s');
    }
    SubsequenceWeaken(r', s', s[|s| - 1]);
  }

  /** A subsequence of `s` is a subsequence of `s` extended by one element. */
  lemma {:induction false} SubsequenceWeaken<T>(r: seq<T>, s: seq<T>, x: T)
    requires IsSubsequence(r, s)
    ensures IsSubsequence(r, s + [x])
    decreases |s|, 1
  {
    assert (s + [x])[..|s|] == s;
    if r != [] && r[|r| - 1] == x {
      SubsequenceShrinks(r, s);
    }
  }

  /** The output is a subsequence of the input: same pairs, same relative order. */
  lemma {:induction false} DedupedSubsequence(s: seq<Pair>)
    ensures IsSubsequence(Deduped(s), s)
    decreases |s|
  {
    if s != [] {
      var init, p := s[..|s| - 1], s[|s| - 1];
      assert s == init + [p];
      var kept := Deduped(init);
      DedupedSubsequence(init);
      if HasAddress(p) && p.address.value !in Addresses(kept) {
        var r := kept + [p];
        assert r[..|r| - 1] == kept;
      } else {
        SubsequenceWeaken(kept, init, p);
      }
    }
  }

  lemma FirstOccurrencesPrefix(s: seq<Pair>, n: nat)
    requires n <= |s|
    ensures FirstOccurrences(s[..n], n) == FirstOccurrences(s, n)
    decreases n
  {
    if n > 0 {
      var t := s[..n];
      assert t[..n - 1] == s[..n - 1];
      FirstOccurrencesPrefix(s, n - 1);
      FirstOccurrencesPrefix(t, n - 1);
      assert IsFirstAt(t, n - 1) == IsFirstAt(s, n - 1) by {
        assert forall j | 0 <= j < n :: t[j] == s[j];
      }
    }
  }

  /** The output is exactly the first occurrence of every address, in first-seen order. */
  lemma {:induction false} DedupedIsFirstOccurrences(s: seq<Pair>)
    ensures Deduped(s) == FirstOccurrences(s, |s|)
    decreases |s|
  {
    if s != [] {
      var n := |s|;
      var init, p := s[..n - 1], s[n - 1];
      var kept := Deduped(init);
      DedupedIsFirstOccurrences(init);
      FirstOccurrencesPrefix(s, n - 1);
      DedupedAddresses(init);
      if HasAddress(p) {
        if p.address.value in Addresses(init) {
          var j :| 0 <= j < |init| && HasAddress(init[j]) && init[j].address.value == p.address.value;
          assert s[j] == init[j];
          assert !IsFirstAt(s, n - 1);
        } else {
          forall j | 0 <= j < n - 1 ensures s[j].address != p.address {
            assert s[j] == init[j];
            if s[j].address == p.address { assert HasAddress(init[j]); }
          }
        }
      }
    }
  }

  /** A sequence that already has unique, present addresses is left as it is. */
  lemma {:induction false} DedupedFixpoint(t: seq<Pair>)
    requires UniqueAddresses(t)
    ensures Deduped(t) == t
    decreases |t|
  {
    if t != [] {
      var init, p := t[..|t| - 1], t[|t| - 1];
      assert UniqueAddresses(init) by {
        forall i | 0 <= i < |init| ensures init[i] == t[i] { }
      }
      DedupedFixpoint(init);
      assert t == init + [p];
    }
  }

  /** Deduplicating an already deduplicated sequence changes nothing. */
  lemma {:induction false} DedupedIdempotent(s: seq<Pair>)
    ensures Deduped(Deduped(s)) == Deduped(s)
  {
    DedupedUnique(s);
    DedupedFixpoint(Deduped(s));
  }

  /** `dedupe`: a loop over the pairs with a `seen` set and a growing result list. */
  method Dedupe(pairs: seq<Pair>) returns (result: seq<Pair>)
    ensures result == FirstOccurrences(pairs, |pairs|)
    ensures UniqueAddresses(result)
    ensures Addresses(result) == Addresses(pairs)
    ensures IsSubsequence(result, pairs)
  {
    var seen: set<string> := {};
    result := [];
    for i := 0 to |pairs|
      invariant result == Deduped(pairs[..i])
      invariant seen == Addresses(result)
    {
      var p := pairs[i];
      assert pairs[..i + 1][..i] == pairs[..i];
      if !HasAddress(p) || p.address.value in seen {
        continue;
      }
      AddressesAppend(result, p);
      seen := seen + {p.address.value};
      result := result + [p];
    }
    assert pairs[..|pairs|] == pairs;
    DedupedIsFirstOccurrences(pairs);
    DedupedUnique(pairs);
    DedupedAddresses(pairs);
    DedupedSubsequence(pairs);
  }
}
