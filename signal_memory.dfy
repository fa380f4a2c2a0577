/**
 * Signal memory: the durable log of past top-ranked signals. Saving a signal
 * appends it and keeps only the most recent 200.
 */
module SignalMemory {
  import opened Common
  import opened Pairs
  import opened Ranker

  /** How many signal records the memory keeps. */
  const Capacity: nat := 200

  /** `{token, price, time, score}`: what was recommended, at what price, when, with what score. */
  datatype SignalRecord = SignalRecord(token: Option<string>, price: real, time: real, score: real)

  /**
   * Python's `s[-n:]` for a positive `n`: the newest records are kept, as the
   * suffix of the input that is as long as allowed.
   */
  function KeepLast<T>(s: seq<T>, n: nat): (r: seq<T>)
    requires n > 0
    ensures |r| == Min(|s|, n)
    ensures r == s[|s| - |r|..]
  {
    if |s| <= n then s else s[|s| - n..]
  }

  /** What `register_signal` records for a ranked pair at clock reading `now`. */
  function SignalOf(pair: Pair, score: real, now: real): SignalRecord {
    SignalRecord(pair.symbol, pair.priceUsd, now, score)
  }

  /** The records for a whole ranked list, in ranked order. */
  function SignalsOf(ranked: seq<ScoredPair>, now: real): seq<SignalRecord> {
    seq(|ranked|, i requires 0 <= i < |ranked| => SignalOf(ranked[i].pair, ranked[i].score, now))
  }

  /** Truncating, appending and truncating again is the same as truncating once at the end. */
  lemma {:induction false} KeepLastAppendAll<T>(s: seq<T>, t: seq<T>, n: nat)
    requires n > 0
    ensures KeepLast(KeepLast(s, n) + t, n) == KeepLast(s + t, n)
  {
    if |s| > n {
      var k := s[|s| - n..];
      assert KeepLast(s, n) == k;
      if |k + t| <= n {
        assert t == [];
        assert s + t == s && k + t == k;
      } else {
        var a, b := (k + t)[|k + t| - n..], (s + t)[|s + t| - n..];
        assert |a| == n == |b|;
        forall i | 0 <= i < n ensures a[i] == b[i] {
          var j := |t| + i;
          if j < n {
            assert a[i] == k[j] == s[|s| - n + j] == b[i];
          } else {
            assert a[i] == t[j - n] == b[i];
          }
        }
        assert a == b;
      }
    }
  }

  /**
   * Appending 200 or more records to a memory, whatever it held, leaves
   * exactly the last 200 of them.
   */
  lemma SavingManyKeepsLastCapacity<T>(mem: seq<T>, records: seq<T>)
    requires |records| >= Capacity
    ensures |KeepLast(mem + records, Capacity)| == Capacity
    ensures KeepLast(mem + records, Capacity) == records[|records| - Capacity..]
  {
    assert (mem + records)[|mem + records| - Capacity..] == records[|records| - Capacity..];
  }

  /** The memory file, held as the sequence of records it contains. */
  class MemoryStore {
    var records: seq<SignalRecord>

    ghost predicate Valid()
      reads this
    {
      |records| <= Capacity
    }

    /** A memory file that does not exist yet reads as empty. */
    constructor ()
      ensures Valid() && records == []
    {
      records := [];
    }

    /** `save_memory`: append the record, then keep the last 200. */
    method SaveMemory(data: SignalRecord)
      requires Valid()
      modifies this
      ensures Valid()
      ensures records == KeepLast(old(records) + [data], Capacity)
      ensures |records| == Min(|old(records)| + 1, Capacity) && records[|records| - 1] == data
    {
      var mem := records;
      mem := mem + [data];
      records := if |mem| <= Capacity then mem else mem[|mem| - Capacity..];
    }

    /** `register_signal`: record the pair's symbol, its price, the clock reading and its score. */
    method RegisterSignal(pair: Pair, score: real, now: real)
      requires Valid()
      modifies this
      ensures Valid()
      ensures records == KeepLast(old(records) + [SignalOf(pair, score, now)], Capacity)
    {
      SaveMemory(SignalRecord(pair.symbol, pair.priceUsd, now, score));
    }

    /** The cycle's loop registering every ranked pair, in ranked order. */
    method RegisterRanked(ranked: seq<ScoredPair>, now: real)
      requires Valid()
      modifies this
      ensures Valid()
      ensures records == KeepLast(old(records) + SignalsOf(ranked, now), Capacity)
      ensures |ranked| >= Capacity ==> records == SignalsOf(ranked, now)[|ranked| - Capacity..]
    {
      ghost var before := records;
      assert before + SignalsOf(ranked, now)[..0] == before;
      for i := 0 to |ranked|
        invariant Valid()
        invariant records == KeepLast(before + SignalsOf(ranked, now)[..i], Capacity)
      {
        var signals := SignalsOf(ranked, now);
        RegisterSignal(ranked[i].pair, ranked[i].score, now);
        KeepLastAppendAll(before + signals[..i], [signals[i]], Capacity);
        assert signals[..i + 1] == signals[..i] + [signals[i]];
        assert before + signals[..i] + [signals[i]] == before + signals[..i + 1];
      }
      assert SignalsOf(ranked, now)[..|ranked|] == SignalsOf(ranked, now);
      if |ranked| >= Capacity {
        SavingManyKeepsLastCapacity(before, SignalsOf(ranked, now));
      }
    }
  }
}
