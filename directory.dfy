/**
 The talkgroup directory: the response's talkgroup records, taken in iteration order,
 folded into a map keyed by each record's `num`, so a later record with the same
 `num` replaces an earlier one.
 */
module Directory {
  import opened Records

  /** What the directory fetch delivers: a failure (network error, a body that is not
      JSON, or a body without a `talkgroups` object) or the values of that object in
      iteration order. */
  datatype Response = Failed | Records(values: seq<Talkgroup>)

  /** The directory the records produce: the fold `m[tg.num] := tg` over them, in order. */
  function Index(records: seq<Talkgroup>): map<int, Talkgroup>
  {
    if records == [] then map[]
    else
      var last := records[|records| - 1];
      Index(records[..|records| - 1])[last.num := last]
  }

  /** The set of `num` values carried by the records. */
  function Nums(records: seq<Talkgroup>): set<int>
  {
    set tg | tg in records :: tg.num
  }

  /** Every `num` in the input is a key, there is no other key, and every key maps to
      one of the input records carrying that `num`. */
  lemma {:induction false} IndexKeys(records: seq<Talkgroup>)
    ensures Index(records).Keys == Nums(records)
    ensures forall k :: k in Index(records) ==> Index(records)[k] in records && Index(records)[k].num == k
  {
    if records != [] {
      var n := |records| - 1;
      var front := records[..n];
      IndexKeys(front);
      assert records == front + [records[n]];
      assert forall tg :: tg in records <==> tg in front || tg == records[n];
      assert Nums(records) == Nums(front) + {records[n].num};
    }
  }

  /** A record that no later record shares its `num` with is the one the key maps to:
      the last record with a given `num` wins. */
  lemma {:induction false} IndexLastWins(records: seq<Talkgroup>, j: nat)
    requires j < |records|
    requires forall k :: j < k < |records| ==> records[k].num != records[j].num
    ensures records[j].num in Index(records) && Index(records)[records[j].num] == records[j]
  {
    var n := |records| - 1;
    if j < n {
      var front := records[..n];
      assert front[j] == records[j];
      forall k | j < k < |front| ensures front[k].num != front[j].num {
        assert front[k] == records[k];
      }
      IndexLastWins(front, j);
    }
  }

  /** The `forEach` loop of the loader, filling a fresh map in place. */
  method Build(records: seq<Talkgroup>) returns (m: map<int, Talkgroup>)
    ensures m == Index(records)
  {
    m := map[];
    var i := 0;
    while i < |records|
      invariant 0 <= i <= |records|
      invariant m == Index(records[..i])
    {
      assert records[..i + 1][..i] == records[..i];
      m := m[records[i].num := records[i]];
      i := i + 1;
    }
    assert records[..|records|] == records;
  }
}
