/** A plain JavaScript object used as a counter (`counts[k] = (counts[k] ||
    0) + 1`): the keys in the order they were first set, and the count under
    each. */
module Tallies {
  import opened Lists

  datatype Tally = Tally(keys: seq<string>, count: map<string, nat>)

  const EmptyTally := Tally([], map[])

  /** The listed keys are exactly the counted ones, each listed once. */
  predicate ValidTally(t: Tally) {
    NoDuplicates(t.keys)
    && (forall k :: k in t.keys ==> k in t.count)
    && (forall k :: k in t.count ==> k in t.keys)
  }

  /** One increment: a key seen before counts one more, a new key is
      appended with count 1. */
  function Bump(t: Tally, k: string): (r: Tally)
    requires ValidTally(t)
    ensures ValidTally(r)
    ensures k in r.count && r.count[k] == (if k in t.count then t.count[k] + 1 else 1)
    ensures forall j :: j != k ==> (j in r.count <==> j in t.count)
    ensures forall j :: j != k && j in t.count ==> r.count[j] == t.count[j]
  {
    if k in t.count then Tally(t.keys, t.count[k := t.count[k] + 1])
    else Tally(t.keys + [k], t.count[k := 1])
  }

  /** Reference definition: the counter after counting `xs` in order. */
  function TallyOf(xs: seq<string>): (r: Tally)
    ensures ValidTally(r)
  {
    if xs == [] then EmptyTally else Bump(TallyOf(xs[..|xs| - 1]), xs[|xs| - 1])
  }

  lemma TallySnoc(xs: seq<string>, x: string)
    ensures TallyOf(xs + [x]) == Bump(TallyOf(xs), x)
  {
    assert (xs + [x])[..|xs + [x]| - 1] == xs;
  }

  /** The keys are the distinct elements in first-occurrence order. */
  lemma {:induction false} TallyKeys(xs: seq<string>)
    ensures TallyOf(xs).keys == Distinct(xs)
  {
    if xs != [] {
      var p, x := xs[..|xs| - 1], xs[|xs| - 1];
      TallyKeys(p);
      assert xs == p + [x];
      DistinctSnoc(p, x);
    }
  }

  /** Each key counts its occurrences, and an element never counted does
      not occur. */
  lemma {:induction false} TallyCount(xs: seq<string>, k: string)
    ensures k in TallyOf(xs).count ==> TallyOf(xs).count[k] == Count(xs, k)
    ensures k !in TallyOf(xs).count ==> Count(xs, k) == 0
  {
    if xs != [] {
      var p, x := xs[..|xs| - 1], xs[|xs| - 1];
      TallyCount(p, k);
      assert TallyOf(xs) == Bump(TallyOf(p), x);
    }
  }

  /** Sum of the counts of `keys`. */
  function SumCounts(keys: seq<string>, count: map<string, nat>): nat
    requires forall k :: k in keys ==> k in count
  {
    if keys == [] then 0 else SumCounts(keys[..|keys| - 1], count) + count[keys[|keys| - 1]]
  }

  lemma {:induction false} SumCountsOther(keys: seq<string>, count: map<string, nat>, k: string, v: nat)
    requires forall j :: j in keys ==> j in count
    requires k !in keys
    ensures SumCounts(keys, count[k := v]) == SumCounts(keys, count)
  {
    if keys != [] {
      SumCountsOther(keys[..|keys| - 1], count, k, v);
    }
  }

  lemma {:induction false} SumCountsBump(keys: seq<string>, count: map<string, nat>, k: string)
    requires forall j :: j in keys ==> j in count
    requires NoDuplicates(keys) && k in keys
    ensures SumCounts(keys, count[k := count[k] + 1]) == SumCounts(keys, count) + 1
  {
    var p := keys[..|keys| - 1];
    if keys[|keys| - 1] == k {
      assert k !in p;
      SumCountsOther(p, count, k, count[k] + 1);
    } else {
      assert k in p;
      SumCountsBump(p, count, k);
    }
  }

  /** One increment adds one to the sum of the counts. */
  lemma BumpSum(t: Tally, k: string)
    requires ValidTally(t)
    ensures SumCounts(Bump(t, k).keys, Bump(t, k).count) == SumCounts(t.keys, t.count) + 1
  {
    if k in t.count {
      SumCountsBump(t.keys, t.count, k);
    } else {
      var keys := t.keys + [k];
      assert keys[..|keys| - 1] == t.keys;
      SumCountsOther(t.keys, t.count, k, 1);
    }
  }

  /** The counts add up to the number of elements counted. */
  lemma {:induction false} TallySum(xs: seq<string>)
    ensures SumCounts(TallyOf(xs).keys, TallyOf(xs).count) == |xs|
  {
    if xs != [] {
      TallySum(xs[..|xs| - 1]);
      BumpSum(TallyOf(xs[..|xs| - 1]), xs[|xs| - 1]);
    }
  }
}
