/**
 * The `reduce((acc, deal) => { ... acc[key].total++ ... }, {})` pattern the
 * client uses to group deals by bank or by month, followed by
 * `Object.entries(acc)`: one group per key, in the order each key first
 * appeared, with the number of deals, the number of funded deals and the sum of
 * the funded deals' days-to-fund.
 */
module Tally {

  import opened Wrappers
  import opened Seqs

  /** One deal as the reducer sees it: its group key, whether it is funded, its days-to-fund. */
  datatype Obs<K> = Obs(key: K, funded: bool, days: int)

  /** An accumulator: `{ total, funded, totalDays }`. */
  datatype Stat = Stat(total: nat, funded: nat, days: int)

  /** One `[key, accumulator]` pair of `Object.entries`. */
  datatype Group<K> = Group(key: K, stat: Stat)

  const Zero: Stat := Stat(0, 0, 0)

  /** The accumulator after one more deal: `total++`, and for a funded deal `funded++` and its days added. */
  function Bump<K>(st: Stat, o: Obs<K>): Stat {
    Stat(st.total + 1, st.funded + (if o.funded then 1 else 0), st.days + (if o.funded then o.days else 0))
  }

  /** Where key `k` sits among the groups, if anywhere: the lookup `acc[k]`. */
  function IndexOfKey<K(==)>(gs: seq<Group<K>>, k: K): (r: Option<nat>)
    ensures r.Some? ==> r.value < |gs| && gs[r.value].key == k
    ensures r.None? <==> forall j | 0 <= j < |gs| :: gs[j].key != k
  {
    if gs == [] then None
    else if gs[0].key == k then Some(0)
    else match IndexOfKey(gs[1..], k)
      case Some(j) => Some(j + 1)
      case None => None
  }

  /** One reducer step. */
  function Add<K(==)>(gs: seq<Group<K>>, o: Obs<K>): seq<Group<K>> {
    match IndexOfKey(gs, o.key)
    case Some(i) => gs[i := Group(o.key, Bump(gs[i].stat, o))]
    case None => gs + [Group(o.key, Bump(Zero, o))]
  }

  /** The groups after reducing all of `obs`, left to right. */
  function Tally<K(==)>(obs: seq<Obs<K>>): seq<Group<K>> {
    if obs == [] then [] else Add(Tally(obs[..|obs| - 1]), obs[|obs| - 1])
  }

  /** The reducer as the loop it is. */
  method TallyLoop<K(==)>(obs: seq<Obs<K>>) returns (gs: seq<Group<K>>)
    ensures gs == Tally(obs)
  {
    gs := [];
    var i := 0;
    while i < |obs|
      invariant 0 <= i <= |obs|
      invariant gs == Tally(obs[..i])
    {
      var o := obs[i];
      var found := IndexOfKey(gs, o.key);
      if found.Some? {
        var g := gs[found.value];
        gs := gs[found.value := Group(g.key, Bump(g.stat, o))];
      } else {
        gs := gs + [Group(o.key, Bump(Zero, o))];
      }
      assert obs[..i + 1][..i] == obs[..i];
      i := i + 1;
    }
    assert obs[..|obs|] == obs;
  }

  // ----- the reference definitions: what each group should hold -----

  function Keys<K>(obs: seq<Obs<K>>): seq<K> {
    if obs == [] then [] else Keys(obs[..|obs| - 1]) + [obs[|obs| - 1].key]
  }

  function GroupKeys<K>(gs: seq<Group<K>>): (r: seq<K>)
    ensures |r| == |gs|
    ensures forall j | 0 <= j < |gs| :: r[j] == gs[j].key
  {
    if gs == [] then [] else [gs[0].key] + GroupKeys(gs[1..])
  }

  /** The number of observations with key `k`. */
  function CountKey<K(==)>(obs: seq<Obs<K>>, k: K): nat {
    if obs == [] then 0
    else CountKey(obs[..|obs| - 1], k) + (if obs[|obs| - 1].key == k then 1 else 0)
  }

  /** The number of funded observations with key `k`. */
  function FundedKey<K(==)>(obs: seq<Obs<K>>, k: K): nat {
    if obs == [] then 0
    else FundedKey(obs[..|obs| - 1], k) + (if obs[|obs| - 1].key == k && obs[|obs| - 1].funded then 1 else 0)
  }

  /** The sum of days-to-fund over the funded observations with key `k`. */
  function DaysKey<K(==)>(obs: seq<Obs<K>>, k: K): int {
    if obs == [] then 0
    else DaysKey(obs[..|obs| - 1], k) + (if obs[|obs| - 1].key == k && obs[|obs| - 1].funded then obs[|obs| - 1].days else 0)
  }

  /** The number of funded observations. */
  function CountFundedObs<K>(obs: seq<Obs<K>>): nat {
    if obs == [] then 0
    else CountFundedObs(obs[..|obs| - 1]) + (if obs[|obs| - 1].funded then 1 else 0)
  }

  /** The accumulator a key should have: the counts over exactly its observations. */
  function StatOf<K(==)>(obs: seq<Obs<K>>, k: K): Stat {
    Stat(CountKey(obs, k), FundedKey(obs, k), DaysKey(obs, k))
  }

  function SumTotals<K>(gs: seq<Group<K>>): nat {
    if gs == [] then 0 else gs[0].stat.total + SumTotals(gs[1..])
  }

  function SumFunded<K>(gs: seq<Group<K>>): nat {
    if gs == [] then 0 else gs[0].stat.funded + SumFunded(gs[1..])
  }

  // ----- the properties of the grouping -----

  /** The groups are keyed by the distinct keys, in first-appearance order. */
  lemma {:induction false} TallyOrder<K>(obs: seq<Obs<K>>)
    ensures GroupKeys(Tally(obs)) == Dedupe(Keys(obs))
  {
    if obs != [] {
      var p := obs[..|obs| - 1];
      var o := obs[|obs| - 1];
      TallyOrder(p);
      assert Keys(obs) == Keys(p) + [o.key];
      AddKeys(Tally(p), o);
      DedupeSnoc(Keys(p), o.key);
    }
  }

  /** A reducer step adds its key at the end when the key is new, and keeps the keys otherwise. */
  lemma AddKeys<K>(gs: seq<Group<K>>, o: Obs<K>)
    ensures GroupKeys(Add(gs, o)) == if o.key in GroupKeys(gs) then GroupKeys(gs) else GroupKeys(gs) + [o.key]
  {
    assert o.key in GroupKeys(gs) <==> IndexOfKey(gs, o.key).Some?;
    match IndexOfKey(gs, o.key)
    case Some(i) =>
      assert GroupKeys(gs[i := Group(o.key, Bump(gs[i].stat, o))]) == GroupKeys(gs);
    case None =>
      assert GroupKeys(gs + [Group(o.key, Bump(Zero, o))]) == GroupKeys(gs) + [o.key];
  }

  /** Deduplicating one more element appends it exactly when it is new. */
  lemma DedupeSnoc<T>(xs: seq<T>, x: T)
    ensures Dedupe(xs + [x]) == if x in xs then Dedupe(xs) else Dedupe(xs) + [x]
  {
    assert (xs + [x])[..|xs|] == xs;
    assert x in Dedupe(xs) <==> x in xs;
  }

  /** One more observation changes only the accumulator of its own key. */
  lemma StatStep<K>(obs: seq<Obs<K>>, k: K)
    requires obs != []
    ensures StatOf(obs, k) == if obs[|obs| - 1].key == k then Bump(StatOf(obs[..|obs| - 1], k), obs[|obs| - 1])
                              else StatOf(obs[..|obs| - 1], k)
  {
  }

  /** Each group holds the counts of exactly the observations with its key. */
  lemma {:induction false} TallyStats<K>(obs: seq<Obs<K>>)
    ensures forall j | 0 <= j < |Tally(obs)| :: Tally(obs)[j].stat == StatOf(obs, Tally(obs)[j].key)
  {
    if obs != [] {
      var p := obs[..|obs| - 1];
      var o := obs[|obs| - 1];
      TallyStats(p);
      TallyOrder(p);
      var gs := Tally(p);
      forall j | 0 <= j < |gs| ensures StatOf(obs, gs[j].key) == if gs[j].key == o.key then Bump(gs[j].stat, o) else gs[j].stat {
        StatStep(obs, gs[j].key);
      }
      match IndexOfKey(gs, o.key)
      case Some(i) =>
        var gs' := gs[i := Group(o.key, Bump(gs[i].stat, o))];
        forall j | 0 <= j < |gs'| ensures gs'[j].stat == StatOf(obs, gs'[j].key) {
          if j != i {
            assert GroupKeys(gs)[j] != GroupKeys(gs)[i];
          }
        }
      case None =>
        assert o.key !in Keys(p) by {
          assert forall x :: x in GroupKeys(gs) <==> x in Keys(p) by {
            forall x ensures x in GroupKeys(gs) <==> x in Keys(p) {
              if x in Keys(p) {
                var i :| 0 <= i < |Keys(p)| && Keys(p)[i] == x;
              }
              if x in GroupKeys(gs) {
                var i :| 0 <= i < |GroupKeys(gs)| && GroupKeys(gs)[i] == x;
              }
            }
          }
        }
        ZeroCounts(p, o.key);
        StatStep(obs, o.key);
    }
  }

  lemma {:induction false} ZeroCounts<K>(obs: seq<Obs<K>>, k: K)
    requires k !in Keys(obs)
    ensures StatOf(obs, k) == Zero
  {
    if obs != [] {
      var p := obs[..|obs| - 1];
      assert Keys(obs) == Keys(p) + [obs[|obs| - 1].key];
      ZeroCounts(p, k);
    }
  }

  /** A key has a group exactly when some observation carries it. */
  lemma TallyKeys<K>(obs: seq<Obs<K>>, k: K)
    ensures k in GroupKeys(Tally(obs)) <==> k in Keys(obs)
    ensures Distinct(GroupKeys(Tally(obs)))
  {
    TallyOrder(obs);
    var d := Dedupe(Keys(obs));
    if k in Keys(obs) {
      var i :| 0 <= i < |Keys(obs)| && Keys(obs)[i] == k;
    }
    if k in d {
      var i :| 0 <= i < |d| && d[i] == k;
    }
  }

  lemma {:induction false} KeysMember<K>(obs: seq<Obs<K>>, k: K)
    ensures k in Keys(obs) <==> exists i | 0 <= i < |obs| :: obs[i].key == k
  {
    if obs != [] {
      var p := obs[..|obs| - 1];
      KeysMember(p, k);
      assert Keys(obs) == Keys(p) + [obs[|obs| - 1].key];
      if exists i | 0 <= i < |obs| :: obs[i].key == k {
        var i :| 0 <= i < |obs| && obs[i].key == k;
        if i < |p| { assert p[i].key == k; }
      }
      if exists i | 0 <= i < |p| :: p[i].key == k {
        var i :| 0 <= i < |p| && p[i].key == k;
        assert obs[i].key == k;
      }
    }
  }

  lemma {:induction false} SumTotalsAppend<K>(gs: seq<Group<K>>, g: Group<K>)
    ensures SumTotals(gs + [g]) == SumTotals(gs) + g.stat.total
    ensures SumFunded(gs + [g]) == SumFunded(gs) + g.stat.funded
  {
    if gs != [] {
      assert (gs + [g])[1..] == gs[1..] + [g];
      SumTotalsAppend(gs[1..], g);
    }
  }

  lemma {:induction false} SumTotalsUpdate<K>(gs: seq<Group<K>>, i: nat, g: Group<K>)
    requires i < |gs|
    ensures SumTotals(gs[i := g]) == SumTotals(gs) - gs[i].stat.total + g.stat.total
    ensures SumFunded(gs[i := g]) == SumFunded(gs) - gs[i].stat.funded + g.stat.funded
  {
    if i > 0 {
      assert gs[i := g][1..] == gs[1..][i - 1 := g];
      SumTotalsUpdate(gs[1..], i - 1, g);
    }
  }

  /** Every observation is counted in exactly one group: the totals add up to the number of observations. */
  lemma {:induction false} TallySums<K>(obs: seq<Obs<K>>)
    ensures SumTotals(Tally(obs)) == |obs|
    ensures SumFunded(Tally(obs)) == CountFundedObs(obs)
  {
    if obs != [] {
      var p := obs[..|obs| - 1];
      var o := obs[|obs| - 1];
      TallySums(p);
      var gs := Tally(p);
      match IndexOfKey(gs, o.key)
      case Some(i) =>
        SumTotalsUpdate(gs, i, Group(o.key, Bump(gs[i].stat, o)));
      case None =>
        SumTotalsAppend(gs, Group(o.key, Bump(Zero, o)));
    }
  }

  /** A key occurs exactly when it is counted at least once. */
  lemma {:induction false} KeyCount<K>(obs: seq<Obs<K>>, k: K)
    ensures k in Keys(obs) <==> CountKey(obs, k) > 0
  {
    if obs != [] {
      var p := obs[..|obs| - 1];
      KeyCount(p, k);
      assert Keys(obs) == Keys(p) + [obs[|obs| - 1].key];
    }
  }

  /** Each group holds the reference accumulator of its key, which is counted at least once. */
  lemma TallyEntry<K>(obs: seq<Obs<K>>, j: nat)
    requires j < |Tally(obs)|
    ensures Tally(obs)[j].stat == StatOf(obs, Tally(obs)[j].key)
    ensures CountKey(obs, Tally(obs)[j].key) > 0
  {
    TallyStats(obs);
    var k := Tally(obs)[j].key;
    assert GroupKeys(Tally(obs))[j] == k;
    TallyKeys(obs, k);
    KeyCount(obs, k);
  }

  /** Every key that occurs has its group. */
  lemma TallyFind<K>(obs: seq<Obs<K>>, k: K) returns (j: nat)
    requires CountKey(obs, k) > 0
    ensures j < |Tally(obs)| && Tally(obs)[j].key == k
  {
    KeyCount(obs, k);
    TallyKeys(obs, k);
    var g := GroupKeys(Tally(obs));
    j :| 0 <= j < |g| && g[j] == k;
  }

  /** Different groups have different keys. */
  lemma TallyDistinct<K>(obs: seq<Obs<K>>, i: nat, j: nat)
    requires i < j < |Tally(obs)|
    ensures Tally(obs)[i].key != Tally(obs)[j].key
  {
    var k := Tally(obs)[i].key;
    TallyKeys(obs, k);
    var g := GroupKeys(Tally(obs));
    assert g[i] == Tally(obs)[i].key && g[j] == Tally(obs)[j].key;
  }

  /** A key is never counted funded more often than it is counted. */
  lemma {:induction false} FundedAtMostCount<K>(obs: seq<Obs<K>>, k: K)
    ensures FundedKey(obs, k) <= CountKey(obs, k)
  {
    if obs != [] {
      FundedAtMostCount(obs[..|obs| - 1], k);
    }
  }

  /** Every group counts at least one observation, and no more funded ones than it counts. */
  lemma TallyBounds<K>(obs: seq<Obs<K>>)
    ensures forall j | 0 <= j < |Tally(obs)| ::
              0 < Tally(obs)[j].stat.total && Tally(obs)[j].stat.funded <= Tally(obs)[j].stat.total
  {
    forall j | 0 <= j < |Tally(obs)|
      ensures 0 < Tally(obs)[j].stat.total && Tally(obs)[j].stat.funded <= Tally(obs)[j].stat.total
    {
      TallyEntry(obs, j);
      FundedAtMostCount(obs, Tally(obs)[j].key);
    }
  }
}
