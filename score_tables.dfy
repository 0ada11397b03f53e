/** The RULA score dictionaries of `calculate_ergonomic_risk` and the lookup
    `TABLE[min([key for key in TABLE if angle >= key])]` applied to each. */
module ScoreTables {
  import opened Errors

  /** One `key: score` item of a score dictionary: an angle in whole degrees
      and the score the dictionary maps it to. */
  datatype Entry = Entry(key: int, score: int)

  /** Dictionary keys are unique. */
  predicate DistinctKeys(t: seq<Entry>) {
    forall i, j :: 0 <= i < j < |t| ==> t[i].key != t[j].key
  }

  /** A score dictionary, its items in the order of the dictionary literal. */
  type ScoreTable = t: seq<Entry> | DistinctKeys(t) witness []

  const UpperArmScores: ScoreTable := [Entry(90, 3), Entry(60, 2), Entry(20, 1)]
  const LowerArmScores: ScoreTable := [Entry(60, 2), Entry(20, 1)]
  const WristScores: ScoreTable := [Entry(15, 3), Entry(0, 1)]
  const NeckScores: ScoreTable := [Entry(20, 3), Entry(10, 2), Entry(0, 1)]
  const TrunkScores: ScoreTable := [Entry(20, 3), Entry(10, 2), Entry(0, 1)]
  const LegScores: ScoreTable := [Entry(2, 2), Entry(1, 1)]

  /** Iterating over a dictionary yields its keys in insertion order. */
  function Keys(t: seq<Entry>): seq<int> {
    if |t| == 0 then [] else [t[0].key] + Keys(t[1..])
  }

  /** `[key for key in t if angle >= key]`. */
  function Qualifying(t: seq<Entry>, angle: real): (ks: seq<int>)
    ensures forall k :: k in ks <==> k in Keys(t) && angle >= k as real
  {
    if |t| == 0 then []
    else (if angle >= t[0].key as real then [t[0].key] else []) + Qualifying(t[1..], angle)
  }

  /** `min(xs)` on a non-empty list: a member no greater than any other. */
  function MinOf(xs: seq<int>): (r: int)
    requires |xs| > 0
    ensures r in xs
    ensures forall x :: x in xs ==> r <= x
  {
    if |xs| == 1 then xs[0]
    else
      var rest := MinOf(xs[1..]);
      assert xs == [xs[0]] + xs[1..];
      if xs[0] <= rest then xs[0] else rest
  }

  /** `t[k]` for a key of `t`: the score the dictionary maps `k` to. */
  function ScoreOf(t: seq<Entry>, k: int): (r: int)
    requires k in Keys(t)
    ensures Entry(k, r) in t
  {
    if t[0].key == k then t[0].score else ScoreOf(t[1..], k)
  }

  /** The smallest key of a non-empty table. */
  function MinKey(t: ScoreTable): int
    requires |t| > 0
  {
    MinOf(Keys(t))
  }

  /** `t[min([key for key in t if angle >= key])]`. With no key at or below
      the angle the list is empty and `min` raises. Otherwise the result is
      the score of the smallest key at or below the angle. */
  function Lookup(t: ScoreTable, angle: real): (r: Result<int>)
    ensures r.Ok? <==> exists k :: k in Keys(t) && angle >= k as real
    ensures r.Err? ==> r.error == EmptyMinError
    ensures r.Ok? ==> exists k ::
      && k in Keys(t) && angle >= k as real
      && Entry(k, r.value) in t
      && (forall k' :: k' in Keys(t) && angle >= k' as real ==> k <= k')
  {
    var candidates := Qualifying(t, angle);
    if |candidates| == 0 then Err(EmptyMinError)
    else Ok(ScoreOf(t, MinOf(candidates)))
  }

  /** Since every key below a qualifying key qualifies too, the smallest
      qualifying key is the table's smallest key: the lookup fails exactly
      for angles below that key and otherwise never depends on the angle. */
  lemma {:induction false} LookupByMinKey(t: ScoreTable, angle: real)
    requires |t| > 0
    ensures Lookup(t, angle) ==
      if angle >= MinKey(t) as real then Ok(ScoreOf(t, MinKey(t))) else Err(EmptyMinError)
  {
    var candidates := Qualifying(t, angle);
    var least := MinKey(t);
    if angle >= least as real {
      assert least in candidates;
      var chosen := MinOf(candidates);
      assert chosen in Keys(t);
      assert least <= chosen <= least;
    }
  }

  /** The smallest key and its score, table by table. */
  lemma TableMinima()
    ensures MinKey(UpperArmScores) == 20 && ScoreOf(UpperArmScores, 20) == 1
    ensures MinKey(LowerArmScores) == 20 && ScoreOf(LowerArmScores, 20) == 1
    ensures MinKey(WristScores) == 0 && ScoreOf(WristScores, 0) == 1
    ensures MinKey(NeckScores) == 0 && ScoreOf(NeckScores, 0) == 1
    ensures MinKey(TrunkScores) == 0 && ScoreOf(TrunkScores, 0) == 1
    ensures MinKey(LegScores) == 1 && ScoreOf(LegScores, 1) == 1
  {
    assert Keys(UpperArmScores) == [90, 60, 20];
    assert Keys(LowerArmScores) == [60, 20];
    assert Keys(WristScores) == [15, 0];
    assert Keys(NeckScores) == [20, 10, 0];
    assert Keys(TrunkScores) == [20, 10, 0];
    assert Keys(LegScores) == [2, 1];
  }
}
