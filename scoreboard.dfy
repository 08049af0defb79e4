/** The record store the scene consults when a run ends: the rank of a score
    among the stored records, and the append that registers a new record.
    Records are modelled by their scores alone, in insertion order. */
module Scoreboard {
  import opened Options

  /** A score is registered only if it ranks within the top ten. */
  const RankingSize: nat := 10

  /** The number of stored records with a score strictly above `s`. */
  function CountAbove(store: seq<int>, s: int): (c: nat)
    ensures c <= |store|
    decreases |store|
  {
    if store == [] then 0
    else CountAbove(store[..|store| - 1], s) + (if store[|store| - 1] > s then 1 else 0)
  }

  /** The positions of the records that beat `s`. */
  ghost function IndicesAbove(store: seq<int>, s: int): set<int>
  {
    set i | 0 <= i < |store| && store[i] > s
  }

  /** `getRanking`: one more than the number of records with a strictly
      greater score, so ties do not push a score down. */
  function Rank(store: seq<int>, s: int): (r: nat)
    ensures 1 <= r <= |store| + 1
    ensures store == [] ==> r == 1
  {
    CountAbove(store, s) + 1
  }

  /** The count is the number of positions holding a greater score. */
  lemma {:induction false} CountAboveIsCardinality(store: seq<int>, s: int)
    ensures CountAbove(store, s) == |IndicesAbove(store, s)|
    decreases |store|
  {
    if store != [] {
      var n := |store| - 1;
      var prefix := store[..n];
      CountAboveIsCardinality(prefix, s);
      assert forall i :: 0 <= i < n ==> prefix[i] == store[i];
      if store[n] > s {
        assert IndicesAbove(store, s) == IndicesAbove(prefix, s) + {n};
        assert n !in IndicesAbove(prefix, s);
      } else {
        assert IndicesAbove(store, s) == IndicesAbove(prefix, s);
      }
    }
  }

  /** Registering a record moves a score down by one place exactly when the
      new record beats it. */
  lemma RankAfterInsert(store: seq<int>, x: int, s: int)
    ensures Rank(store + [x], s) == Rank(store, s) + (if x > s then 1 else 0)
  {
  }

  /** Registering a score does not change that score's own rank. */
  lemma RankOfRegisteredScore(store: seq<int>, s: int)
    ensures Rank(store + [s], s) == Rank(store, s)
  {
    RankAfterInsert(store, s, s);
  }

  /** A higher score never ranks worse. */
  lemma {:induction false} RankMonotone(store: seq<int>, s: int, t: int)
    requires s <= t
    ensures Rank(store, t) <= Rank(store, s)
    decreases |store|
  {
    if store != [] {
      RankMonotone(store[..|store| - 1], s, t);
    }
  }

  /** A score ranks first exactly when no record beats it. */
  lemma {:induction false} RankFirstIff(store: seq<int>, s: int)
    ensures Rank(store, s) == 1 <==> forall i :: 0 <= i < |store| ==> store[i] <= s
    decreases |store|
  {
    if store != [] {
      var prefix := store[..|store| - 1];
      RankFirstIff(prefix, s);
      assert forall i :: 0 <= i < |prefix| ==> prefix[i] == store[i];
    }
  }

  /** The worked examples: against records 100, 90 and 80, a 95 ranks
      second and an 80 third, and a second 80 ranks third as well. */
  lemma RankExamples()
    ensures Rank([100, 90, 80], 95) == 2
    ensures Rank([100, 90, 80], 80) == 3
    ensures Rank([100, 90, 80, 80], 80) == 3
  {
    assert [100, 90, 80][..2] == [100, 90];
    assert [100, 90][..1] == [100];
    assert [100][..0] == [];
    assert [100, 90, 80, 80][..3] == [100, 90, 80];
  }

  /** The best record, as the title screen shows it: none on an empty store. */
  function BestScore(store: seq<int>): (best: Option<int>)
    ensures best.None? <==> store == []
    ensures best.Some? ==> best.value in store
    ensures best.Some? ==> forall i :: 0 <= i < |store| ==> store[i] <= best.value
    decreases |store|
  {
    if store == [] then None
    else
      var last := store[|store| - 1];
      match BestScore(store[..|store| - 1])
      case None => Some(last)
      case Some(b) => Some(if b < last then last else b)
  }

  /** The best record ranks first. */
  lemma BestScoreRanksFirst(store: seq<int>)
    requires store != []
    ensures Rank(store, BestScore(store).value) == 1
  {
    RankFirstIff(store, BestScore(store).value);
  }
}
