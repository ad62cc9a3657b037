/**
 * Running rating statistics per laptop: a count and a sum, created on the
 * first score and updated in place on every later one.
 */
module RatingStore {
  import opened Prelude

  /** The value of a rating: how many scores were added (a `uint32`) and their sum. */
  datatype Tally = Tally(count: u32, sum: real)

  /** `Sum / float64(Count)`; with a count of 0 the float division gives an infinity or NaN. */
  datatype Average = Mean(value: real) | NotFinite

  function AverageOf(t: Tally): (a: Average)
    ensures a.Mean? <==> t.count > 0
    ensures a.Mean? ==> a.value * (t.count as real) == t.sum
  {
    if t.count == 0 then NotFinite else Mean(t.sum / t.count as real)
  }

  /** One `Add` of `score` to an entry that may be absent. */
  function Added(prev: Option<Tally>, score: real): (t: Tally)
    ensures prev.None? ==> t == Tally(1, score)
    ensures prev.Some? ==> t.count == Inc32(prev.value.count) && t.sum == prev.value.sum + score
  {
    match prev
    case None => Tally(1, score)
    case Some(p) => Tally(Inc32(p.count), p.sum + score)
  }

  function Sum(scores: seq<real>): real
  {
    if scores == [] then 0.0 else Sum(scores[..|scores| - 1]) + scores[|scores| - 1]
  }

  /** The entry after adding `scores` one by one to an absent entry (none for no scores). */
  function Accumulate(scores: seq<real>): Option<Tally>
  {
    if scores == [] then None
    else Some(Added(Accumulate(scores[..|scores| - 1]), scores[|scores| - 1]))
  }

  /** Adding one more score is one more step of the accumulation. */
  lemma AccumulateSnoc(scores: seq<real>, score: real)
    ensures Accumulate(scores + [score]) == Some(Added(Accumulate(scores), score))
  {
    assert (scores + [score])[..|scores|] == scores;
  }

  /** After n adds the count is n modulo 2^32 (`Count++` wraps) and the sum is the sum of the scores. */
  lemma {:induction false} AccumulateCounts(scores: seq<real>)
    requires scores != []
    ensures Accumulate(scores) == Some(Tally(|scores| % TWO_32, Sum(scores)))
  {
    var init := scores[..|scores| - 1];
    if init != [] {
      AccumulateCounts(init);
      var c := |init| % TWO_32;
      assert Inc32(c) == |scores| % TWO_32 by {
        if c < TWO_32 - 1 {
          assert |init| == (|init| / TWO_32) * TWO_32 + c;
          assert |scores| == (|init| / TWO_32) * TWO_32 + (c + 1);
        } else {
          assert |init| == (|init| / TWO_32) * TWO_32 + c;
          assert |scores| == (|init| / TWO_32 + 1) * TWO_32;
        }
      }
    }
  }

  /** Fewer than 2^32 adds: the count is exactly the number of adds, at least 1, so the average is defined. */
  lemma AverageDefinedBelowWrap(scores: seq<real>)
    requires 0 < |scores| < TWO_32
    ensures Accumulate(scores).Some? && Accumulate(scores).value.count == |scores|
    ensures AverageOf(Accumulate(scores).value) == Mean(Sum(scores) / |scores| as real)
  {
    AccumulateCounts(scores);
  }

  /** The client test: scores 8, 7.5, 10 give counts 1, 2, 3 and averages 8, 7.75, 8.5. */
  lemma RatingTestScores()
    ensures Accumulate([8.0]) == Some(Tally(1, 8.0)) && AverageOf(Tally(1, 8.0)) == Mean(8.0)
    ensures Accumulate([8.0, 7.5]) == Some(Tally(2, 15.5)) && AverageOf(Tally(2, 15.5)) == Mean(7.75)
    ensures Accumulate([8.0, 7.5, 10.0]) == Some(Tally(3, 25.5)) && AverageOf(Tally(3, 25.5)) == Mean(8.5)
  {
    AccumulateSnoc([], 8.0);
    AccumulateSnoc([8.0], 7.5);
    AccumulateSnoc([8.0, 7.5], 10.0);
  }

  /** Every tally is the accumulation of the scores recorded for its id. */
  ghost predicate Tracks(history: map<string, seq<real>>, tallies: map<string, Tally>)
  {
    && history.Keys == tallies.Keys
    && forall id | id in tallies :: Accumulate(history[id]) == Some(tallies[id])
  }

  /** One more score for `id` keeps the tallies tracking the history. */
  lemma TracksAdd(history: map<string, seq<real>>, tallies: map<string, Tally>, id: string, score: real)
    requires Tracks(history, tallies)
    ensures var scores := if id in history then history[id] else [];
      Tracks(history[id := scores + [score]], tallies[id := Added(Get(tallies, id), score)])
  {
    var scores := if id in history then history[id] else [];
    AccumulateSnoc(scores, score);
  }

  /** The stored rating object; `Add` updates it in place. */
  class Rating {
    /** The laptop id the object was created for. */
    ghost const owner: string
    var count: u32
    var sum: real

    function Value(): Tally
      reads this
    {
      Tally(count, sum)
    }

    constructor (ghost owner: string, count: u32, sum: real)
      ensures this.owner == owner && Value() == Tally(count, sum)
    {
      this.owner := owner;
      this.count := count;
      this.sum := sum;
    }

    /** `rating.Count++` and `rating.Sum += score` on the stored object. */
    method Increment(score: real)
      modifies this
      ensures Value() == Added(Some(old(Value())), score)
    {
      count := Inc32(count);
      sum := sum + score;
    }
  }

  class InMemoryRatingStore {
    var rating: map<string, Rating>
    /** The rating objects the store owns. */
    ghost var Repr: set<Rating>
    /** The values of the stored rating objects. */
    ghost var tallies: map<string, Tally>
    /** The scores added so far for each laptop id, oldest first. */
    ghost var history: map<string, seq<real>>

    /**
     * Each rating object is owned by the store and stored under the id it was
     * created for (so no two ids share one), and `tallies` mirrors its value.
     */
    ghost predicate Linked()
      reads this, Repr
    {
      && rating.Keys == tallies.Keys
      && forall id | id in rating :: rating[id] in Repr && rating[id].owner == id && rating[id].Value() == tallies[id]
    }

    /** The objects are linked and each holds the accumulation of its id's scores. */
    ghost predicate Valid()
      reads this, Repr
    {
      Linked() && Tracks(history, tallies)
    }

    constructor ()
      ensures Valid() && fresh(Repr) && rating == map[] && tallies == map[] && history == map[]
    {
      rating := map[];
      Repr := {};
      tallies := map[];
      history := map[];
    }

    /**
     * `Add`: creates {1, score} for a new id, or increments the count and adds
     * to the sum of the existing object; returns that stored object itself.
     */
    method Add(laptopId: string, score: real) returns (r: Rating)
      requires Valid()
      modifies this, Repr
      ensures Valid() && old(Repr) <= Repr && fresh(Repr - old(Repr))
      ensures laptopId in rating && r == rating[laptopId]
      ensures laptopId in old(rating) ==> r == old(rating[laptopId]) && rating == old(rating)
      ensures laptopId !in old(rating) ==> fresh(r) && rating == old(rating)[laptopId := r]
      ensures r.Value() == Added(Get(old(tallies), laptopId), score)
      ensures tallies == old(tallies)[laptopId := r.Value()]
      ensures history == old(history)[laptopId := (if laptopId in old(history) then old(history)[laptopId] else []) + [score]]
    {
      ghost var scores := if laptopId in history then history[laptopId] else [];
      TracksAdd(history, tallies, laptopId, score);
      if laptopId in rating {
        r := Increment(laptopId, score);
      } else {
        r := Create(laptopId, score);
      }
      history := history[laptopId := scores + [score]];
    }

    /** The branch of `Add` for an id already present. */
    method Increment(laptopId: string, score: real) returns (r: Rating)
      requires Linked() && laptopId in rating
      modifies this, Repr
      ensures Linked() && Repr == old(Repr) && history == old(history)
      ensures rating == old(rating) && r == rating[laptopId]
      ensures r.Value() == Added(Some(old(tallies[laptopId])), score)
      ensures tallies == old(tallies)[laptopId := r.Value()]
    {
      r := rating[laptopId];
      r.Increment(score);
      tallies := tallies[laptopId := r.Value()];
    }

    /** The branch of `Add` for a new id. */
    method Create(laptopId: string, score: real) returns (r: Rating)
      requires Linked() && laptopId !in rating
      modifies this
      ensures Linked() && Repr == old(Repr) + {r} && history == old(history)
      ensures fresh(r) && rating == old(rating)[laptopId := r]
      ensures r.Value() == Tally(1, score)
      ensures tallies == old(tallies)[laptopId := r.Value()]
    {
      r := new Rating(laptopId, 1, score);
      Repr := Repr + {r};
      rating := rating[laptopId := r];
      tallies := tallies[laptopId := r.Value()];
    }
  }

  /** `Add` returns the store's own object, not a copy: a caller writing to it changes the stored rating. */
  method ReturnedRatingIsShared(store: InMemoryRatingStore, laptopId: string)
    requires store.Valid()
    modifies store, store.Repr
    ensures laptopId in store.rating && store.rating[laptopId].count == 0
  {
    var r := store.Add(laptopId, 5.0);
    ghost var stored := store.rating;
    assert stored[laptopId] == r;
    r.count := 0;
    assert store.rating == stored;
  }
}
