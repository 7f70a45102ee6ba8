/** The loops shared by the DAG and the batch script: score one pair metric by metric, build
    one artist's list of closest others, and upsert such a list row by row. */
module Ranking {
  import opened Wrappers
  import opened StableSort
  import opened Lists
  import opened Sql
  import opened Similarity

  /** The inner `for m in metrics` loop: normalise both values and add `sqrt((x - y) ** 2)`.
      The first metric whose minimum equals its maximum raises ZeroDivisionError. */
  method ScorePair(mine: Features, other: Features, t: RangeTable) returns (r: Result<real, PyError>)
    ensures r.Failure? <==> !NonDegenerate(t)
    ensures r.Failure? ==> r.error == ZeroDivisionError
    ensures r.Success? ==> r.value == Score(mine, other, t)
  {
    var dist := 0.0;
    for k := 0 to |Metrics|
      invariant forall m :: m in Metrics[..k] ==> Spread(t, m)
      invariant dist == ScoreOver(Metrics[..k], mine, other, t)
    {
      var m := Metrics[k];
      var lo, hi := t.mins.Get(m), t.maxs.Get(m);
      var xNorm := Normalize(mine.Get(m), lo, hi);
      if xNorm.Failure? {
        assert !Spread(t, m);
        return Failure(xNorm.error);
      }
      // same range as for `x`, so this normalisation succeeds
      var yNorm := Normalize(other.Get(m), lo, hi).value;
      dist := dist + RootOfSquare(xNorm.value - yNorm);
      assert Metrics[..k + 1][..k] == Metrics[..k];
    }
    assert Metrics[..|Metrics|] == Metrics;
    AllMetricsListed();
    return Success(dist);
  }

  /** One iteration of the outer loop: copy the list, pop position `i`, score every other
      artist, keep the nonzero scores, sort them ascending and keep the first five. */
  method RankArtist(artists: seq<Artist>, i: nat, t: RangeTable) returns (r: Result<seq<Edge>, PyError>)
    requires i < |artists|
    ensures r.Failure? <==> |artists| >= 2 && !NonDegenerate(t)
    ensures r.Failure? ==> r.error == ZeroDivisionError
    ensures r.Success? ==> CanRank(artists, t) && r.value == TopRelated(artists, i, t)
  {
    var others := Others(artists, i);
    var mine := artists[i];
    var data: seq<Edge> := [];
    for k := 0 to |others|
      invariant k > 0 ==> NonDegenerate(t)
      invariant data == Candidates(mine, others[..k], t)
    {
      var other := others[k];
      var dist := ScorePair(mine.features, other.features, t);
      if dist.Failure? {
        return Failure(dist.error);
      }
      if dist.value != 0.0 {
        data := data + [Edge(mine.artistId, other.artistId, dist.value)];
      }
      assert others[..k + 1][..k] == others[..k];
    }
    assert others[..|others|] == others;
    return Success(Take(Sort(data, Distance), TopK));
  }

  /** `for row in data: insert_row(row, 'related_artists')`: one upsert per edge, in order. */
  method UpsertAll(data: seq<Edge>) returns (statements: seq<Statement>)
    ensures statements == Each(Upsert, data)
  {
    statements := [];
    for k := 0 to |data|
      invariant statements == Each(Upsert, data[..k])
    {
      statements := statements + [Upsert(data[k])];
      assert data[..k + 1] == data[..k] + [data[k]];
    }
    assert data[..|data|] == data;
  }
}
