/** The batch script's `main` after its queries: rank every artist and upsert its closest
    others right away. Nothing is committed when the loop faults. */
module RelatedArtists {
  import opened Wrappers
  import opened Lists
  import opened Sql
  import opened Similarity
  import opened Ranking

  /** The statements executed by the ranking loop of `main`, in execution order. */
  method RankAndInsert(artists: seq<Artist>, t: RangeTable) returns (r: Result<seq<Statement>, PyError>)
    ensures r.Failure? <==> |artists| >= 2 && !NonDegenerate(t)
    ensures r.Failure? ==> r.error == ZeroDivisionError
    ensures r.Success? ==> CanRank(artists, t) && r.value == Each(Upsert, Flatten(RankAll(artists, t)))
  {
    var statements: seq<Statement> := [];
    ghost var emitted: seq<seq<Edge>> := [];
    for i := 0 to |artists|
      invariant i > 0 ==> CanRank(artists, t)
      invariant |emitted| == i
      invariant forall j :: 0 <= j < i ==> emitted[j] == TopRelated(artists, j, t)
      invariant statements == Each(Upsert, Flatten(emitted))
    {
      var data := RankArtist(artists, i, t);
      if data.Failure? {
        return Failure(data.error);
      }
      var inserted := UpsertAll(data.value);
      EachAppend(Upsert, Flatten(emitted), data.value);
      statements := statements + inserted;
      assert (emitted + [data.value])[..i] == emitted;
      emitted := emitted + [data.value];
    }
    assert CanRank(artists, t);
    assert emitted == RankAll(artists, t);
    return Success(statements);
  }
}
