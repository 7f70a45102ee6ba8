/** The DAG's ranking task (`query_data`), which returns one list of edges per artist, and its
    storing task (`store_data`), which upserts every edge in that order. */
module Pipeline {
  import opened Wrappers
  import opened Lists
  import opened Sql
  import opened Similarity
  import opened Ranking
  import opened DataToS3

  /** The ranking loop of `query_data` over the averages and the range table. */
  method QueryData(artists: seq<Artist>, t: RangeTable) returns (r: Result<seq<seq<Edge>>, PyError>)
    ensures r.Failure? <==> |artists| >= 2 && !NonDegenerate(t)
    ensures r.Failure? ==> r.error == ZeroDivisionError
    ensures r.Success? ==> CanRank(artists, t) && r.value == RankAll(artists, t)
  {
    var related: seq<seq<Edge>> := [];
    for i := 0 to |artists|
      invariant i > 0 ==> CanRank(artists, t)
      invariant |related| == i
      invariant forall j :: 0 <= j < i ==> related[j] == TopRelated(artists, j, t)
    {
      var data := RankArtist(artists, i, t);
      if data.Failure? {
        return Failure(data.error);
      }
      related := related + [data.value];
    }
    return Success(related);
  }

  /** `store_data`: one upsert per edge, list by list and within a list in order. */
  method StoreData(related: seq<seq<Edge>>) returns (statements: seq<Statement>)
    ensures statements == Each(Upsert, Flatten(related))
  {
    statements := [];
    for a := 0 to |related|
      invariant statements == Each(Upsert, Flatten(related[..a]))
    {
      var inserted := UpsertAll(related[a]);
      EachAppend(Upsert, Flatten(related[..a]), related[a]);
      statements := statements + inserted;
      assert related[..a + 1][..a] == related[..a];
    }
    assert related[..|related|] == related;
  }

  /** What `audio_features` holds in `load_audio_features`: the list it starts as, or the
      DataFrame it is rebound to inside the chunk loop. */
  datatype Collected<F> = ListOf(rows: seq<F>) | FrameOf(rows: seq<F>)

  /** `load_audio_features` as written: after the first chunk `audio_features` is a DataFrame,
      which has no `extend`, so a second chunk raises. `fetch` stands for the audio-features
      request of one chunk. */
  method LoadAudioFeaturesAsWritten<F>(trackIds: seq<Json>, fetch: seq<Json> -> seq<F>) returns (r: Result<seq<F>, PyError>)
    ensures |trackIds| <= ChunkSize ==> r == Success(Flatten(Each(fetch, Chunks(trackIds))))
    ensures |trackIds| > ChunkSize ==> r == Failure(AttributeError("extend"))
  {
    var audioFeatures: Collected<F> := ListOf([]);
    var binds := Chunks(trackIds);
    for k := 0 to |binds|
      invariant k == 0 ==> audioFeatures == ListOf([])
      invariant k > 0 ==> k == 1 && audioFeatures == FrameOf(Flatten(Each(fetch, binds[..k])))
    {
      if audioFeatures.FrameOf? {
        return Failure(AttributeError("extend"));
      }
      var data := fetch(binds[k]);
      audioFeatures := FrameOf(audioFeatures.rows + data);
      assert Each(fetch, binds[..k + 1]) == [data];
    }
    assert binds[..|binds|] == binds;
    return Success(audioFeatures.rows);
  }

  /** `load_audio_features` with `audio_features` kept a list until every chunk is in: the
      features of every chunk, in chunk order, however many track ids there are. */
  method LoadAudioFeatures<F>(trackIds: seq<Json>, fetch: seq<Json> -> seq<F>) returns (r: Result<seq<F>, PyError>)
    ensures r == Success(Flatten(Each(fetch, Chunks(trackIds))))
  {
    var binds := Chunks(trackIds);
    var audioFeatures := CollectAudioFeatures(binds, fetch);
    return Success(audioFeatures);
  }
}
