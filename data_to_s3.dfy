/** The collection script: flatten every artist's top tracks through a table of jsonpath
    expressions, list their track ids, split the ids into requests of at most 100, and
    concatenate the audio features the requests return. The HTTP calls and jsonpath itself are
    parameters; the parquet files and the S3 upload are not part of this model. */
module DataToS3 {
  import opened Wrappers
  import opened Lists

  /** A JSON value as returned by the music API. */
  datatype Json =
    | JNull
    | JBool(b: bool)
    | JNumber(n: real)
    | JString(s: string)
    | JArray(items: seq<Json>)
    | JObject(fields: map<string, Json>)

  /** A flattened track: a dict of column name to value. */
  type FlatTrack = map<string, Json>

  /** The result of `jsonpath.jsonpath(track, path)`, reduced to what the script reads: `None`
      where the library returns `False` (no match), otherwise the first match (`value[0]`). */
  type Lookup = (Json, string) -> Option<Json>

  /** `top_track_keys`: column name and jsonpath expression, in dict order. */
  const TopTrackKeys: seq<(string, string)> := [
    ("track_id", "id"),
    ("track_name", "name"),
    ("popularity", "popularity"),
    ("album_name", "album.name"),
    ("image_url", "album.images[1].url")
  ]

  /** The columns of a flattened track that do not come from the track itself. */
  const ArtistColumns: set<string> := {"artist_id", "artist_name"}

  /** The flattened track after the keys `keys` have been visited in order. */
  function FlattenOver(keys: seq<(string, string)>, track: Json, aId: string, aName: string, lookup: Lookup): FlatTrack
  {
    if keys == [] then map[]
    else
      var n := |keys| - 1;
      var prior := FlattenOver(keys[..n], track, aId, aName, lookup);
      match lookup(track, keys[n].1)
      case None => prior
      case Some(v) => prior[keys[n].0 := v]["artist_id" := JString(aId)]["artist_name" := JString(aName)]
  }

  /** The flattened form of one API track. */
  function FlattenTrackSpec(track: Json, aId: string, aName: string, lookup: Lookup): FlatTrack
  {
    FlattenOver(TopTrackKeys, track, aId, aName, lookup)
  }

  /** Some key of `keys` matches in the track. */
  predicate AnyMatch(keys: seq<(string, string)>, track: Json, lookup: Lookup)
  {
    exists j :: 0 <= j < |keys| && lookup(track, keys[j].1).Some?
  }

  /** Keys distinct from each other and from the artist columns. */
  ghost predicate WellFormedKeys(keys: seq<(string, string)>)
  {
    && (forall j :: 0 <= j < |keys| ==> keys[j].0 !in ArtistColumns)
    && (forall i, j :: 0 <= i < j < |keys| ==> keys[i].0 != keys[j].0)
  }

  lemma {:induction false} FlattenOverKeys(keys: seq<(string, string)>, track: Json, aId: string, aName: string, lookup: Lookup, j: nat)
    requires WellFormedKeys(keys) && j < |keys|
    ensures var f := FlattenOver(keys, track, aId, aName, lookup);
      && (keys[j].0 in f <==> lookup(track, keys[j].1).Some?)
      && (keys[j].0 in f ==> f[keys[j].0] == lookup(track, keys[j].1).value)
  {
    var n := |keys| - 1;
    if j < n {
      FlattenOverKeys(keys[..n], track, aId, aName, lookup, j);
      assert keys[..n][j] == keys[j];
    } else if n > 0 {
      FlattenOverAbsent(keys[..n], track, aId, aName, lookup, keys[n].0);
    }
  }

  lemma {:induction false} FlattenOverAbsent(keys: seq<(string, string)>, track: Json, aId: string, aName: string, lookup: Lookup, c: string)
    requires c !in ArtistColumns
    requires forall j :: 0 <= j < |keys| ==> keys[j].0 != c
    ensures c !in FlattenOver(keys, track, aId, aName, lookup)
  {
    if keys != [] {
      var n := |keys| - 1;
      assert forall j :: 0 <= j < n ==> keys[..n][j] == keys[j];
      FlattenOverAbsent(keys[..n], track, aId, aName, lookup, c);
    }
  }

  lemma {:induction false} FlattenOverArtist(keys: seq<(string, string)>, track: Json, aId: string, aName: string, lookup: Lookup)
    requires WellFormedKeys(keys)
    ensures var f := FlattenOver(keys, track, aId, aName, lookup);
      && ("artist_id" in f <==> AnyMatch(keys, track, lookup))
      && ("artist_name" in f <==> AnyMatch(keys, track, lookup))
      && ("artist_id" in f ==> f["artist_id"] == JString(aId))
      && ("artist_name" in f ==> f["artist_name"] == JString(aName))
  {
    if keys != [] {
      var n := |keys| - 1;
      assert forall j :: 0 <= j < n ==> keys[..n][j] == keys[j];
      FlattenOverArtist(keys[..n], track, aId, aName, lookup);
      if AnyMatch(keys[..n], track, lookup) {
        var j :| 0 <= j < n && lookup(track, keys[..n][j].1).Some?;
        assert lookup(track, keys[j].1).Some?;
      }
      if lookup(track, keys[n].1).None? && AnyMatch(keys, track, lookup) {
        var j :| 0 <= j < |keys| && lookup(track, keys[j].1).Some?;
        assert lookup(track, keys[..n][j].1).Some?;
      }
    }
  }

  lemma {:induction false} FlattenOverDomain(keys: seq<(string, string)>, track: Json, aId: string, aName: string, lookup: Lookup, c: string)
    requires c in FlattenOver(keys, track, aId, aName, lookup)
    ensures c in ArtistColumns || exists j :: 0 <= j < |keys| && keys[j].0 == c
  {
    var n := |keys| - 1;
    if c in FlattenOver(keys[..n], track, aId, aName, lookup) {
      FlattenOverDomain(keys[..n], track, aId, aName, lookup, c);
      if c !in ArtistColumns {
        var j :| 0 <= j < n && keys[..n][j].0 == c;
        assert keys[j].0 == c;
      }
    }
  }

  /** A column of `top_track_keys` is present exactly when its jsonpath matches, and then holds
      the first match; `artist_id` and `artist_name` are present exactly when at least one
      jsonpath matches; there are no other columns. */
  lemma FlattenTrackFields(track: Json, aId: string, aName: string, lookup: Lookup)
    ensures var f := FlattenTrackSpec(track, aId, aName, lookup);
      && (forall j :: 0 <= j < |TopTrackKeys| ==>
            (TopTrackKeys[j].0 in f <==> lookup(track, TopTrackKeys[j].1).Some?)
            && (TopTrackKeys[j].0 in f ==> f[TopTrackKeys[j].0] == lookup(track, TopTrackKeys[j].1).value))
      && ("artist_id" in f <==> AnyMatch(TopTrackKeys, track, lookup))
      && ("artist_name" in f <==> AnyMatch(TopTrackKeys, track, lookup))
      && ("artist_id" in f ==> f["artist_id"] == JString(aId))
      && ("artist_name" in f ==> f["artist_name"] == JString(aName))
      && (forall c :: c in f ==> c in ArtistColumns || exists j :: 0 <= j < |TopTrackKeys| && TopTrackKeys[j].0 == c)
  {
    var f := FlattenTrackSpec(track, aId, aName, lookup);
    assert WellFormedKeys(TopTrackKeys);
    forall j | 0 <= j < |TopTrackKeys|
      ensures (TopTrackKeys[j].0 in f <==> lookup(track, TopTrackKeys[j].1).Some?)
      ensures (TopTrackKeys[j].0 in f ==> f[TopTrackKeys[j].0] == lookup(track, TopTrackKeys[j].1).value)
    {
      FlattenOverKeys(TopTrackKeys, track, aId, aName, lookup, j);
    }
    FlattenOverArtist(TopTrackKeys, track, aId, aName, lookup);
    forall c | c in f ensures c in ArtistColumns || exists j :: 0 <= j < |TopTrackKeys| && TopTrackKeys[j].0 == c {
      FlattenOverDomain(TopTrackKeys, track, aId, aName, lookup, c);
    }
  }

  /** The `for k, v in top_track_keys.items()` loop for one track. */
  method FlattenTrack(track: Json, aId: string, aName: string, lookup: Lookup) returns (nTrack: FlatTrack)
    ensures nTrack == FlattenTrackSpec(track, aId, aName, lookup)
  {
    nTrack := map[];
    for k := 0 to |TopTrackKeys|
      invariant nTrack == FlattenOver(TopTrackKeys[..k], track, aId, aName, lookup)
    {
      var (key, path) := TopTrackKeys[k];
      var value := lookup(track, path);
      assert TopTrackKeys[..k + 1][..k] == TopTrackKeys[..k];
      if value.None? {
        continue;
      }
      nTrack := nTrack[key := value.value];
      nTrack := nTrack["artist_id" := JString(aId)];
      nTrack := nTrack["artist_name" := JString(aName)];
    }
    assert TopTrackKeys[..|TopTrackKeys|] == TopTrackKeys;
  }

  /** The flattened tracks of one artist, one per API track, in API order. */
  function ArtistTracks(artist: (string, string), tracksOf: string -> seq<Json>, lookup: Lookup): seq<FlatTrack>
  {
    Each((track: Json) => FlattenTrackSpec(track, artist.0, artist.1, lookup), tracksOf(artist.0))
  }

  /** The nested loop over the artists table and each artist's top tracks. `tracksOf` stands
      for the `data['tracks']` list of the top-tracks request. */
  method FlattenTopTracks(artists: seq<(string, string)>, tracksOf: string -> seq<Json>, lookup: Lookup)
    returns (topTracks: seq<FlatTrack>)
    ensures topTracks == Flatten(Each((a: (string, string)) => ArtistTracks(a, tracksOf, lookup), artists))
  {
    var perArtist := (a: (string, string)) => ArtistTracks(a, tracksOf, lookup);
    topTracks := [];
    for i := 0 to |artists|
      invariant topTracks == Flatten(Each(perArtist, artists[..i]))
    {
      var (aId, aName) := artists[i];
      var tracks := tracksOf(aId);
      ghost var before := topTracks;
      for k := 0 to |tracks|
        invariant topTracks == before + ArtistTracks(artists[i], tracksOf, lookup)[..k]
      {
        var nTrack := FlattenTrack(tracks[k], aId, aName, lookup);
        topTracks := topTracks + [nTrack];
        assert ArtistTracks(artists[i], tracksOf, lookup)[..k + 1]
            == ArtistTracks(artists[i], tracksOf, lookup)[..k] + [nTrack];
      }
      assert ArtistTracks(artists[i], tracksOf, lookup)[..|tracks|] == ArtistTracks(artists[i], tracksOf, lookup);
      assert Each(perArtist, artists[..i + 1]) == Each(perArtist, artists[..i]) + [perArtist(artists[i])];
    }
    assert artists[..|artists|] == artists;
  }

  /** The total number of API tracks over all artists. */
  function TrackCount(artists: seq<(string, string)>, tracksOf: string -> seq<Json>): nat
  {
    if artists == [] then 0
    else TrackCount(artists[..|artists| - 1], tracksOf) + |tracksOf(artists[|artists| - 1].0)|
  }

  /** One flattened entry per API track, even when no jsonpath matched in it. */
  lemma {:induction false} TopTracksCount(artists: seq<(string, string)>, tracksOf: string -> seq<Json>, lookup: Lookup)
    ensures |Flatten(Each((a: (string, string)) => ArtistTracks(a, tracksOf, lookup), artists))|
            == TrackCount(artists, tracksOf)
  {
    var perArtist := (a: (string, string)) => ArtistTracks(a, tracksOf, lookup);
    if artists != [] {
      var n := |artists| - 1;
      TopTracksCount(artists[..n], tracksOf, lookup);
      assert Each(perArtist, artists)[..n] == Each(perArtist, artists[..n]);
    }
  }

  /** `[track['track_id'] for track in top_tracks]`: a track without `track_id` raises KeyError. */
  function TrackIds(topTracks: seq<FlatTrack>): (r: Result<seq<Json>, PyError>)
    ensures r.Success? <==> forall k :: 0 <= k < |topTracks| ==> "track_id" in topTracks[k]
    ensures r.Failure? ==> r.error == KeyError("track_id")
    ensures r.Success? ==> |r.value| == |topTracks|
                           && forall k :: 0 <= k < |topTracks| ==> r.value[k] == topTracks[k]["track_id"]
  {
    if forall k :: 0 <= k < |topTracks| ==> "track_id" in topTracks[k] then
      Success(seq(|topTracks|, k requires 0 <= k < |topTracks| => topTracks[k]["track_id"]))
    else Failure(KeyError("track_id"))
  }

  /** How many ids one audio-features request carries. */
  const ChunkSize: nat := 100

  /** `[ids[i:i + 100] for i in range(0, len(ids), 100)]`. */
  function Chunks<T>(ids: seq<T>): (r: seq<seq<T>>)
    ensures |r| == (|ids| + ChunkSize - 1) / ChunkSize
    ensures forall k :: 0 <= k < |r| ==> 1 <= |r[k]| <= ChunkSize
    ensures forall k :: 0 <= k < |r| - 1 ==> |r[k]| == ChunkSize
  {
    seq((|ids| + ChunkSize - 1) / ChunkSize,
        k requires 0 <= k < (|ids| + ChunkSize - 1) / ChunkSize =>
          ids[k * ChunkSize .. Min(k * ChunkSize + ChunkSize, |ids|)])
  }

  lemma {:induction false} ChunksPrefix<T>(ids: seq<T>, k: nat)
    requires k <= |Chunks(ids)|
    ensures Flatten(Chunks(ids)[..k]) == ids[..Min(k * ChunkSize, |ids|)]
  {
    if k > 0 {
      var c := Chunks(ids);
      ChunksPrefix(ids, k - 1);
      assert c[..k][..k - 1] == c[..k - 1];
      assert ids[..Min(k * ChunkSize, |ids|)]
          == ids[..Min((k - 1) * ChunkSize, |ids|)] + c[k - 1];
    }
  }

  /** Concatenating the chunks gives back the id list exactly. */
  lemma ChunksConcat<T>(ids: seq<T>)
    ensures Flatten(Chunks(ids)) == ids
  {
    var c := Chunks(ids);
    ChunksPrefix(ids, |c|);
    assert c[..|c|] == c;
  }

  /** The `for track_id_bind in list_track_id_binds` loop: `fetch` stands for the
      audio-features request and returns its `audio_features` list. */
  method CollectAudioFeatures<F>(chunks: seq<seq<Json>>, fetch: seq<Json> -> seq<F>) returns (audioFeatures: seq<F>)
    ensures audioFeatures == Flatten(Each(fetch, chunks))
  {
    audioFeatures := [];
    for k := 0 to |chunks|
      invariant audioFeatures == Flatten(Each(fetch, chunks[..k]))
    {
      var data := fetch(chunks[k]);
      audioFeatures := audioFeatures + data;
      assert Each(fetch, chunks[..k + 1]) == Each(fetch, chunks[..k]) + [data];
    }
    assert chunks[..|chunks|] == chunks;
  }

  /** When each request answers with one feature per id, in id order, the collected features
      line up with the track ids one for one. */
  lemma AudioFeaturesAlign<F>(ids: seq<Json>, fetch: seq<Json> -> seq<F>, feature: Json -> F)
    requires forall c :: fetch(c) == Each(feature, c)
    ensures Flatten(Each(fetch, Chunks(ids))) == Each(feature, ids)
  {
    var c := Chunks(ids);
    EachFlatten(feature, c);
    ChunksConcat(ids);
    assert Each(fetch, c) == Each((xs: seq<Json>) => Each(feature, xs), c);
  }
}
