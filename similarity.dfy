/** Artist similarity: min-max normalisation of six averaged audio metrics, the pair score
    (a sum of absolute differences of the normalised metrics), and the list of the closest
    other artists kept for each artist. Metric values and the range table are already-parsed
    reals; the score is exact, not floating point. */
module Similarity {
  import opened Wrappers
  import opened StableSort
  import opened Lists
  import opened Sql

  datatype Metric = Danceability | Energy | Loudness | Speechiness | Acousticness | Instrumentalness

  /** The metrics in the order the ranking loop visits them. */
  const Metrics: seq<Metric> := [Danceability, Energy, Loudness, Speechiness, Acousticness, Instrumentalness]

  /** One value per metric: an artist's averages, or one side (`_min` or `_max`) of the range table. */
  datatype Features = Features(danceability: real, energy: real, loudness: real,
                               speechiness: real, acousticness: real, instrumentalness: real)
  {
    function Get(m: Metric): real
    {
      match m
      case Danceability => danceability
      case Energy => energy
      case Loudness => loudness
      case Speechiness => speechiness
      case Acousticness => acousticness
      case Instrumentalness => instrumentalness
    }
  }

  /** One row of the per-artist averages query. */
  datatype Artist = Artist(artistId: string, features: Features)

  /** The population minimum and maximum of every metric. */
  datatype RangeTable = RangeTable(mins: Features, maxs: Features)

  /** One related-artist row: `artist_id`, `related_artist_id`, `distance`. */
  datatype Edge = Edge(artistId: string, relatedArtistId: string, distance: real)

  /** How many of the closest artists are kept per artist. */
  const TopK: nat := 5

  /** The sort key of the ranking. */
  function Distance(e: Edge): real
  {
    e.distance
  }

  /** `(x - x_min) / (x_max - x_min)`; equal bounds raise ZeroDivisionError. */
  function Normalize(x: real, lo: real, hi: real): (r: Result<real, PyError>)
    ensures r.Failure? <==> hi == lo
    ensures r.Failure? ==> r.error == ZeroDivisionError
    ensures r.Success? ==> r.value * (hi - lo) == x - lo
  {
    if hi == lo then Failure(ZeroDivisionError) else Success((x - lo) / (hi - lo))
  }

  /** Metric `m` can be normalised: its minimum and maximum differ. */
  predicate Spread(t: RangeTable, m: Metric)
  {
    t.mins.Get(m) != t.maxs.Get(m)
  }

  predicate NonDegenerate(t: RangeTable)
  {
    forall m :: Spread(t, m)
  }

  /** The ranking can be computed: some pair of artists is scored only when there are two or
      more artists, and scoring a pair normalises every metric. */
  predicate CanRank(artists: seq<Artist>, t: RangeTable)
  {
    |artists| < 2 || NonDegenerate(t)
  }

  function Norm(t: RangeTable, m: Metric, x: real): real
    requires Spread(t, m)
  {
    Normalize(x, t.mins.Get(m), t.maxs.Get(m)).value
  }

  /** `math.sqrt(d ** 2)`: the non-negative square root of `d` squared. */
  function RootOfSquare(d: real): (r: real)
    ensures r >= 0.0 && r * r == d * d
    ensures r == 0.0 <==> d == 0.0
  {
    if d < 0.0 then -d else d
  }

  /** The contribution of one metric to the score of a pair. */
  function Term(a: Features, b: Features, t: RangeTable, m: Metric): real
    requires Spread(t, m)
  {
    RootOfSquare(Norm(t, m, a.Get(m)) - Norm(t, m, b.Get(m)))
  }

  /** The score accumulated over the metrics `ms`, in order. */
  function ScoreOver(ms: seq<Metric>, a: Features, b: Features, t: RangeTable): real
    requires forall m :: m in ms ==> Spread(t, m)
  {
    if ms == [] then 0.0
    else ScoreOver(ms[..|ms| - 1], a, b, t) + Term(a, b, t, ms[|ms| - 1])
  }

  /** The score of a pair of artists: the `dist` of the ranking loop. */
  function Score(a: Features, b: Features, t: RangeTable): real
    requires NonDegenerate(t)
  {
    ScoreOver(Metrics, a, b, t)
  }

  lemma AllMetricsListed()
    ensures forall m :: m in Metrics
  {
    forall m ensures m in Metrics {
      match m
      case Danceability => assert Metrics[0] == m;
      case Energy => assert Metrics[1] == m;
      case Loudness => assert Metrics[2] == m;
      case Speechiness => assert Metrics[3] == m;
      case Acousticness => assert Metrics[4] == m;
      case Instrumentalness => assert Metrics[5] == m;
    }
  }

  /** Over a proper range the minimum normalises to 0 and the maximum to 1. */
  lemma NormalizeEndpoints(lo: real, hi: real)
    requires lo != hi
    ensures Normalize(lo, lo, hi) == Success(0.0)
    ensures Normalize(hi, lo, hi) == Success(1.0)
  {
    var d := hi - lo;
    assert Normalize(lo, lo, hi).value * d == 0.0;
    assert Normalize(hi, lo, hi).value == d / d;
    DivSelf(d);
  }

  lemma DivSelf(d: real)
    requires d != 0.0
    ensures d / d == 1.0
  {
    var q := d / d;
    assert (q - 1.0) * d == 0.0;
  }

  /** Normalisation over a range whose maximum is above its minimum preserves the order of values. */
  lemma NormalizeMonotone(x: real, y: real, lo: real, hi: real)
    requires lo < hi
    ensures Normalize(x, lo, hi).value < Normalize(y, lo, hi).value <==> x < y
  {
    var nx, ny, d := Normalize(x, lo, hi).value, Normalize(y, lo, hi).value, hi - lo;
    assert (ny - nx) * d == y - x;
    if nx < ny {
      assert (ny - nx) * d > 0.0;
    } else {
      assert (nx - ny) * d >= 0.0;
    }
  }

  lemma NormInjective(t: RangeTable, m: Metric, x: real, y: real)
    requires Spread(t, m)
    ensures Norm(t, m, x) == Norm(t, m, y) <==> x == y
  {
    var lo, hi := t.mins.Get(m), t.maxs.Get(m);
    var nx, ny := Norm(t, m, x), Norm(t, m, y);
    assert nx * (hi - lo) == x - lo && ny * (hi - lo) == y - lo;
    if nx == ny {
      assert x - lo == y - lo;
    }
  }

  lemma {:induction false} ScoreOverFacts(ms: seq<Metric>, a: Features, b: Features, t: RangeTable)
    requires forall m :: m in ms ==> Spread(t, m)
    ensures ScoreOver(ms, a, b, t) >= 0.0
    ensures ScoreOver(ms, a, b, t) == ScoreOver(ms, b, a, t)
    ensures ScoreOver(ms, a, b, t) == 0.0 <==> forall m :: m in ms ==> a.Get(m) == b.Get(m)
  {
    if ms != [] {
      var n := |ms|;
      var last := ms[n - 1];
      ScoreOverFacts(ms[..n - 1], a, b, t);
      NormInjective(t, last, a.Get(last), b.Get(last));
      assert Term(a, b, t, last) == Term(b, a, t, last);
      forall m | m in ms ensures m in ms[..n - 1] || m == last {
        var j :| 0 <= j < n && ms[j] == m;
        if j < n - 1 { assert ms[..n - 1][j] == m; }
      }
    }
  }

  /** The score of a pair is never negative. */
  lemma ScoreNonNegative(a: Features, b: Features, t: RangeTable)
    requires NonDegenerate(t)
    ensures Score(a, b, t) >= 0.0
  {
    ScoreOverFacts(Metrics, a, b, t);
  }

  /** The score does not depend on which artist of the pair is the current one. */
  lemma ScoreSymmetric(a: Features, b: Features, t: RangeTable)
    requires NonDegenerate(t)
    ensures Score(a, b, t) == Score(b, a, t)
  {
    ScoreOverFacts(Metrics, a, b, t);
  }

  /** A pair scores exactly 0 if and only if the two artists have identical metric values. */
  lemma ScoreZeroIff(a: Features, b: Features, t: RangeTable)
    requires NonDegenerate(t)
    ensures Score(a, b, t) == 0.0 <==> a == b
  {
    ScoreOverFacts(Metrics, a, b, t);
    AllMetricsListed();
    if Score(a, b, t) == 0.0 {
      assert a.Get(Danceability) == b.Get(Danceability);
      assert a.Get(Energy) == b.Get(Energy);
      assert a.Get(Loudness) == b.Get(Loudness);
      assert a.Get(Speechiness) == b.Get(Speechiness);
      assert a.Get(Acousticness) == b.Get(Acousticness);
      assert a.Get(Instrumentalness) == b.Get(Instrumentalness);
    }
  }

  /** `others = artists.copy(); others.pop(i)`: every artist but the one at position `i`, in order. */
  function Others(artists: seq<Artist>, i: nat): (r: seq<Artist>)
    requires i < |artists|
    ensures |r| == |artists| - 1
    ensures forall j :: 0 <= j < |r| ==> r[j] == artists[if j < i then j else j + 1]
  {
    artists[..i] + artists[i + 1..]
  }

  /** The edge from `mine` to `other`. */
  function EdgeTo(mine: Artist, other: Artist, t: RangeTable): Edge
    requires NonDegenerate(t)
  {
    Edge(mine.artistId, other.artistId, Score(mine.features, other.features, t))
  }

  /** The unsorted `data` list: one edge per other artist with a nonzero score, in list order. */
  function Candidates(mine: Artist, others: seq<Artist>, t: RangeTable): seq<Edge>
    requires others == [] || NonDegenerate(t)
  {
    if others == [] then []
    else
      var prefix := Candidates(mine, others[..|others| - 1], t);
      var e := EdgeTo(mine, others[|others| - 1], t);
      if e.distance != 0.0 then prefix + [e] else prefix
  }

  /** The list kept for artist `i`: its candidates sorted ascending by distance (stably), first five. */
  function TopRelated(artists: seq<Artist>, i: nat, t: RangeTable): seq<Edge>
    requires i < |artists| && CanRank(artists, t)
  {
    Take(Sort(Candidates(artists[i], Others(artists, i), t), Distance), TopK)
  }

  /** The lists for all artists, in input order. */
  function RankAll(artists: seq<Artist>, t: RangeTable): seq<seq<Edge>>
    requires CanRank(artists, t)
  {
    seq(|artists|, i requires 0 <= i < |artists| => TopRelated(artists, i, t))
  }

  /** Every candidate is the edge to some other artist, with a nonzero score. */
  lemma {:induction false} CandidatesSound(mine: Artist, others: seq<Artist>, t: RangeTable, e: Edge)
    requires NonDegenerate(t)
    requires e in Candidates(mine, others, t)
    ensures e.distance != 0.0
    ensures exists j :: 0 <= j < |others| && e == EdgeTo(mine, others[j], t)
  {
    var n := |others|;
    var prefix := others[..n - 1];
    if e in Candidates(mine, prefix, t) {
      CandidatesSound(mine, prefix, t, e);
      var j :| 0 <= j < |prefix| && e == EdgeTo(mine, prefix[j], t);
      assert others[j] == prefix[j];
    } else {
      assert e == EdgeTo(mine, others[n - 1], t);
    }
  }

  /** Every other artist with a nonzero score has its edge among the candidates. */
  lemma {:induction false} CandidatesComplete(mine: Artist, others: seq<Artist>, t: RangeTable, j: nat)
    requires NonDegenerate(t)
    requires j < |others|
    requires Score(mine.features, others[j].features, t) != 0.0
    ensures EdgeTo(mine, others[j], t) in Candidates(mine, others, t)
  {
    var n := |others|;
    if j < n - 1 {
      CandidatesComplete(mine, others[..n - 1], t, j);
      assert others[..n - 1][j] == others[j];
    }
  }

  /** Every edge kept for artist `i` starts at artist `i`, leads to an artist at another
      position whose metric values differ, and carries that pair's positive score. */
  lemma TopRelatedEdges(artists: seq<Artist>, i: nat, t: RangeTable, e: Edge)
    requires i < |artists| && CanRank(artists, t)
    requires e in TopRelated(artists, i, t)
    ensures e.artistId == artists[i].artistId
    ensures e.distance > 0.0
    ensures exists j :: 0 <= j < |artists| && j != i
                        && e.relatedArtistId == artists[j].artistId
                        && e.distance == Score(artists[i].features, artists[j].features, t)
                        && artists[j].features != artists[i].features
  {
    var cands := Candidates(artists[i], Others(artists, i), t);
    SortIsStable(cands, Distance);
    TakeSortedBasic(cands, Distance, TopK);
    assert e in multiset(TopRelated(artists, i, t));
    assert e in cands;
    CandidatesSound(artists[i], Others(artists, i), t, e);
    var k :| 0 <= k < |Others(artists, i)| && e == EdgeTo(artists[i], Others(artists, i)[k], t);
    var j := if k < i then k else k + 1;
    ScoreNonNegative(artists[i].features, artists[j].features, t);
    ScoreZeroIff(artists[i].features, artists[j].features, t);
  }

  /** The list kept for artist `i` holds min(5, number of candidates) edges, ascending by
      distance, all of them candidates; no candidate left out is strictly closer than a kept
      one; and among equal distances the kept edges are the earliest in list order. */
  lemma TopRelatedRanked(artists: seq<Artist>, i: nat, t: RangeTable)
    requires i < |artists| && CanRank(artists, t)
    ensures var cands := Candidates(artists[i], Others(artists, i), t);
      var r := TopRelated(artists, i, t);
      && |r| == Min(TopK, |cands|)
      && SortedBy(r, Distance)
      && multiset(r) <= multiset(cands)
      && (forall c, e :: c in multiset(cands) - multiset(r) && e in r ==> e.distance <= c.distance)
      && (forall d :: WithKey(r, Distance, d) <= WithKey(cands, Distance, d))
  {
    var cands := Candidates(artists[i], Others(artists, i), t);
    TakeSortedBasic(cands, Distance, TopK);
    forall c, e | c in multiset(cands) - multiset(TopRelated(artists, i, t)) && e in TopRelated(artists, i, t)
      ensures e.distance <= c.distance
    {
      TakeSortedClosest(cands, Distance, TopK, c, e);
    }
    forall d ensures WithKey(TopRelated(artists, i, t), Distance, d) <= WithKey(cands, Distance, d) {
      TakeSortedTies(cands, Distance, TopK, d);
    }
  }

  /** Every other artist whose metric values differ is a candidate, so it is dropped only
      for being farther than (or tied after) the kept ones. */
  lemma DifferentArtistIsCandidate(artists: seq<Artist>, i: nat, j: nat, t: RangeTable)
    requires i < |artists| && j < |artists| && j != i && NonDegenerate(t)
    requires artists[j].features != artists[i].features
    ensures EdgeTo(artists[i], artists[j], t) in Candidates(artists[i], Others(artists, i), t)
  {
    ScoreZeroIff(artists[i].features, artists[j].features, t);
    var k := if j < i then j else j - 1;
    assert Others(artists, i)[k] == artists[j];
    CandidatesComplete(artists[i], Others(artists, i), t, k);
  }

  /** With distinct artist ids, no artist is ever listed as related to itself. */
  lemma NoSelfEdge(artists: seq<Artist>, i: nat, t: RangeTable, e: Edge)
    requires i < |artists| && CanRank(artists, t)
    requires forall p, q :: 0 <= p < q < |artists| ==> artists[p].artistId != artists[q].artistId
    requires e in TopRelated(artists, i, t)
    ensures e.relatedArtistId != e.artistId
  {
    TopRelatedEdges(artists, i, t, e);
  }

  /** One list per artist, in input order, each of at most five edges from that artist; so
      at most five edges per artist in all. */
  lemma RankAllShape(artists: seq<Artist>, t: RangeTable)
    requires CanRank(artists, t)
    ensures |RankAll(artists, t)| == |artists|
    ensures forall i :: 0 <= i < |artists| ==> |RankAll(artists, t)[i]| <= TopK
    ensures forall i, e :: 0 <= i < |artists| && e in RankAll(artists, t)[i] ==> e.artistId == artists[i].artistId
    ensures |Flatten(RankAll(artists, t))| <= TopK * |artists|
  {
    var all := RankAll(artists, t);
    forall i, e: Edge | 0 <= i < |artists| && e in all[i] ensures e.artistId == artists[i].artistId {
      TopRelatedEdges(artists, i, t, e);
    }
    FlattenLengthBound(all, TopK);
  }

  /** The row `insert_row` receives for an edge, keys in the order the dict is built. */
  function EdgeRow(e: Edge): (row: Row)
    ensures Keys(row) == ["artist_id", "related_artist_id", "distance"]
    ensures Values(row) == [Text(e.artistId), Text(e.relatedArtistId), Number(e.distance)]
  {
    [("artist_id", Text(e.artistId)), ("related_artist_id", Text(e.relatedArtistId)),
     ("distance", Number(e.distance))]
  }

  /** The upsert of one edge into the `related_artists` table. */
  function Upsert(e: Edge): Statement
  {
    InsertRow(EdgeRow(e), "related_artists")
  }

  /** Each upsert passes its edge's values twice, and its `%s` placeholders match its six
      parameters. */
  lemma UpsertShape(e: Edge)
    ensures Upsert(e).params == [Text(e.artistId), Text(e.relatedArtistId), Number(e.distance),
                                 Text(e.artistId), Text(e.relatedArtistId), Number(e.distance)]
    ensures Count('%', Upsert(e).sql) == 6
  {
    var row := EdgeRow(e);
    assert row[0].0 == "artist_id" && row[1].0 == "related_artist_id" && row[2].0 == "distance";
    PlaceholdersMatchParams(row, "related_artists");
  }

  /** Every upsert is the same statement: the three columns in the order the row dict lists
      them, three placeholders, and the update clauses in the same column order. */
  lemma UpsertText(e: Edge)
    ensures Upsert(e).sql == UpsertSql("related_artists",
                                       Join(", ", ["artist_id", "related_artist_id", "distance"]),
                                       Join(", ", ["%s", "%s", "%s"]),
                                       Join(", ", ["artist_id=%s", "related_artist_id=%s", "distance=%s"]))
  {
    var keys := Keys(EdgeRow(e));
    assert keys == ["artist_id", "related_artist_id", "distance"];
    assert Placeholders(3) == ["%s", "%s", "%s"];
    assert Assignments(keys) == ["artist_id=%s", "related_artist_id=%s", "distance=%s"] by {
      assert "artist_id" + "=%s" == "artist_id=%s";
      assert "related_artist_id" + "=%s" == "related_artist_id=%s";
      assert "distance" + "=%s" == "distance=%s";
    }
  }
}
