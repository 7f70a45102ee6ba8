# MusicChatBot similarity ranking and chatbot replies, in Dafny

MusicChatBot collects the top tracks of the artists it knows from the Spotify API, together with their
audio features. From these it computes, for every artist, the five most similar other artists and
stores them in the MySQL table `related_artists`. A KakaoTalk chatbot lambda then answers an artist
name with cards. It shows the artist, their three most popular stored tracks and, when there are
related artists, a carousel with a card for each of them.

This project models the computational core of these programs and proves properties of it:

- **Normalisation and scoring** (`Similarity`, `Ranking`). This is `normalize` and the pair score
  of `query_data` in `dags/pipeline.py`, and its copy in `main` of `related_artists.py`. Each of
  the six metrics is min-max normalised, and the score of a pair is the sum over the metrics of
  `sqrt((x_norm - y_norm) ** 2)`, which is the absolute difference. Values are reals.
- **Ranking** (`Similarity`, `Ranking`, `Pipeline.QueryData`, `RelatedArtists.RankAndInsert`).
  For each artist, its position is popped from a copy of the list. Every other artist is scored,
  and the nonzero scores are kept. Python's stable `sorted` orders them by distance, and the first
  five are kept. The stable sort is modelled as an insertion sort (`StableSort`). It is proved to
  be sorted and a permutation that keeps equal keys in their input order, and to be the only such
  ordering.
- **Rows written** (`Sql`, `Pipeline.StoreData`). `insert_row` builds an
  `INSERT … ON DUPLICATE KEY UPDATE` statement and its parameter list. The storing loops emit one
  statement per edge, in order.
- **Athena results** (`Athena`). `process_data` turns a result set into one dict per value row,
  keyed by the header row.
- **Collection script** (`DataToS3`). `data_to_s3.py` flattens each API track through a table
  of jsonpath expressions. It then lists the track ids, cuts them into chunks of 100 for the
  audio-features endpoint, and concatenates the answers. The same chunking appears at
  `dags/pipeline.py:145`.
- **Chatbot** (`Chatbot`). This covers the card builders of `lambda/chatbot/lambda_function.py`,
  `get_top_track` and the three reply shapes of `lambda_handler`.

The two scripts each define `normalize`, `process_data` and `insert_row`. The computations are the
same. `insert_row` takes the cursor as a parameter in `related_artists.py` and uses a module-level
cursor in `dags/pipeline.py`, but both build the same statement and parameter list. Each is
modelled once. The DAG's `query_data` returns the lists and `store_data`
upserts them afterwards. The batch script's `main` upserts each artist's list as soon as it is
ranked. Both produce the same statements in the same order (`RelatedArtists.RankAndInsert` against
`Pipeline.StoreData` over `Pipeline.QueryData`).

Three facts about the code shape the model:

- The score is a sum of absolute differences (L1), not a Euclidean distance. Each term is
  `sqrt(d ** 2)`, and no square root is taken of the total.
- Equal distances stay in the order of the input list, because the sort is stable. They are not
  ordered by the related artist's id.
- When a metric's minimum equals its maximum, `normalize` divides by zero and the run raises
  `ZeroDivisionError`. There is no fallback value. The model makes this an explicit `Failure`.
  It happens only when there are at least two artists, because with fewer no pair is scored.
  It happens while the first artist is scored, so nothing has been emitted before it.

## Model

| member | source | states |
|---|---|---|
| Similarity.Normalize | dags/pipeline.py:109-111 | fails with ZeroDivisionError exactly when max == min; otherwise the result times (max - min) is x - min |
| Similarity.NormalizeEndpoints | dags/pipeline.py:109-111 | over a proper range the minimum normalises to 0 and the maximum to 1 |
| Similarity.NormalizeMonotone | dags/pipeline.py:109-111 | over a proper range normalisation preserves strict order in both directions |
| Similarity.NormInjective | dags/pipeline.py:109-111 | two values of a metric normalise to the same number exactly when they are equal |
| Similarity.RootOfSquare | dags/pipeline.py:305 | `sqrt(d ** 2)` is non-negative, squares to d squared, and is zero exactly when d is |
| Similarity.ScoreOverFacts | dags/pipeline.py:298-305 | a partial score over any metrics is non-negative, symmetric, and zero exactly when the two vectors agree on those metrics |
| Similarity.ScoreNonNegative | dags/pipeline.py:297-305 | the score of a pair is never negative |
| Similarity.ScoreSymmetric | dags/pipeline.py:297-305 | scoring a against b gives the same as b against a |
| Similarity.ScoreZeroIff | dags/pipeline.py:297-305 | the score is zero exactly when the two feature vectors are identical |
| Similarity.Others | dags/pipeline.py:295-296 | copy-and-pop leaves n - 1 artists: those before position i, then those after it |
| Similarity.CandidatesSound | dags/pipeline.py:297-313 | every kept edge has a nonzero distance and is the edge to some other artist |
| Similarity.CandidatesComplete | dags/pipeline.py:297-313 | every other artist with a nonzero score yields an edge |
| Similarity.DifferentArtistIsCandidate | dags/pipeline.py:292-313 | any other position whose features differ is a candidate of artist i |
| Similarity.TopRelatedEdges | dags/pipeline.py:292-317 | each kept edge starts at artist i, has distance > 0, and points to another position j != i with different features, carrying their score |
| Similarity.TopRelatedRanked | dags/pipeline.py:317 | the list has min(5, candidates) edges, ascending by distance, drawn from the candidates; no dropped candidate is strictly closer than a kept one; equal distances keep their earliest candidates |
| Similarity.NoSelfEdge | dags/pipeline.py:292-313 | when artist ids are unique, no artist is listed as related to itself |
| Similarity.RankAllShape | dags/pipeline.py:288-321 | one list per artist, each of at most 5 edges from that artist, at most 5n edges in all |
| Similarity.EdgeRow | dags/pipeline.py:308-312 | the row dict has the columns artist_id, related_artist_id, distance with the edge's values, in that order |
| Similarity.UpsertShape | dags/pipeline.py:114-122 | an edge's upsert carries its three values twice and holds exactly six placeholders |
| Similarity.UpsertText | dags/pipeline.py:114-121 | every edge's upsert is the same statement: columns artist_id, related_artist_id, distance, three placeholders, and the update clauses in the same column order |
| Ranking.ScorePair | dags/pipeline.py:298-305 | the metric loop fails with ZeroDivisionError exactly when some metric's range is empty, and otherwise returns the pair score |
| Ranking.RankArtist | dags/pipeline.py:292-317 | one outer iteration fails exactly when two or more artists meet an empty range, and otherwise returns the top-five list of that artist |
| Ranking.UpsertAll | related_artists.py:243-244 | the statements are one upsert per edge, in list order |
| Pipeline.QueryData | dags/pipeline.py:288-321 | fails with ZeroDivisionError exactly when there are two or more artists and some range is empty; otherwise the result is the top-five list of every artist, in artist order |
| Pipeline.StoreData | dags/pipeline.py:324-328 | one upsert per edge, list after list, each list in order |
| Pipeline.LoadAudioFeaturesAsWritten | dags/pipeline.py:142-156 | with at most 100 track ids the result is every chunk's features; with more, the second chunk raises AttributeError |
| Pipeline.LoadAudioFeatures | dags/pipeline.py:142-156 | the concatenated features of all chunks, in order, for any number of ids |
| RelatedArtists.RankAndInsert | related_artists.py:215-246 | fails exactly as QueryData does and with nothing emitted; otherwise emits the same statements as storing every ranked list in order |
| Sql.InsertRow | dags/pipeline.py:114-122 | the parameter list is the row's values twice: 2n entries, entry j and entry n + j being the j-th value; the SQL is the upsert template over the joined columns, placeholders and `k=%s` clauses, all in the row's key order |
| Sql.Join3 | dags/pipeline.py:115-118 | `', '.join` of three parts puts the separator between each pair |
| Sql.PlaceholdersMatchParams | dags/pipeline.py:114-122 | when table and column names contain no `%`, the statement has exactly as many `%` as parameters |
| Athena.DictOfKeys | dags/pipeline.py:104 | the dict of equal-length lists has exactly the listed keys |
| Athena.DictOfLast | dags/pipeline.py:104 | a key holds the value paired with its last occurrence |
| Athena.DictOfSpec | dags/pipeline.py:104 | the dict of equal-length lists has exactly the listed keys, and each key holds the value at its last occurrence |
| Athena.ZipToDictSpec | dags/pipeline.py:104 | `dict(zip(...))` holds exactly the keys paired with some value, each with the value at its last paired occurrence |
| Athena.Columns | dags/pipeline.py:93 | the header row gives one column name per cell, and raises KeyError when a header cell has no value |
| Athena.ProcessData | dags/pipeline.py:91-106 | an empty result raises IndexError, and a header cell without a value raises KeyError; otherwise one dict per value row, keyed by the header, with missing cells read as "" |
| DataToS3.FlattenTrackFields | data_to_s3.py:88-95 | a column is present exactly when its jsonpath matches, and holds the first match; artist_id and artist_name are present exactly when some jsonpath matched, with the artist's values; there are no other columns |
| DataToS3.FlattenTrack | data_to_s3.py:88-95 | the loop over `top_track_keys` builds the flattened track |
| DataToS3.FlattenTopTracks | data_to_s3.py:75-97 | the tracks of all artists, artist by artist, each in API order |
| DataToS3.TopTracksCount | data_to_s3.py:87-97 | exactly one flattened entry per API track, even when no jsonpath matched |
| DataToS3.TrackIds | data_to_s3.py:99 | one id per track in track order; KeyError when a track has no track_id |
| DataToS3.Chunks | data_to_s3.py:102 | ceil(n / 100) chunks, each of 1 to 100 ids, all but the last exactly 100 |
| DataToS3.ChunksConcat | data_to_s3.py:102 | concatenating the chunks gives back the id list exactly |
| DataToS3.CollectAudioFeatures | data_to_s3.py:104-111 | the features are the in-order concatenation of every chunk's answer |
| DataToS3.AudioFeaturesAlign | data_to_s3.py:99-111 | when each answer has one feature per id in id order, the features line up one for one with the track ids |
| Chatbot.Replace | lambda/chatbot/lambda_function.py:368 | `str.replace` of one character: same length, each matching character replaced and all others kept |
| Chatbot.ArtistYoutubeUrl | lambda/chatbot/lambda_function.py:368 | the search-link prefix followed by the name character by character, each space turned into `+`, so no space is left after the prefix |
| Chatbot.ArtistYoutubeUrlDecodes | lambda/chatbot/lambda_function.py:368 | for a name without `+`, turning `+` back into spaces after the prefix recovers the name |
| Chatbot.ItemCardMessage | lambda/chatbot/lambda_function.py:239-270 | an item card with the title and image, a Popularity line then a Followers line, and one button to the given link |
| Chatbot.SimpleTextMessage | lambda/chatbot/lambda_function.py:274-279 | a simpleText output carrying the message unchanged |
| Chatbot.ListCardMessage | lambda/chatbot/lambda_function.py:283-299 | a list card whose header is title and image, whose items are those given, with one button to the given link |
| Chatbot.CarouselMessage | lambda/chatbot/lambda_function.py:304-310 | a carousel of the given cards; its type defaults to listCard |
| Chatbot.MessageOf | lambda/chatbot/lambda_function.py:314-320 | version "2.0" with the outputs unchanged |
| Chatbot.ResponseOf | lambda/chatbot/lambda_function.py:324-331 | status code 200 with the header Access-Control-Allow-Origin: * and the message as body |
| Chatbot.TopTrackItemsSpec | lambda/chatbot/lambda_function.py:88-92 | min(3, n) stored tracks, most popular first, drawn from the stored ones; no left-out track is more popular than a shown one; equal popularities keep the earliest stored |
| Chatbot.GetTopTrack | lambda/chatbot/lambda_function.py:82-112 | one card per shown track in that order, titled by the track, linking to the search for artist name and track name |
| Chatbot.SearchArtist | lambda/chatbot/lambda_function.py:176 | the first search hit; IndexError exactly when the search found nothing |
| Chatbot.RelatedListCards | lambda/chatbot/lambda_function.py:404-415 | one list card per related id, in query order; raises TypeError exactly when some related id is not in the artists table |
| Chatbot.LambdaHandler | lambda/chatbot/lambda_function.py:337-431 | empty search: IndexError. New artist: [text, list card of the API tracks]. Known artist without related ids: [text, item card, list card]. Known artist with related ids: [text, item card, carousel of its own card then one per related id], replying exactly when every related id is in the table and raising TypeError otherwise. Every reply has status 200, the CORS header and version 2.0 |
| StableSort.Take | dags/pipeline.py:317 | a slice `[:k]` has min(k, n) elements, the first ones |
| StableSort.SortIsStable | dags/pipeline.py:317 | the insertion sort is ascending by the key, a permutation of its input, and keeps equal keys in input order |
| StableSort.StableSortUnique | dags/pipeline.py:317 | two sequences that are both sorted and have the same elements per key, in the same order, are equal, so any stable sort gives this result |
| StableSort.TakeSortedBasic | dags/pipeline.py:317 | the first k of a stable sort are min(k, n) elements, sorted, drawn from the input |
| StableSort.TakeSortedClosest | dags/pipeline.py:317 | an element left out is never strictly smaller than one kept |
| StableSort.TakeSortedTies | dags/pipeline.py:317 | among equal keys, the kept ones are the first in input order |

## Findings

| source | as written | input that shows it | evidently intended | confidence | as-written member | corrected member |
|---|---|---|---|---|---|---|
| dags/pipeline.py:154-156 | `audio_features` is rebound to a DataFrame inside the chunk loop, so the next `extend` raises AttributeError | 101 track ids, which make two chunks | collect the features of every chunk, then build the DataFrame once after the loop, as data_to_s3.py:104-111 does | high, not executed | Pipeline.LoadAudioFeaturesAsWritten | Pipeline.LoadAudioFeatures |

## Left out

- HTTP calls to the Spotify API, token retrieval, Athena query submission and polling, S3 uploads,
  DynamoDB reads and writes, asynchronous lambda calls and the MySQL connection and commit are
  I/O. Their results are parameters of the model: the search result, the table lookups, the stored
  tracks, the feature requests and the result-set rows.
- The Airflow DAG definition and task wiring (`dags/pipeline.py` after `store_data`) are
  scheduling only.
- `dags/pipeline.py:35-42` opens the connection as `conn` and then calls `con.cursor()`. This
  module-level connection setup is I/O and is not part of this model.
- The SQL of the Athena queries (averages per artist, minimum and maximum per metric, and
  `ROUND(MIN(acousticness),4)`) runs in the database. Its results are the `Artist` rows and the
  `RangeTable` given to the ranking.
- Similarity.Score: `float(...)` parsing of the result strings is left out, and so is the `KeyError` of
  a missing metric column. Metric values and ranges are given as reals, and arithmetic is exact
  rather than IEEE double. For this reason a score is zero exactly when the vectors are equal,
  which rounding could break in the source.
- StableSort.Sort: `list.sort` and `sorted` are modelled on values. The in-place mutation of
  `result['Items']` in `get_top_track` is not modelled, since nothing else reads that list.
- DataToS3.FlattenTrack: `jsonpath.jsonpath` is a parameter that returns either the first match
  or none. Its path language is not modelled.
- Chatbot.GetTopTrack: `parse.urlencode` is a parameter from the search string to the query
  string. Its percent-encoding is not modelled.
- Chatbot.LambdaHandler: the early `return` on a falsy search result (lambda_function.py:346-347)
  is never taken. `search_artist` either raises IndexError on an empty search or returns a dict
  with six keys, which is truthy, so that branch is not modelled.
- Chatbot.LambdaHandler: parsing the request JSON is not modelled, and neither is `json.dumps` of
  the body, which is kept as a value. The searches `search_artist` and `search_top_track`, and the
  artist insert in the new-artist branch, are I/O whose results are parameters. The search's status-code retries are left out, and so is an
  artist without images, where `images[0]` would raise.
- The `limit 3` of the related-artists query runs in the database. The handler accepts any number
  of related ids.
- The chatbot's `get_artist_by_name` and the DynamoDB loader lambda (`lambda/db`) are not used by
  the modelled paths.
