/** The chatbot lambda: the KakaoTalk response cards it builds, the top-three track cards of an
    artist, and the case analysis of the handler that assembles the message queue. Searching
    the music API, the MySQL and DynamoDB reads and writes, the asynchronous lambda call,
    `urlencode` and `json.dumps` are not part of this model; their results are parameters. */
module Chatbot {
  import opened Wrappers
  import opened StableSort
  import opened Lists

  datatype Link = Link(web: string)

  /** One entry of a list card: a track. */
  datatype ListItem = ListItem(title: string, description: string, imageUrl: string, link: Link)

  datatype Header = Header(title: string, imageUrl: string)

  datatype Button = Button(caption: string, action: string, webLinkUrl: string)

  /** The body of a `listCard`. */
  datatype ListCard = ListCard(header: Header, items: seq<ListItem>, buttons: seq<Button>)

  datatype Thumbnail = Thumbnail(imageUrl: string, width: int, height: int)

  datatype Profile = Profile(title: string, imageUrl: string)

  datatype ItemEntry = ItemEntry(title: string, description: int)

  /** The body of an `itemCard`. */
  datatype ItemCard = ItemCard(thumbnail: Thumbnail, profile: Profile, itemList: seq<ItemEntry>, buttons: seq<Button>)

  /** One output of a message: `simpleText`, `itemCard`, `listCard` or `carousel`. */
  datatype Output =
    | SimpleText(text: string)
    | ItemCardOutput(itemCard: ItemCard)
    | ListCardOutput(listCard: ListCard)
    | CarouselOutput(cardType: string, items: seq<ListCard>)

  datatype Message = Message(version: string, outputs: seq<Output>)

  /** The lambda's return value; `body` is the message before `json.dumps`. */
  datatype Response = Response(statusCode: int, body: Message, headers: map<string, string>)

  /** A row of the `artists` table, or the search result with the same fields. */
  datatype ArtistInfo = ArtistInfo(artistId: string, artistName: string, followers: int,
                                   popularity: int, artistUrl: string, imageUrl: string)

  /** A stored top track of an artist. */
  datatype TrackItem = TrackItem(trackName: string, albumName: string, imageUrl: string, popularity: int)

  /** What the handler does: return a response, or raise. */
  datatype Outcome = Reply(response: Response) | Crash(error: PyError)

  /** The YouTube search page a track link is built on. */
  const BaseUrl: string := "https://www.youtube.com/results?"

  /** The YouTube search link of an artist, before the artist name. */
  const ArtistSearchPrefix: string := "https://www.youtube.com/results?search_query="

  const CorsHeaders: map<string, string> := map["Access-Control-Allow-Origin" := "*"]

  /** How many tracks an artist's list card shows. */
  const TopTracks: nat := 3

  /** `s.replace(a, b)` for single characters. */
  function Replace(s: string, a: char, b: char): (r: string)
    ensures |r| == |s|
    ensures forall i :: 0 <= i < |s| ==> r[i] == if s[i] == a then b else s[i]
  {
    if s == [] then [] else Replace(s[..|s| - 1], a, b) + [if s[|s| - 1] == a then b else s[|s| - 1]]
  }

  /** `'https://www.youtube.com/results?search_query={}'.format(name.replace(' ', '+'))`. */
  function ArtistYoutubeUrl(name: string): (url: string)
    ensures |url| == |ArtistSearchPrefix| + |name|
    ensures url[..|ArtistSearchPrefix|] == ArtistSearchPrefix
    ensures ' ' !in url[|ArtistSearchPrefix|..]
    ensures forall i :: 0 <= i < |name| ==>
              url[|ArtistSearchPrefix| + i] == if name[i] == ' ' then '+' else name[i]
  {
    ArtistSearchPrefix + Replace(name, ' ', '+')
  }

  /** The artist name is recovered from its link whenever it contains no `+` of its own. */
  lemma ArtistYoutubeUrlDecodes(name: string)
    requires '+' !in name
    ensures Replace(ArtistYoutubeUrl(name)[|ArtistSearchPrefix|..], '+', ' ') == name
  {
    var url := ArtistYoutubeUrl(name);
    assert url[|ArtistSearchPrefix|..] == Replace(name, ' ', '+');
  }

  /** `item_card`: a profile and thumbnail with the image, a Popularity line then a Followers
      line, and a button to the Spotify page. */
  function ItemCardMessage(title: string, imageUrl: string, popularity: int, followers: int, externalUrl: string): (o: Output)
    ensures o.ItemCardOutput?
    ensures o.itemCard.itemList == [ItemEntry("Popularity", popularity), ItemEntry("Followers", followers)]
    ensures o.itemCard.profile.title == title
    ensures o.itemCard.thumbnail.imageUrl == imageUrl && o.itemCard.profile.imageUrl == imageUrl
    ensures |o.itemCard.buttons| == 1 && o.itemCard.buttons[0].webLinkUrl == externalUrl
  {
    ItemCardOutput(ItemCard(
      Thumbnail(imageUrl, 800, 800),
      Profile(title, imageUrl),
      [ItemEntry("Popularity", popularity), ItemEntry("Followers", followers)],
      [Button("Spotify 검색", "webLink", externalUrl)]))
  }

  /** `simple_text`. */
  function SimpleTextMessage(msg: string): (o: Output)
    ensures o.SimpleText? && o.text == msg
  {
    SimpleText(msg)
  }

  /** `list_card`: a header, the given items unchanged, and one button to the given link. */
  function ListCardMessage(title: string, imageUrl: string, items: seq<ListItem>, externalUrl: string): (o: Output)
    ensures o.ListCardOutput?
    ensures o.listCard.header == Header(title, imageUrl)
    ensures o.listCard.items == items
    ensures |o.listCard.buttons| == 1 && o.listCard.buttons[0].webLinkUrl == externalUrl
  {
    ListCardOutput(ListCard(Header(title, imageUrl), items,
                            [Button("다른 노래도 보기", "webLink", externalUrl)]))
  }

  /** `carousel(items, card_type="listCard")`. */
  function CarouselMessage(items: seq<ListCard>, cardType: string := "listCard"): (o: Output)
    ensures o.CarouselOutput? && o.items == items && o.cardType == cardType
  {
    CarouselOutput(cardType, items)
  }

  /** `message`: the outputs unchanged under version "2.0". */
  function MessageOf(outputs: seq<Output>): (m: Message)
    ensures m.version == "2.0" && m.outputs == outputs
  {
    Message("2.0", outputs)
  }

  /** `response`: always status 200 with the CORS header. */
  function ResponseOf(result: Message): (r: Response)
    ensures r.statusCode == 200
    ensures r.headers == CorsHeaders && r.headers["Access-Control-Allow-Origin"] == "*"
    ensures r.body == result
  {
    Response(200, result, CorsHeaders)
  }

  /** The sort key of `sort(key=popularity, reverse=True)`: descending popularity is ascending
      negated popularity, and both keep equal popularities in stored order. */
  function NegPopularity(x: TrackItem): real
  {
    -(x.popularity as real)
  }

  /** The list-card entry for one track; `encode` stands for `urlencode` of the search query. */
  function TrackCard(x: TrackItem, artistName: string, encode: string -> string): ListItem
  {
    ListItem(x.trackName, x.albumName, x.imageUrl, Link(BaseUrl + encode(artistName + " " + x.trackName)))
  }

  /** The tracks shown for an artist: the three most popular, most popular first. */
  function TopTrackItems(items: seq<TrackItem>): seq<TrackItem>
  {
    Take(Sort(items, NegPopularity), TopTracks)
  }

  /** The shown tracks are min(3, n) stored tracks, by descending popularity; no track left
      out is more popular than a shown one; among equal popularities the earliest stored win. */
  lemma TopTrackItemsSpec(items: seq<TrackItem>)
    ensures var r := TopTrackItems(items);
      && |r| == Min(TopTracks, |items|)
      && (forall i, j :: 0 <= i < j < |r| ==> r[i].popularity >= r[j].popularity)
      && multiset(r) <= multiset(items)
      && (forall x, y :: x in multiset(items) - multiset(r) && y in r ==> x.popularity <= y.popularity)
      && (forall d :: WithKey(r, NegPopularity, d) <= WithKey(items, NegPopularity, d))
  {
    var r := TopTrackItems(items);
    TakeSortedBasic(items, NegPopularity, TopTracks);
    forall i, j | 0 <= i < j < |r| ensures r[i].popularity >= r[j].popularity {
      assert NegPopularity(r[i]) <= NegPopularity(r[j]);
    }
    forall x, y | x in multiset(items) - multiset(r) && y in r ensures x.popularity <= y.popularity {
      TakeSortedClosest(items, NegPopularity, TopTracks, x, y);
    }
    forall d ensures WithKey(r, NegPopularity, d) <= WithKey(items, NegPopularity, d) {
      TakeSortedTies(items, NegPopularity, TopTracks, d);
    }
  }

  /** `get_top_track` after the table query: sort the items by popularity, descending, and
      build one card for each of the first three, in that order. */
  method GetTopTrack(items: seq<TrackItem>, artistName: string, encode: string -> string) returns (cards: seq<ListItem>)
    ensures |cards| == |TopTrackItems(items)|
    ensures forall k :: 0 <= k < |cards| ==> cards[k] == TrackCard(TopTrackItems(items)[k], artistName, encode)
  {
    var sorted := Sort(items, NegPopularity);
    var shown := Take(sorted, TopTracks);
    cards := [];
    for k := 0 to |shown|
      invariant |cards| == k
      invariant forall j :: 0 <= j < k ==> cards[j] == TrackCard(shown[j], artistName, encode)
    {
      var ele := shown[k];
      var youtubeUrl := BaseUrl + encode(artistName + " " + ele.trackName);
      var tempDic := ListItem(ele.trackName, ele.albumName, ele.imageUrl, Link(youtubeUrl));
      cards := cards + [tempDic];
    }
  }

  /** The list card of an artist known to the database: its top-track cards and its link. */
  function ArtistListCard(a: ArtistInfo, tracksOf: string -> seq<TrackItem>, encode: string -> string): ListCard
  {
    var items := TopTrackItems(tracksOf(a.artistId));
    var cards := seq(|items|, k requires 0 <= k < |items| => TrackCard(items[k], a.artistName, encode));
    ListCardMessage(a.artistName, a.imageUrl, cards, ArtistYoutubeUrl(a.artistName)).listCard
  }

  /** The item card of an artist known to the database. */
  function ArtistItemCard(a: ArtistInfo): Output
  {
    ItemCardMessage(a.artistName, a.imageUrl, a.popularity, a.followers, a.artistUrl)
  }

  /** The text sent with a single artist's card. */
  function SingleArtistText(name: string): string
  {
    name + "의 노래를 들어보세요."
  }

  /** The text sent with the carousel of an artist and its related artists. */
  function RelatedArtistsText(name: string): string
  {
    name + "와 연관 아티스트 노래를 들어보세요!"
  }

  /** An artist's related ids, when the related-artists query found any. */
  predicate HasRelated(related: Option<seq<string>>)
  {
    related.Some? && related.value != []
  }

  /** The `for related_artist in related_artists` loop: look each related id up and build its
      list card; a related id missing from the artists table makes the lookup `None`, and
      subscripting it raises. */
  method RelatedListCards(ids: seq<string>, getArtist: string -> Option<ArtistInfo>,
                          tracksOf: string -> seq<TrackItem>, encode: string -> string)
    returns (r: Result<seq<ListCard>, PyError>)
    ensures r.Failure? <==> exists k :: 0 <= k < |ids| && getArtist(ids[k]).None?
    ensures r.Failure? ==> r.error == TypeError
    ensures r.Success? ==> |r.value| == |ids|
                           && forall k :: 0 <= k < |ids| ==>
                                getArtist(ids[k]).Some?
                                && r.value[k] == ArtistListCard(getArtist(ids[k]).value, tracksOf, encode)
  {
    var cards: seq<ListCard> := [];
    for k := 0 to |ids|
      invariant |cards| == k
      invariant forall j :: 0 <= j < k ==>
                  getArtist(ids[j]).Some?
                  && cards[j] == ArtistListCard(getArtist(ids[j]).value, tracksOf, encode)
    {
      var relatedArtistData := getArtist(ids[k]);
      if relatedArtistData.None? {
        return Failure(TypeError);
      }
      var rel := relatedArtistData.value;
      var relTopTracks := GetTopTrack(tracksOf(rel.artistId), rel.artistName, encode);
      var relYoutubeUrl := ArtistYoutubeUrl(rel.artistName);
      var relCardMessage := ListCardMessage(rel.artistName, rel.imageUrl, relTopTracks, relYoutubeUrl).listCard;
      assert relCardMessage == ArtistListCard(rel, tracksOf, encode);
      cards := cards + [relCardMessage];
    }
    return Success(cards);
  }

  /** `search_artist` after the request: `hits` is the search's `items` list (at most one
      artist). The first hit is taken; an empty list raises IndexError. */
  function SearchArtist(hits: seq<ArtistInfo>): (r: Result<ArtistInfo, PyError>)
    ensures r.Failure? <==> hits == []
    ensures r.Failure? ==> r.error == IndexError
    ensures r.Success? ==> r.value == hits[0]
  {
    if hits == [] then Failure(IndexError) else Success(hits[0])
  }

  /** `lambda_handler` after the request is parsed. `hits` is what the artist search found,
      `getArtist` the artists-table lookup (None when missing), `apiTopTracks` the cards
      `search_top_track` returns, `tracksOf` the stored tracks of an artist, `relatedOf` the
      related-artists query (None when it raised; at most three ids, closest first).
      `search_artist` either raises or returns a dict with six keys, which is truthy, so the
      handler's early return on a falsy search result is never taken and is not modelled. */
  method LambdaHandler(hits: seq<ArtistInfo>, getArtist: string -> Option<ArtistInfo>,
                       apiTopTracks: seq<ListItem>, tracksOf: string -> seq<TrackItem>,
                       relatedOf: string -> Option<seq<string>>, encode: string -> string)
    returns (out: Outcome)
    // nothing found: the search raises IndexError
    ensures hits == [] ==> out == Crash(IndexError)
    // every response has status 200 and the CORS header
    ensures out.Reply? ==> out.response.statusCode == 200 && out.response.headers == CorsHeaders
                           && out.response.body.version == "2.0"
    // a new artist: [simple_text, list_card] over the tracks found by the API
    ensures hits != [] && getArtist(hits[0].artistId).None? ==>
              out.Reply? && out.response.body.outputs ==
                [SimpleText(SingleArtistText(hits[0].artistName)),
                 ListCardMessage(hits[0].artistName, hits[0].imageUrl, apiTopTracks,
                                 ArtistYoutubeUrl(hits[0].artistName))]
    // a known artist without related artists: [simple_text, item_card, list_card]
    ensures hits != [] && getArtist(hits[0].artistId).Some? ==>
              var a := getArtist(hits[0].artistId).value;
              !HasRelated(relatedOf(a.artistId)) ==>
                out.Reply? && out.response.body.outputs ==
                  [SimpleText(SingleArtistText(a.artistName)), ArtistItemCard(a),
                   ListCardOutput(ArtistListCard(a, tracksOf, encode))]
    // a known artist with related artists: [simple_text, item_card, carousel]; the carousel
    // holds the artist's own card, then one per related id in query order; a related id
    // missing from the artists table makes the handler raise, and otherwise it replies
    ensures hits != [] && getArtist(hits[0].artistId).Some? ==>
              var a := getArtist(hits[0].artistId).value;
              HasRelated(relatedOf(a.artistId)) ==>
                var ids := relatedOf(a.artistId).value;
                && (out.Crash? <==> exists k :: 0 <= k < |ids| && getArtist(ids[k]).None?)
                && (out.Crash? ==> out.error == TypeError)
                && (out.Reply? <==> forall k :: 0 <= k < |ids| ==> getArtist(ids[k]).Some?)
                && (out.Reply? ==>
                      var outputs := out.response.body.outputs;
                      && |outputs| == 3
                      && outputs[0] == SimpleText(RelatedArtistsText(a.artistName))
                      && outputs[1] == ArtistItemCard(a)
                      && outputs[2].CarouselOutput? && outputs[2].cardType == "listCard"
                      && |outputs[2].items| == |ids| + 1
                      && outputs[2].items[0] == ArtistListCard(a, tracksOf, encode)
                      && forall k :: 0 <= k < |ids| ==>
                           getArtist(ids[k]).Some?
                           && outputs[2].items[k + 1] == ArtistListCard(getArtist(ids[k]).value, tracksOf, encode))
  {
    var searched := SearchArtist(hits);
    if searched.Failure? {
      return Crash(searched.error);
    }
    var artist := searched.value;
    var artistDbData := getArtist(artist.artistId);

    if artistDbData.None? {
      // the artist is inserted and its tracks are stored by another lambda (not modelled)
      var messageQueue: seq<Output> := [];
      var youtubeUrl := ArtistYoutubeUrl(artist.artistName);
      var cardMessage := ListCardMessage(artist.artistName, artist.imageUrl, apiTopTracks, youtubeUrl);
      var textMessage := SimpleTextMessage(SingleArtistText(artist.artistName));
      messageQueue := messageQueue + [textMessage];
      messageQueue := messageQueue + [cardMessage];
      return Reply(ResponseOf(MessageOf(messageQueue)));
    }

    var a := artistDbData.value;
    var youtubeUrl := ArtistYoutubeUrl(a.artistName);
    var messageQueue: seq<Output> := [];
    var topTracks := GetTopTrack(tracksOf(a.artistId), a.artistName, encode);
    var cardMessage := ListCardMessage(a.artistName, a.imageUrl, topTracks, youtubeUrl);
    var itemMessage := ItemCardMessage(a.artistName, a.imageUrl, a.popularity, a.followers, a.artistUrl);
    assert cardMessage.listCard == ArtistListCard(a, tracksOf, encode);
    var relatedArtists := relatedOf(a.artistId);

    if HasRelated(relatedArtists) {
      var relCards := RelatedListCards(relatedArtists.value, getArtist, tracksOf, encode);
      if relCards.Failure? {
        return Crash(relCards.error);
      }
      var listCardMessage := [cardMessage.listCard] + relCards.value;
      var textMessage := SimpleTextMessage(RelatedArtistsText(a.artistName));
      messageQueue := messageQueue + [textMessage];
      messageQueue := messageQueue + [itemMessage];
      messageQueue := messageQueue + [CarouselMessage(listCardMessage)];
    } else {
      var textMessage := SimpleTextMessage(SingleArtistText(a.artistName));
      messageQueue := messageQueue + [textMessage];
      messageQueue := messageQueue + [itemMessage];
      messageQueue := messageQueue + [cardMessage];
    }
    return Reply(ResponseOf(MessageOf(messageQueue)));
  }
}
