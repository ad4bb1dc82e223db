/**
 * Mapping of raw scraped tweets into mapped mention records (ApiDojoTweetScraper).
 *
 * A raw item is the dictionary the scraping actor returns. Members read with
 * `item[...]` are an `Option` (absent raises KeyError); members read with
 * `.get` are an `Option` whose `None` covers both absence and null, except the
 * author's location and an extended media key, where null and absence differ.
 * Date parsing and formatting (`strptime` then `format_date`) is the partial
 * function `parse`; the actor call (`searchBatch`) is the function `fetch`.
 */
module TweetScraper {
  import opened Records

  datatype Hashtag = Hashtag(text: Option<string>)
  datatype EntityMedia = EntityMedia(mediaKey: Option<string>)
  datatype Entities = Entities(hashtags: Option<seq<Hashtag>>, media: Option<seq<EntityMedia>>)
  datatype ExtMedia = ExtMedia(mediaKey: Field<string>, mediaUrlHttps: Option<string>)
  /** 'extendedEntities': its 'media' list, and whether it has any other member
      (an empty dictionary is falsy). */
  datatype ExtendedEntities = ExtendedEntities(media: Option<seq<ExtMedia>>, otherKeys: bool)
  datatype Author = Author(userName: Option<string>, id: Option<string>, isVerified: Option<bool>, location: Field<string>)
  datatype Item = Item(
    id: Option<string>,
    twitterUrl: Option<string>,
    text: Option<string>,
    likeCount: Option<int>,
    createdAt: Option<string>,
    author: Option<Author>,
    entities: Option<Entities>,
    extendedEntities: Option<ExtendedEntities>)

  /** A string value is truthy when present and not empty. */
  predicate Truthy(s: Option<string>) {
    s.Some? && s.value != ""
  }

  /** The hashtag entities of the item; none when it has no entities or they list no hashtags. */
  function HashtagList(item: Item): seq<Hashtag> {
    if item.entities.Some? && item.entities.value.hashtags.Some? then item.entities.value.hashtags.value else []
  }

  /** The media entities of the item; none when it has no entities or they list no media. */
  function MediaList(item: Item): seq<EntityMedia> {
    if item.entities.Some? && item.entities.value.media.Some? then item.entities.value.media.value else []
  }

  // ---------------------------------------------------------------------------
  // Hashtags
  // ---------------------------------------------------------------------------

  /** Each hashtag's text with a leading "#", in order; None when some hashtag has no text. */
  function Hashtags(tags: seq<Hashtag>): (r: Option<seq<string>>)
    ensures r.Some? <==> forall i | 0 <= i < |tags| :: tags[i].text.Some?
    ensures r.Some? ==> |r.value| == |tags| && forall i | 0 <= i < |tags| :: r.value[i] == "#" + tags[i].text.value
  {
    if tags == [] then Some([])
    else if tags[0].text.None? then None
    else
      var rest := Hashtags(tags[1..]);
      assert forall i | 0 <= i < |tags| - 1 :: tags[1..][i] == tags[i + 1];
      if rest.None? then None
      else
        Some(["#" + tags[0].text.value] + rest.value)
  }

  // ---------------------------------------------------------------------------
  // Images
  // ---------------------------------------------------------------------------

  /** The extended media that enter media_urls: those with a truthy media_url_https. */
  predicate HasUrl(m: ExtMedia) {
    Truthy(m.mediaUrlHttps)
  }

  /** The map from media key to url over the extended media that have a url, a later medium
      overriding an earlier one with the same key; None when such a medium has no media_key.
      A medium with a null key is left out: no later lookup can ask for a null key. */
  function MediaUrls(ms: seq<ExtMedia>): (r: Option<map<string, string>>)
    ensures r.Some? <==> forall i | 0 <= i < |ms| :: HasUrl(ms[i]) ==> !ms[i].mediaKey.Absent?
    ensures r.Some? ==> forall k | k in r.value ::
              exists i | 0 <= i < |ms| :: HasUrl(ms[i]) && ms[i].mediaKey == Val(k) && ms[i].mediaUrlHttps == Some(r.value[k])
    ensures r.Some? ==> forall i | 0 <= i < |ms| :: HasUrl(ms[i]) && ms[i].mediaKey.Val? ==> ms[i].mediaKey.value in r.value
    ensures r.Some? ==> forall i | 0 <= i < |ms| && HasUrl(ms[i]) && ms[i].mediaKey.Val?
                                   && (forall j | i < j < |ms| :: !(HasUrl(ms[j]) && ms[j].mediaKey == ms[i].mediaKey)) ::
              r.value[ms[i].mediaKey.value] == ms[i].mediaUrlHttps.value
    decreases |ms|
  {
    if ms == [] then Some(map[])
    else
      var front, m := ms[..|ms| - 1], ms[|ms| - 1];
      assert forall i | 0 <= i < |front| :: front[i] == ms[i];
      var prev := MediaUrls(front);
      if prev.None? then None
      else if !HasUrl(m) then prev
      else match m.mediaKey
        case Absent => None
        case Null => prev
        case Val(k) => Some(prev.value[k := m.mediaUrlHttps.value])
  }

  /** The truthy media_key values of the entity media, in entity order. */
  function KeyedMedia(media: seq<EntityMedia>): (keys: seq<string>)
    ensures |keys| <= |media|
    decreases |media|
  {
    if media == [] then []
    else
      var m := media[|media| - 1];
      KeyedMedia(media[..|media| - 1]) + (if Truthy(m.mediaKey) then [m.mediaKey.value] else [])
  }

  /** A key is looked up exactly when some entity medium carries it as a truthy media_key. */
  lemma {:induction false} KeyedMediaMembers(media: seq<EntityMedia>, key: string)
    ensures key in KeyedMedia(media) <==> exists i | 0 <= i < |media| :: Truthy(media[i].mediaKey) && media[i].mediaKey.value == key
    decreases |media|
  {
    if media != [] {
      var n := |media|;
      var front := media[..n - 1];
      KeyedMediaMembers(front, key);
      assert forall i | 0 <= i < n - 1 :: front[i] == media[i];
      if key in KeyedMedia(front) {
        var i :| 0 <= i < |front| && Truthy(front[i].mediaKey) && front[i].mediaKey.value == key;
        assert media[i] == front[i];
      }
    }
  }

  /** The url of each truthy media key of the entity media, looked up in the url map, in entity
      order; None when a key is not in the map (KeyError). */
  function ImagesOf(media: seq<EntityMedia>, urls: map<string, string>): (r: Option<seq<string>>)
    ensures r.Some? <==> forall i | 0 <= i < |KeyedMedia(media)| :: KeyedMedia(media)[i] in urls
    ensures r.Some? ==> |r.value| == |KeyedMedia(media)|
    ensures r.Some? ==> forall i | 0 <= i < |r.value| :: r.value[i] == urls[KeyedMedia(media)[i]]
    decreases |media|
  {
    if media == [] then Some([])
    else
      var front, m := media[..|media| - 1], media[|media| - 1];
      var prev := ImagesOf(front, urls);
      assert KeyedMedia(media) == KeyedMedia(front) + (if Truthy(m.mediaKey) then [m.mediaKey.value] else []);
      assert forall i | 0 <= i < |KeyedMedia(front)| :: KeyedMedia(media)[i] == KeyedMedia(front)[i];
      if prev.None? then None
      else if !Truthy(m.mediaKey) then prev
      else if m.mediaKey.value in urls then Some(prev.value + [urls[m.mediaKey.value]])
      else
        assert KeyedMedia(media)[|KeyedMedia(front)|] !in urls;
        None
  }

  /** The images of an item; no (or an empty) 'extendedEntities' gives no images. */
  function Images(item: Item): (r: Option<seq<string>>)
    ensures (item.extendedEntities.None? || item.extendedEntities == Some(ExtendedEntities(None, false))) ==> r == Some([])
    ensures item.extendedEntities.Some? && item.extendedEntities.value.media.None? && item.extendedEntities.value.otherKeys ==> r.None?
    ensures item.extendedEntities.Some? && item.extendedEntities.value.media.Some? ==>
              var urls := MediaUrls(item.extendedEntities.value.media.value);
              (r.Some? <==> urls.Some? && forall k | k in KeyedMedia(MediaList(item)) :: k in urls.value)
    ensures item.extendedEntities.Some? && item.extendedEntities.value.media.Some? ==>
              var urls := MediaUrls(item.extendedEntities.value.media.value);
              urls.Some? ==> r == ImagesOf(MediaList(item), urls.value)
  {
    if item.extendedEntities.None? then Some([])
    else
      var x := item.extendedEntities.value;
      if x.media.None? then (if x.otherKeys then None else Some([]))
      else
        var urls := MediaUrls(x.media.value);
        if urls.None? then None else ImagesOf(MediaList(item), urls.value)
  }

  /** The loop of map_item that appends one url per truthy media key. */
  method CollectImages(media: seq<EntityMedia>, urls: map<string, string>) returns (images: Option<seq<string>>)
    ensures images == ImagesOf(media, urls)
  {
    var acc: seq<string> := [];
    var i := 0;
    while i < |media|
      invariant 0 <= i <= |media|
      invariant ImagesOf(media[..i], urls) == Some(acc)
    {
      assert media[..i + 1][..i] == media[..i];
      var key := media[i].mediaKey;
      if Truthy(key) {
        if key.value !in urls {
          ImagesOfFailureIsFinal(media[..i + 1], media[i + 1..], urls);
          assert media[..i + 1] + media[i + 1..] == media;
          return None;
        }
        acc := acc + [urls[key.value]];
      }
      i := i + 1;
    }
    assert media[..i] == media;
    images := Some(acc);
  }

  lemma {:induction false} ImagesOfFailureIsFinal(media: seq<EntityMedia>, more: seq<EntityMedia>, urls: map<string, string>)
    requires ImagesOf(media, urls).None?
    ensures ImagesOf(media + more, urls).None?
    decreases |more|
  {
    if more != [] {
      ImagesOfFailureIsFinal(media, more[..|more| - 1], urls);
      assert (media + more)[..|media + more| - 1] == media + more[..|more| - 1];
    } else {
      assert media + more == media;
    }
  }

  /** The image collection of map_item: nothing for a falsy extendedEntities, otherwise the url
      map built and the entity media looked up in it. */
  method ItemImages(item: Item) returns (images: Option<seq<string>>)
    ensures images == Images(item)
  {
    images := Some([]);
    if item.extendedEntities.Some? {
      var x := item.extendedEntities.value;
      if x.media.Some? || x.otherKeys {
        if x.media.None? {
          return None;
        }
        var urls := MediaUrls(x.media.value);
        if urls.None? {
          return None;
        }
        images := CollectImages(MediaList(item), urls.value);
      }
    }
  }

  // ---------------------------------------------------------------------------
  // map_item
  // ---------------------------------------------------------------------------

  /** The region name of the author: the location when the member is present (null included),
      "Unknown" when it is absent. */
  function RegionName(location: Field<string>): (r: Field<string>)
    ensures !r.Absent?
    ensures location.Val? ==> r == location
    ensures location.Null? ==> r == Null
    ensures location.Absent? ==> r == Val(UNKNOWN)
  {
    if location.Absent? then Val(UNKNOWN) else location
  }

  /** Every required member of the item is present. */
  predicate HasRequired(item: Item) {
    && item.id.Some? && item.twitterUrl.Some? && item.likeCount.Some? && item.createdAt.Some?
    && item.author.Some?
    && item.author.value.userName.Some? && item.author.value.id.Some? && item.author.value.isVerified.Some?
  }

  /** The record map_item builds once the hashtags and images are known. */
  function Structure(item: Item, token: string, parse: string -> Option<string>,
                     tags: Option<seq<string>>, images: Option<seq<string>>): Option<Entry>
  {
    if tags.None? || images.None? || !HasRequired(item) || parse(item.createdAt.value).None? then None
    else
      var ts := parse(item.createdAt.value).value;
      var author := item.author.value;
      var tweet := TweetRec(item.id, item.twitterUrl, if item.text.Some? then Val(item.text.value) else Null,
                            item.likeCount, images, Some(ts));
      var user := UserRec(author.userName, author.id, author.isVerified);
      var posted := EdgeRec(Some(POSTED), user.userId, tweet.id, Some(EdgeAttrs(tweet.timestamp, None, tweet.likes)));
      var mentions := EdgeRec(Some(MENTIONS), user.userId, Some(token), Some(EdgeAttrs(tweet.timestamp, Some(|tags.value|), None)));
      Some(Entry(Some(token), Some(tweet), Some(user), Some(RegionRec(RegionName(author.location))), tags,
                 Some([posted, mentions])))
  }

  /** map_item: the record built for the item and token, or None where the source returns an empty
      dictionary. */
  function MappedItem(item: Item, token: string, parse: string -> Option<string>): (r: Option<Entry>)
    ensures r.Some? <==> && HasRequired(item)
                         && parse(item.createdAt.value).Some?
                         && (forall i | 0 <= i < |HashtagList(item)| :: HashtagList(item)[i].text.Some?)
                         && Images(item).Some?
    ensures r.Some? ==> r.value.token == Some(token)
    ensures r.Some? ==> var e := r.value;
              && e.tweet == Some(TweetRec(item.id, item.twitterUrl, if item.text.Some? then Val(item.text.value) else Null,
                                          item.likeCount, Images(item), parse(item.createdAt.value)))
              && e.userAccount == Some(UserRec(item.author.value.userName, item.author.value.id, item.author.value.isVerified))
    ensures r.Some? ==> r.value.region == Some(RegionRec(
              if item.author.value.location.Absent? then Val(UNKNOWN) else item.author.value.location))
    ensures r.Some? ==> var hs := r.value.hashtags;
              && hs.Some? && |hs.value| == |HashtagList(item)|
              && forall i | 0 <= i < |hs.value| :: hs.value[i] == "#" + HashtagList(item)[i].text.value
    ensures r.Some? ==> var e := r.value; var tw := e.tweet.value; var ua := e.userAccount.value;
              && e.edges.Some? && |e.edges.value| == 2
              && e.edges.value[0] == EdgeRec(Some(POSTED), ua.userId, tw.id, Some(EdgeAttrs(tw.timestamp, None, tw.likes)))
              && e.edges.value[1] == EdgeRec(Some(MENTIONS), ua.userId, e.token,
                                             Some(EdgeAttrs(tw.timestamp, Some(|e.hashtags.value|), None)))
  {
    Structure(item, token, parse, Hashtags(HashtagList(item)), Images(item))
  }

  method MapItem(item: Item, token: string, parse: string -> Option<string>) returns (r: Option<Entry>)
    ensures r == MappedItem(item, token, parse)
  {
    var tags := Hashtags(HashtagList(item));
    var images := ItemImages(item);
    r := Structure(item, token, parse, tags, images);
  }

  // ---------------------------------------------------------------------------
  // map and search_token_mentions
  // ---------------------------------------------------------------------------

  /** The values f gives the elements it keeps, in order. */
  function Filter<A, B>(xs: seq<A>, f: A -> Option<B>): (r: seq<B>)
    ensures |r| <= |xs|
    decreases |xs|
  {
    if xs == [] then []
    else
      var prev, y := Filter(xs[..|xs| - 1], f), f(xs[|xs| - 1]);
      if y.Some? then prev + [y.value] else prev
  }

  lemma FilterSnoc<A, B>(xs: seq<A>, x: A, f: A -> Option<B>)
    ensures Filter(xs + [x], f) == Filter(xs, f) + (if f(x).Some? then [f(x).value] else [])
  {
    assert (xs + [x])[..|xs|] == xs;
  }

  /** Filtering distributes over concatenation. */
  lemma {:induction false} FilterAppend<A, B>(a: seq<A>, b: seq<A>, f: A -> Option<B>)
    ensures Filter(a + b, f) == Filter(a, f) + Filter(b, f)
    decreases |b|
  {
    if b == [] {
      assert a + b == a;
    } else {
      var front, x := b[..|b| - 1], b[|b| - 1];
      assert b == front + [x];
      assert a + b == (a + front) + [x];
      FilterSnoc(front, x, f);
      FilterSnoc(a + front, x, f);
      FilterAppend(a, front, f);
    }
  }

  /** A value is in the result exactly when f gives it for some element. */
  lemma {:induction false} FilterMembers<A, B>(xs: seq<A>, f: A -> Option<B>, y: B)
    ensures y in Filter(xs, f) <==> exists i | 0 <= i < |xs| :: f(xs[i]) == Some(y)
    decreases |xs|
  {
    if xs != [] {
      var n := |xs|;
      var front := xs[..n - 1];
      FilterMembers(front, f, y);
      FilterSnoc(front, xs[n - 1], f);
      assert xs == front + [xs[n - 1]];
      if y in Filter(xs, f) {
        if y !in Filter(front, f) {
          assert f(xs[n - 1]) == Some(y);
        } else {
          var i :| 0 <= i < |front| && f(front[i]) == Some(y);
          assert front[i] == xs[i];
        }
      } else {
        forall i | 0 <= i < n
          ensures f(xs[i]) != Some(y)
        {
          if i < n - 1 {
            assert front[i] == xs[i];
          }
        }
      }
    }
  }

  /** map_item for a fixed token. */
  function Mapper(token: string, parse: string -> Option<string>): Item -> Option<Entry> {
    item => MappedItem(item, token, parse)
  }

  /** map: the records of the items that map, for a fixed token, in input order. */
  function MappedAll(items: seq<Item>, token: string, parse: string -> Option<string>): (r: seq<Entry>)
    ensures |r| <= |items|
    ensures forall k | 0 <= k < |r| :: r[k].token == Some(token)
  {
    var r := Filter(items, Mapper(token, parse));
    assert forall k | 0 <= k < |r| :: r[k].token == Some(token) by {
      forall k | 0 <= k < |r|
        ensures r[k].token == Some(token)
      {
        FilterMembers(items, Mapper(token, parse), r[k]);
      }
    }
    r
  }

  /** map distributes over concatenation, so it keeps input order. */
  lemma MappedAllAppend(a: seq<Item>, b: seq<Item>, token: string, parse: string -> Option<string>)
    ensures MappedAll(a + b, token, parse) == MappedAll(a, token, parse) + MappedAll(b, token, parse)
  {
    FilterAppend(a, b, Mapper(token, parse));
  }

  /** The records map returns are exactly the results of map_item that are not empty. */
  lemma MappedAllMembers(items: seq<Item>, token: string, parse: string -> Option<string>, e: Entry)
    ensures e in MappedAll(items, token, parse) <==>
            exists i | 0 <= i < |items| :: MappedItem(items[i], token, parse) == Some(e)
  {
    FilterMembers(items, Mapper(token, parse), e);
  }

  /** The loop of map. */
  method Map(items: seq<Item>, token: string, parse: string -> Option<string>) returns (out: seq<Entry>)
    ensures out == MappedAll(items, token, parse)
  {
    out := [];
    var i := 0;
    while i < |items|
      invariant 0 <= i <= |items|
      invariant out == MappedAll(items[..i], token, parse)
    {
      assert items[..i + 1] == items[..i] + [items[i]];
      FilterSnoc(items[..i], items[i], Mapper(token, parse));
      var r := MapItem(items[i], token, parse);
      if r.Some? {
        out := out + [r.value];
      }
      i := i + 1;
    }
    assert items[..i] == items;
  }

  /** The search URL searchBatch is run with for a token. */
  function SearchUrl(token: string): string {
    "https://twitter.com/search?q=%24" + token
  }

  /** Distinct tokens are searched with distinct URLs. */
  lemma SearchUrlInjective(a: string, b: string)
    ensures SearchUrl(a) == SearchUrl(b) ==> a == b
  {
    var n := |SearchUrl("")|;
    assert SearchUrl(a)[n..] == a && SearchUrl(b)[n..] == b;
  }

  /** The concatenation, in key order, of the parts of the keys. */
  function FlatMap<T>(keys: seq<string>, part: string -> seq<T>): seq<T>
    decreases |keys|
  {
    if keys == [] then [] else FlatMap(keys[..|keys| - 1], part) + part(keys[|keys| - 1])
  }

  lemma FlatMapSnoc<T>(keys: seq<string>, k: string, part: string -> seq<T>)
    ensures FlatMap(keys + [k], part) == FlatMap(keys, part) + part(k)
  {
    assert (keys + [k])[..|keys|] == keys;
  }

  /** Concatenating the parts distributes over concatenation of the keys. */
  lemma {:induction false} FlatMapAppend<T>(a: seq<string>, b: seq<string>, part: string -> seq<T>)
    ensures FlatMap(a + b, part) == FlatMap(a, part) + FlatMap(b, part)
    decreases |b|
  {
    if b == [] {
      assert a + b == a;
    } else {
      var front, k := b[..|b| - 1], b[|b| - 1];
      assert b == front + [k];
      assert a + b == (a + front) + [k];
      FlatMapSnoc(front, k, part);
      FlatMapSnoc(a + front, k, part);
      FlatMapAppend(a, front, part);
    }
  }

  /** The records the search for one token yields. */
  function Searched(fetch: string -> seq<Item>, parse: string -> Option<string>): string -> seq<Entry> {
    t => MappedAll(fetch(SearchUrl(t)), t, parse)
  }

  /** search_token_mentions: per token, the mapped results of its search, concatenated in token order. */
  function Collected(tokens: seq<string>, fetch: string -> seq<Item>, parse: string -> Option<string>): seq<Entry> {
    FlatMap(tokens, Searched(fetch, parse))
  }

  /** Every collected record carries a token, and that token is one of the searched tokens. */
  lemma {:induction false} CollectedTokens(tokens: seq<string>, fetch: string -> seq<Item>, parse: string -> Option<string>)
    ensures forall k | 0 <= k < |Collected(tokens, fetch, parse)| ::
              Collected(tokens, fetch, parse)[k].token.Some? && Collected(tokens, fetch, parse)[k].token.value in tokens
    decreases |tokens|
  {
    if tokens != [] {
      var front, t := tokens[..|tokens| - 1], tokens[|tokens| - 1];
      CollectedTokens(front, fetch, parse);
      var cf: seq<Entry>, m: seq<Entry> := Collected(front, fetch, parse), MappedAll(fetch(SearchUrl(t)), t, parse);
      assert Collected(tokens, fetch, parse) == cf + m;
      forall k | 0 <= k < |cf + m|
        ensures (cf + m)[k].token.Some? && (cf + m)[k].token.value in tokens
      {
        if k < |cf| {
          assert (cf + m)[k] == cf[k];
          assert cf[k].token.value in front;
        } else {
          assert (cf + m)[k] == m[k - |cf|];
        }
      }
    }
  }

  /** Searching the tokens of a + b collects the records of a, then those of b. */
  lemma CollectedAppend(a: seq<string>, b: seq<string>, fetch: string -> seq<Item>, parse: string -> Option<string>)
    ensures Collected(a + b, fetch, parse) == Collected(a, fetch, parse) + Collected(b, fetch, parse)
  {
    FlatMapAppend(a, b, Searched(fetch, parse));
  }

  /** The loop of search_token_mentions, appending each token's mapped results. */
  method SearchTokenMentions(tokens: seq<string>, fetch: string -> seq<Item>, parse: string -> Option<string>)
    returns (all: seq<Entry>)
    ensures all == Collected(tokens, fetch, parse)
  {
    all := [];
    var i := 0;
    while i < |tokens|
      invariant 0 <= i <= |tokens|
      invariant all == Collected(tokens[..i], fetch, parse)
    {
      assert tokens[..i + 1] == tokens[..i] + [tokens[i]];
      FlatMapSnoc(tokens[..i], tokens[i], Searched(fetch, parse));
      var results := fetch(SearchUrl(tokens[i]));
      var mapped := Map(results, tokens[i], parse);
      all := all + mapped;
      i := i + 1;
    }
    assert tokens[..i] == tokens;
  }
}
