/**
  `convertTimelineTweetToTweet`: the mapping from a timeline entry, a
  loosely-typed JSON tree, to a `Tweet` record. Every value the TypeScript copies
  without interpreting it stays a `Json` (`None` for `undefined`); the
  errors are the `Error` it throws for a tweet without legacy data and the
  `TypeError`s JavaScript throws on the way.
*/
module Timeline {
  import opened Wrappers
  import opened JsonValue

  /** The default quoted-tweet depth of `convertTimelineTweetToTweet` and `extractQuotedTweet`. */
  const DefaultQuoteDepth: int := 3

  datatype ConvertError =
    /** `Error('Invalid tweet data: no legacy data found')` */
    | NoLegacyData
    /** `TypeError`: reading `legacy` of a `null` tweet */
    | NullTweet
    /** `TypeError`: `filter` or `map` called on a value of the named list that is not an array */
    | NotAList(field: string)
    /** `TypeError`: reading a property of a `null` entry of the named list */
    | NullEntry(field: string)

  datatype Photo = Photo(url: Option<Json>, width: Option<Json>, height: Option<Json>)
  datatype Video = Video(url: Option<Json>, duration: Option<Json>, variants: Option<Json>)
  datatype Url = Url(url: Option<Json>, expandedUrl: Option<Json>, displayUrl: Option<Json>)
  datatype UserData = UserData(userId: Option<Json>, username: Option<Json>, displayName: Option<Json>,
                               profileImageUrl: Option<Json>)

  /**
    The converted tweet. `timeParsed` holds the value given to `new Date`;
    `thread` and `quotedTweet` are `None` when the object literal leaves the key out.
  */
  datatype Tweet = Tweet(
    id: Option<Json>,
    userId: Option<Json>,
    username: Option<Json>,
    displayName: Option<Json>,
    profileImageUrl: Option<Json>,
    text: Json,
    timeParsed: Option<Json>,
    hashtags: Json,
    mentions: Json,
    photos: seq<Photo>,
    videos: seq<Video>,
    urls: seq<Url>,
    thread: Option<Json>,
    quotedTweet: Option<Tweet>,
    conversationId: Option<Json>,
    inReplyToStatusId: Option<Json>,
    replyCount: Option<Json>,
    retweetCount: Option<Json>,
    likeCount: Option<Json>,
    viewCount: Option<Json>)

  /** `tweet.legacy` */
  function OwnLegacy(tweet: Option<Json>): Option<Json> {
    Get(tweet, "legacy")
  }

  /** `tweet.quoted_status_result?.result?.legacy` */
  function QuotedLegacy(tweet: Option<Json>): Option<Json> {
    Path(tweet, ["quoted_status_result", "result", "legacy"])
  }

  /** `tweet.retweeted_status_result?.result?.legacy` */
  function RetweetedLegacy(tweet: Option<Json>): Option<Json> {
    Path(tweet, ["retweeted_status_result", "result", "legacy"])
  }

  /** `tweet.quoted_status_result?.result` */
  function QuotedResult(tweet: Json): Option<Json> {
    Path(Some(tweet), ["quoted_status_result", "result"])
  }

  /** The first truthy value of a list, the reference meaning of a chain `v0 || v1 || ...`. */
  function FirstTruthy(vs: seq<Option<Json>>): (r: Option<Json>)
    ensures r.Some? <==> exists i :: 0 <= i < |vs| && Truthy(vs[i])
    ensures r.Some? ==> Truthy(r) && exists i :: 0 <= i < |vs| && vs[i] == r && forall j :: 0 <= j < i ==> !Truthy(vs[j])
    decreases |vs|
  {
    if vs == [] then None
    else if Truthy(vs[0]) then vs[0]
    else
      var r := FirstTruthy(vs[1..]);
      assert forall i :: 1 <= i < |vs| ==> vs[i] == vs[1..][i - 1];
      r
  }

  /** The chain `a || rest...` looks at `a` first. */
  lemma FirstTruthyCons(a: Option<Json>, rest: seq<Option<Json>>)
    ensures FirstTruthy([a] + rest) == if Truthy(a) then a else FirstTruthy(rest)
  {
    assert ([a] + rest)[0] == a;
    assert ([a] + rest)[1..] == rest;
  }

  /**
    `isValidTweet`: the tweet is present, its `__typename` is `'Tweet'`, and
    it has legacy data of its own, of its quoted result or of its retweeted
    result. The TypeScript returns the deciding JavaScript value; this is its
    truthiness.
  */
  predicate IsValidTweet(tweet: Option<Json>) {
    && Truthy(tweet)
    && Get(tweet, "__typename") == Some(JStr("Tweet"))
    && Truthy(Or(Or(OwnLegacy(tweet), QuotedLegacy(tweet)), RetweetedLegacy(tweet)))
  }

  /**
    `extractLegacyData`: the tweet's own legacy data, else its quoted
    result's, else its retweeted result's; `None` (the TypeScript's `null`) when
    none is truthy.
  */
  function ExtractLegacyData(tweet: Json): (legacy: Option<Json>)
    requires tweet != JNull
    ensures legacy == FirstTruthy([OwnLegacy(Some(tweet)), QuotedLegacy(Some(tweet)), RetweetedLegacy(Some(tweet))])
    ensures legacy.Some? <==> Truthy(legacy)
  {
    var t := Some(tweet);
    var legacy := Or(Or(OwnLegacy(t), QuotedLegacy(t)), RetweetedLegacy(t));
    FirstTruthyCons(OwnLegacy(t), [QuotedLegacy(t), RetweetedLegacy(t)]);
    FirstTruthyCons(QuotedLegacy(t), [RetweetedLegacy(t)]);
    FirstTruthyCons(RetweetedLegacy(t), []);
    assert [OwnLegacy(t), QuotedLegacy(t), RetweetedLegacy(t)] == [OwnLegacy(t)] + [QuotedLegacy(t), RetweetedLegacy(t)];
    assert [QuotedLegacy(t), RetweetedLegacy(t)] == [QuotedLegacy(t)] + [RetweetedLegacy(t)];
    assert [RetweetedLegacy(t)] == [RetweetedLegacy(t)] + [];
    if !Truthy(legacy) then None else legacy
  }

  /**
    The validity guard holds exactly for tweets that are objects of type
    `'Tweet'` from which legacy data can be extracted.
  */
  lemma IsValidTweetIff(tweet: Option<Json>)
    ensures IsValidTweet(tweet) <==>
            && tweet.Some? && tweet.value != JNull
            && Get(tweet, "__typename") == Some(JStr("Tweet"))
            && ExtractLegacyData(tweet.value).Some?
  {
    if tweet.Some? && tweet.value != JNull {
      var _ := ExtractLegacyData(tweet.value);
    }
  }

  /** `tweet.note_tweet?.note_tweet_results?.result?.text` */
  function NoteText(tweet: Json): Option<Json> {
    Path(Some(tweet), ["note_tweet", "note_tweet_results", "result", "text"])
  }

  /**
    `extractFullText`: the long-post note text, else `legacy.full_text`, else
    `legacy.text`, else `''`, each taken only when truthy.
  */
  function ExtractFullText(tweet: Json): (text: Json)
    requires tweet != JNull
    ensures var legacy := ExtractLegacyData(tweet);
            text == FirstTruthy([NoteText(tweet), Get(legacy, "full_text"), Get(legacy, "text")]).GetOr(JStr(""))
  {
    var note := NoteText(tweet);
    var legacy := ExtractLegacyData(tweet);
    var full := Get(legacy, "full_text");
    var short := Get(legacy, "text");
    FirstTruthyCons(note, [full, short]);
    FirstTruthyCons(full, [short]);
    FirstTruthyCons(short, []);
    assert [note, full, short] == [note] + [full, short];
    assert [full, short] == [full] + [short];
    assert [short] == [short] + [];
    if Truthy(note) then note.value
    else OrElse(Or(full, short), JStr(""))
  }

  /** `legacy.extended_entities?.media || legacy.entities?.media || []` */
  function MediaOf(legacy: Option<Json>): (media: Json)
    ensures media == FirstTruthy([Path(legacy, ["extended_entities", "media"]), Path(legacy, ["entities", "media"])])
                     .GetOr(JArr([]))
  {
    var extended := Path(legacy, ["extended_entities", "media"]);
    var plain := Path(legacy, ["entities", "media"]);
    FirstTruthyCons(extended, [plain]);
    FirstTruthyCons(plain, []);
    assert [extended, plain] == [extended] + [plain];
    assert [plain] == [plain] + [];
    OrElse(Or(extended, plain), JArr([]))
  }

  /** `m.type === 'photo'` */
  predicate IsPhoto(m: Json) {
    Get(Some(m), "type") == Some(JStr("photo"))
  }

  /** `m.type === 'video' || m.type === 'animated_gif'` */
  predicate IsVideo(m: Json) {
    Get(Some(m), "type") == Some(JStr("video")) || Get(Some(m), "type") == Some(JStr("animated_gif"))
  }

  /**
    `items.filter(keep)` on the list named `field`, where `keep` reads a
    property of each entry: a `null` entry throws; otherwise the kept entries
    in their original order.
  */
  function Filter(items: seq<Json>, keep: Json -> bool, field: string): (r: Result<seq<Json>, ConvertError>)
    ensures r.Err? <==> JNull in items
    ensures r.Err? ==> r.error == NullEntry(field)
    ensures r.Ok? ==> |r.value| <= |items|
    ensures r.Ok? ==> forall m :: m in r.value <==> m in items && keep(m)
    decreases |items|
  {
    if items == [] then Ok([])
    else if items[0] == JNull then Err(NullEntry(field))
    else
      var rest := Filter(items[1..], keep, field);
      assert forall m :: m in items <==> m == items[0] || m in items[1..];
      if rest.Err? then rest
      else if keep(items[0]) then Ok([items[0]] + rest.value)
      else rest
  }

  /** Filtering a concatenation filters each part and keeps them in order. */
  lemma {:induction false} FilterAppend(xs: seq<Json>, ys: seq<Json>, keep: Json -> bool, field: string)
    requires JNull !in xs && JNull !in ys
    ensures Filter(xs + ys, keep, field).Ok?
    ensures Filter(xs + ys, keep, field).value == Filter(xs, keep, field).value + Filter(ys, keep, field).value
    decreases |xs|
  {
    if xs == [] {
      assert xs + ys == ys;
    } else {
      assert (xs + ys)[0] == xs[0];
      assert (xs + ys)[1..] == xs[1..] + ys;
      FilterAppend(xs[1..], ys, keep, field);
    }
  }

  /** `media.filter(keep)` on whatever value `media` is. */
  function FilterMedia(media: Json, keep: Json -> bool): (r: Result<seq<Json>, ConvertError>)
    ensures r.Err? <==> !media.JArr? || JNull in media.items
    ensures r.Ok? ==> |r.value| <= |media.items|
    ensures r.Ok? ==> forall m :: m in r.value <==> m in media.items && keep(m)
  {
    if media.JArr? then Filter(media.items, keep, "media") else Err(NotAList("media"))
  }

  function PhotoOf(p: Json): Photo {
    Photo(Get(Some(p), "media_url_https"),
          Path(Some(p), ["sizes", "large", "w"]),
          Path(Some(p), ["sizes", "large", "h"]))
  }

  function VideoOf(v: Json): Video {
    Video(Get(Some(v), "media_url_https"),
          Path(Some(v), ["video_info", "duration_millis"]),
          Path(Some(v), ["video_info", "variants"]))
  }

  /** `extractPhotos`: one photo per media entry of type `'photo'`, in order. */
  function ExtractPhotos(media: Json): (r: Result<seq<Photo>, ConvertError>)
    ensures r.Err? <==> FilterMedia(media, IsPhoto).Err?
    ensures r.Ok? ==> |r.value| == |FilterMedia(media, IsPhoto).value| <= |media.items|
    ensures r.Ok? ==> forall i :: 0 <= i < |r.value| ==> r.value[i] == PhotoOf(FilterMedia(media, IsPhoto).value[i])
  {
    var kept :- FilterMedia(media, IsPhoto);
    Ok(seq(|kept|, i requires 0 <= i < |kept| => PhotoOf(kept[i])))
  }

  /** `extractVideos`: one video per media entry of type `'video'` or `'animated_gif'`, in order. */
  function ExtractVideos(media: Json): (r: Result<seq<Video>, ConvertError>)
    ensures r.Err? <==> FilterMedia(media, IsVideo).Err?
    ensures r.Ok? ==> |r.value| == |FilterMedia(media, IsVideo).value| <= |media.items|
    ensures r.Ok? ==> forall i :: 0 <= i < |r.value| ==> r.value[i] == VideoOf(FilterMedia(media, IsVideo).value[i])
  {
    var kept :- FilterMedia(media, IsVideo);
    Ok(seq(|kept|, i requires 0 <= i < |kept| => VideoOf(kept[i])))
  }

  function UrlOf(u: Json): Url {
    Url(Get(Some(u), "url"), Get(Some(u), "expanded_url"), Get(Some(u), "display_url"))
  }

  /**
    `extractUrls`: `[]` when there is no `urls` list (absent or `null`), one
    entry per element of `urls`, in order, when it is an array without
    `null`s; a `TypeError` otherwise.
  */
  function ExtractUrls(entities: Option<Json>): (r: Result<seq<Url>, ConvertError>)
    ensures var urls := Get(entities, "urls");
            && ((urls.None? || urls == Some(JNull)) ==> r == Ok([]))
            && (r.Ok? && r.value != [] ==> urls.Some? && urls.value.JArr?)
            && (urls.Some? && urls.value.JArr? ==>
                 (r.Ok? <==> JNull !in urls.value.items) &&
                 (r.Ok? ==> |r.value| == |urls.value.items| &&
                            forall i :: 0 <= i < |r.value| ==> r.value[i] == UrlOf(urls.value.items[i])))
            && (urls.Some? && urls.value != JNull && !urls.value.JArr? ==> r == Err(NotAList("urls")))
  {
    match Get(entities, "urls")
    case None => Ok([])
    case Some(JNull) => Ok([])
    case Some(JArr(items)) =>
      if JNull in items then Err(NullEntry("urls"))
      else Ok(seq(|items|, i requires 0 <= i < |items| => UrlOf(items[i])))
    case Some(_) => Err(NotAList("urls"))
  }

  /** `extractUserData`: the user id from legacy data, else from the user record. */
  function ExtractUserData(tweet: Json): (user: UserData)
    requires tweet != JNull
    ensures var legacy := ExtractLegacyData(tweet);
            var userLegacy := Path(Some(tweet), ["core", "user_results", "result", "legacy"]);
            && (Truthy(Get(legacy, "user_id_str")) ==> user.userId == Get(legacy, "user_id_str"))
            && (!Truthy(Get(legacy, "user_id_str")) ==> user.userId == Get(userLegacy, "id_str"))
            && user.username == Get(userLegacy, "screen_name")
  {
    var userData := Path(Some(tweet), ["core", "user_results", "result", "legacy"]);
    var legacy := ExtractLegacyData(tweet);
    UserData(Or(Get(legacy, "user_id_str"), Get(userData, "id_str")),
             Get(userData, "screen_name"),
             Get(userData, "name"),
             Get(userData, "profile_image_url_https"))
  }

  /** How many quoted tweets are nested in a converted tweet. */
  function QuoteNesting(tw: Tweet): nat {
    match tw.quotedTweet
    case None => 0
    case Some(q) => 1 + QuoteNesting(q)
  }

  /** The measure that bounds the depth recursion. */
  function DepthMeasure(depth: int): nat {
    if depth <= 0 then 0 else depth
  }

  /**
    `extractQuotedTweet`: nothing once the depth is used up or when there is
    no quoted result; otherwise the quoted result converted one level down.
  */
  function ExtractQuotedTweet(tweet: Json, depth: int): (r: Result<Option<Tweet>, ConvertError>)
    ensures depth <= 0 ==> r == Ok(None)
    ensures r.Ok? && r.value.Some? ==> 1 + QuoteNesting(r.value.value) <= DepthMeasure(depth)
    decreases DepthMeasure(depth), 0
  {
    if depth <= 0 then Ok(None)
    else
      var quoted := QuotedResult(tweet);
      if !Truthy(quoted) then Ok(None)
      else
        var q :- ConvertTimelineTweetToTweet(quoted.value, depth - 1);
        Ok(Some(q))
  }

  /**
    `convertTimelineTweetToTweet(tweet, depth)`. The steps that can throw run
    in the TypeScript's order: legacy data, the quoted tweet, then photos,
    videos and urls in `BuildTweet`.
  */
  function ConvertTimelineTweetToTweet(tweet: Json, depth: int): (r: Result<Tweet, ConvertError>)
    ensures r.Ok? ==> QuoteNesting(r.value) <= DepthMeasure(depth)
    ensures r.Ok? && depth <= 0 ==> r.value.quotedTweet.None?
    decreases DepthMeasure(depth), 1
  {
    if tweet == JNull then Err(NullTweet)
    else
      var legacy := ExtractLegacyData(tweet);
      if legacy.None? then Err(NoLegacyData)
      else
        match ExtractQuotedTweet(tweet, depth)
        case Err(e) => Err(e)
        case Ok(quotedTweet) => BuildTweet(tweet, legacy.value, quotedTweet)
  }

  /** The object literal of `convertTimelineTweetToTweet`, given the legacy data and the converted quoted tweet. */
  function BuildTweet(tweet: Json, legacyData: Json, quotedTweet: Option<Tweet>): (r: Result<Tweet, ConvertError>)
    requires tweet != JNull
    ensures var media := MediaOf(Some(legacyData));
            var photos := ExtractPhotos(media);
            var videos := ExtractVideos(media);
            var urls := ExtractUrls(Get(Some(legacyData), "entities"));
            && (photos.Err? ==> r == Err(photos.error))
            && (videos.Ok? <==> photos.Ok?)
            && (photos.Ok? && videos.Ok? && urls.Err? ==> r == Err(urls.error))
            && (r.Ok? <==> photos.Ok? && videos.Ok? && urls.Ok?)
            && (r.Ok? ==> r.value.photos == photos.value && r.value.videos == videos.value && r.value.urls == urls.value)
    ensures r.Ok? ==> r.value.quotedTweet == quotedTweet
  {
    var t := Some(tweet);
    var legacy := Some(legacyData);
    var media := MediaOf(legacy);
    var user := ExtractUserData(tweet);
    match ExtractPhotos(media)
    case Err(e) => Err(e)
    case Ok(photos) =>
    match ExtractVideos(media)
    case Err(e) => Err(e)
    case Ok(videos) =>
    match ExtractUrls(Get(legacy, "entities"))
    case Err(e) => Err(e)
    case Ok(urls) =>
    Ok(Tweet(
      id := Or(Get(t, "rest_id"), Get(legacy, "id_str")),
      userId := user.userId,
      username := user.username,
      displayName := user.displayName,
      profileImageUrl := user.profileImageUrl,
      text := ExtractFullText(tweet),
      timeParsed := Get(legacy, "created_at"),
      hashtags := OrElse(Path(legacy, ["entities", "hashtags"]), JArr([])),
      mentions := OrElse(Path(legacy, ["entities", "user_mentions"]), JArr([])),
      photos := photos,
      videos := videos,
      urls := urls,
      thread := if Truthy(Get(t, "thread")) then Get(t, "thread") else None,
      quotedTweet := quotedTweet,
      conversationId := Get(legacy, "conversation_id_str"),
      inReplyToStatusId := Get(legacy, "in_reply_to_status_id_str"),
      replyCount := Get(legacy, "reply_count"),
      retweetCount := Get(legacy, "retweet_count"),
      likeCount := Get(legacy, "favorite_count"),
      viewCount := Path(t, ["views", "count"])))
  }

  /**
    A conversion needs legacy data: without it (and for a non-null tweet)
    it throws `convertTimelineTweetToTweet`'s own error, and every converted tweet had some.
  */
  lemma ConvertRequiresLegacy(tweet: Json, depth: int)
    ensures ConvertTimelineTweetToTweet(tweet, depth).Ok? ==> tweet != JNull && ExtractLegacyData(tweet).Some?
    ensures tweet != JNull && ExtractLegacyData(tweet).None? ==>
              ConvertTimelineTweetToTweet(tweet, depth) == Err(NoLegacyData)
  {
  }

  /** With the default depth, at most three levels of quoted tweets. */
  lemma DefaultQuoteNesting(tweet: Json)
    requires ConvertTimelineTweetToTweet(tweet, DefaultQuoteDepth).Ok?
    ensures QuoteNesting(ConvertTimelineTweetToTweet(tweet, DefaultQuoteDepth).value) <= 3
  {
  }

  /**
    Within the depth, a quoted result is converted one level down and becomes
    `quotedTweet`; when its conversion throws (say it has no legacy data), the
    whole conversion throws the same error.
  */
  lemma QuotedTweetConverted(tweet: Json, depth: int)
    requires tweet != JNull && ExtractLegacyData(tweet).Some?
    requires depth > 0 && Truthy(QuotedResult(tweet))
    ensures var nested := ConvertTimelineTweetToTweet(QuotedResult(tweet).value, depth - 1);
            && (nested.Err? ==> ConvertTimelineTweetToTweet(tweet, depth) == Err(nested.error))
            && (ConvertTimelineTweetToTweet(tweet, depth).Ok? ==>
                  ConvertTimelineTweetToTweet(tweet, depth).value.quotedTweet == Some(nested.value))
  {
  }

  /** A converted tweet has no quoted tweet exactly when the depth is used up or there is no quoted result. */
  lemma NoQuotedTweet(tweet: Json, depth: int)
    requires ConvertTimelineTweetToTweet(tweet, depth).Ok?
    ensures ConvertTimelineTweetToTweet(tweet, depth).value.quotedTweet.None? <==>
            depth <= 0 || !Truthy(QuotedResult(tweet))
  {
  }

  /**
    The converted tweet's media, identity and user id: photos and videos are
    the selected entries of the media list taken from `extended_entities`,
    else `entities`; `id` is `rest_id`, else `legacy.id_str`; `userId` is
    `legacy.user_id_str`, else the user record's `id_str`; `urls` are those
    extracted from `legacy.entities`.
  */
  lemma ConvertedFields(tweet: Json, depth: int)
    requires tweet != JNull
    requires ConvertTimelineTweetToTweet(tweet, depth).Ok?
    ensures var tw := ConvertTimelineTweetToTweet(tweet, depth).value;
            var legacy := ExtractLegacyData(tweet);
            var media := MediaOf(legacy);
            && legacy.Some?
            && media.JArr?
            && ExtractPhotos(media).Ok? && tw.photos == ExtractPhotos(media).value
            && ExtractVideos(media).Ok? && tw.videos == ExtractVideos(media).value
            && (Truthy(Get(Some(tweet), "rest_id")) ==> tw.id == Get(Some(tweet), "rest_id"))
            && (!Truthy(Get(Some(tweet), "rest_id")) ==> tw.id == Get(legacy, "id_str"))
            && tw.userId == ExtractUserData(tweet).userId
            && (Truthy(Get(legacy, "user_id_str")) ==> tw.userId == Get(legacy, "user_id_str"))
            && (!Truthy(Get(legacy, "user_id_str")) ==>
                  tw.userId == Get(Path(Some(tweet), ["core", "user_results", "result", "legacy"]), "id_str"))
            && tw.username == ExtractUserData(tweet).username
            && tw.urls == ExtractUrls(Get(legacy, "entities")).value
            && tw.text == ExtractFullText(tweet)
  {
  }
}
