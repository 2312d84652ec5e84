/** The three collectors of workflows/collectors.py and upsert_workflows. Every HTTP reply is an
    input: a value, or a function of the request it answers. Each collector is a loop method proved
    equal to a recursive specification function, and the properties are lemmas about that function. */
module Collectors {
  import opened Common
  import opened Models
  import opened Scores
  import opened Store

  // ---------------------------------------------------------------- YouTube

  const DefaultVideoKeywords: seq<string> := [
    "n8n workflow", "n8n automation", "n8n google sheets", "n8n slack",
    "n8n gmail", "n8n whatsapp", "n8n notion", "n8n airtable"
  ]
  const WatchUrl: string := "https://www.youtube.com/watch?v="

  /** One search hit: its `id` object may or may not carry a videoId. */
  datatype SearchItem = SearchItem(videoId: Option<string>)

  /** A statistics counter as the reply carries it. */
  datatype Count = Absent | Null | Num(n: int) | NotANumber

  datatype VideoItem = VideoItem(id: string, title: string,
                                 viewCount: Count, likeCount: Count, commentCount: Count)

  /** The search endpoint, by (keyword, region), and the statistics endpoint, by the keyword and
      region whose search produced the id list and by that list: each keyword's call is its own. */
  datatype VideoApi = VideoApi(search: (string, string) -> Fetch<seq<SearchItem>>,
                               statistics: (string, string, seq<string>) -> Fetch<seq<VideoItem>>)

  /** The keyword list given, or the defaults when none is. */
  function KeywordsOr(keywords: Option<seq<string>>, defaults: seq<string>): (kws: seq<string>)
  {
    if keywords.Some? then keywords.value else defaults
  }

  /** The ids of the search items that carry a videoId, in order. */
  function VideoIds(items: seq<SearchItem>): (ids: seq<string>)
  {
    if |items| == 0 then []
    else (if items[0].videoId.Some? then [items[0].videoId.value] else []) + VideoIds(items[1..])
  }

  lemma {:induction false} VideoIdsAppend(a: seq<SearchItem>, b: seq<SearchItem>)
    ensures VideoIds(a + b) == VideoIds(a) + VideoIds(b)
  {
    if |a| > 0 {
      assert (a + b)[0] == a[0] && (a + b)[1..] == a[1..] + b;
      VideoIdsAppend(a[1..], b);
    } else {
      assert a + b == b;
    }
  }

  lemma {:induction false} VideoIdsMembership(items: seq<SearchItem>, id: string)
    ensures id in VideoIds(items) <==> exists i :: 0 <= i < |items| && items[i].videoId == Some(id)
  {
    if |items| > 0 {
      VideoIdsMembership(items[1..], id);
      if id in VideoIds(items[1..]) {
        var i :| 0 <= i < |items[1..]| && items[1..][i].videoId == Some(id);
        assert items[i + 1].videoId == Some(id);
      }
      if exists i :: 0 <= i < |items| && items[i].videoId == Some(id) {
        var i :| 0 <= i < |items| && items[i].videoId == Some(id);
        if i > 0 { assert items[1..][i - 1] == items[i]; }
      }
    }
  }

  /** The view count: 0 when the counter is absent; a null or non-numeric counter raises. */
  function ViewCount(c: Count): (r: Result<int>)
  {
    match c
    case Absent => Ok(0)
    case Num(n) => Ok(n)
    case Null => Err(MalformedPayload)
    case NotANumber => Err(MalformedPayload)
  }

  /** The like or comment count: 0 when the counter is absent or null; a non-numeric one raises. */
  function EngagementCount(c: Count): (r: Result<int>)
  {
    match c
    case Absent => Ok(0)
    case Null => Ok(0)
    case Num(n) => Ok(n)
    case NotANumber => Err(MalformedPayload)
  }

  /** A count per view, or 0 when there are no views. */
  function Ratio(n: int, views: int): (ratio: real)
  {
    if views != 0 then n as real / views as real else 0.0
  }

  /** The record built for one statistics item found under keyword `kw`. */
  function VideoObservation(sqrt: SqrtFn, v: VideoItem, kw: string, country: string): (r: Result<Observation>)
  {
    var views :- ViewCount(v.viewCount);
    var likes :- EngagementCount(v.likeCount);
    var comments :- EngagementCount(v.commentCount);
    var metrics := VideoMetrics(views, likes, comments, Ratio(likes, views), Ratio(comments, views), kw);
    Ok(Observation(v.title, "YouTube", country, Some(WatchUrl + v.id), metrics,
                   YoutubeScore(sqrt, views, likes, comments)))
  }

  /** What every YouTube record satisfies: its labels, its link, a keyword it was found under,
      zero ratios without views, and a score that agrees with the ratios it stores. */
  ghost predicate IsVideoRecord(sqrt: SqrtFn, o: Observation, country: string, keywords: seq<string>)
  {
    && o.platform == "YouTube"
    && o.country == country
    && o.sourceUrl.Some? && WatchUrl <= o.sourceUrl.value
    && o.metrics.VideoMetrics?
    && o.metrics.keyword in keywords
    && (o.metrics.views == 0 ==>
          o.metrics.likeToViewRatio == 0.0 && o.metrics.commentToViewRatio == 0.0)
    && (o.metrics.views <= 0 ==> o.score == 0.0)
    && (o.metrics.views > 0 ==>
          o.score == sqrt(o.metrics.views as real)
                     * (1.0 + 3.0 * o.metrics.likeToViewRatio + 5.0 * o.metrics.commentToViewRatio))
  }

  /** A statistics item fails only on an unreadable counter; missing counters read as 0, readable
      ones are stored as read, the ratios are per view and the score is youtube_score of the counts. */
  lemma VideoObservationFields(sqrt: SqrtFn, v: VideoItem, kw: string, country: string)
    ensures VideoObservation(sqrt, v, kw, country).Err? <==>
              v.viewCount.Null? || v.viewCount.NotANumber?
              || v.likeCount.NotANumber? || v.commentCount.NotANumber?
    ensures VideoObservation(sqrt, v, kw, country).Ok? ==>
              var o := VideoObservation(sqrt, v, kw, country).value;
              && o.workflow == v.title
              && o.sourceUrl == Some(WatchUrl + v.id)
              && (v.viewCount.Absent? ==> o.metrics.views == 0)
              && (v.likeCount.Absent? || v.likeCount.Null? ==> o.metrics.likes == 0)
              && (v.commentCount.Absent? || v.commentCount.Null? ==> o.metrics.comments == 0)
              && (v.viewCount.Num? ==> o.metrics.views == v.viewCount.n)
              && (v.likeCount.Num? ==> o.metrics.likes == v.likeCount.n)
              && (v.commentCount.Num? ==> o.metrics.comments == v.commentCount.n)
              && o.metrics.likeToViewRatio == Ratio(o.metrics.likes, o.metrics.views)
              && o.metrics.commentToViewRatio == Ratio(o.metrics.comments, o.metrics.views)
              && o.metrics.keyword == kw
              && o.score == YoutubeScore(sqrt, o.metrics.views, o.metrics.likes, o.metrics.comments)
              && IsVideoRecord(sqrt, o, country, [kw])
  {
    var r := VideoObservation(sqrt, v, kw, country);
    if r.Ok? {
      var o := r.value;
      var m := o.metrics;
      assert WatchUrl <= WatchUrl + v.id;
      if m.views > 0 {
        var lr := m.likeToViewRatio;
        var cr := m.commentToViewRatio;
        assert m.likes as real == lr * m.views as real;
        assert m.comments as real == cr * m.views as real;
        YoutubeScoreAtRatios(sqrt, m.views, m.likes, m.comments, lr, cr);
      }
    }
  }

  /** The records of one statistics reply, in reply order; the first unreadable item raises. */
  function VideoObservations(sqrt: SqrtFn, vs: seq<VideoItem>, kw: string, country: string)
    : (r: Result<seq<Observation>>)
  {
    if |vs| == 0 then Ok([])
    else
      var o :- VideoObservation(sqrt, vs[0], kw, country);
      var rest :- VideoObservations(sqrt, vs[1..], kw, country);
      Ok([o] + rest)
  }

  /** One record per statistics item, in reply order, record j built from item j; the reply
      raises exactly when some item has an unreadable counter. */
  lemma {:induction false} VideoObservationsAt(sqrt: SqrtFn, vs: seq<VideoItem>, kw: string, country: string)
    ensures VideoObservations(sqrt, vs, kw, country).Ok?
            <==> forall j :: 0 <= j < |vs| ==> VideoObservation(sqrt, vs[j], kw, country).Ok?
    ensures VideoObservations(sqrt, vs, kw, country).Ok? ==>
              var rs := VideoObservations(sqrt, vs, kw, country).value;
              && |rs| == |vs|
              && forall j :: 0 <= j < |vs| ==> rs[j] == VideoObservation(sqrt, vs[j], kw, country).value
  {
    if |vs| > 0 {
      VideoObservationsAt(sqrt, vs[1..], kw, country);
      var r := VideoObservations(sqrt, vs, kw, country);
      if forall j :: 0 <= j < |vs| ==> VideoObservation(sqrt, vs[j], kw, country).Ok? {
        assert VideoObservation(sqrt, vs[0], kw, country).Ok?;
        forall j | 0 <= j < |vs[1..]| ensures VideoObservation(sqrt, vs[1..][j], kw, country).Ok? {
          assert vs[1..][j] == vs[j + 1];
        }
      }
      if r.Ok? {
        forall j | 0 <= j < |vs| ensures VideoObservation(sqrt, vs[j], kw, country).Ok? {
          if j > 0 { assert vs[1..][j - 1] == vs[j]; }
        }
        forall j | 0 < j < |vs|
          ensures r.value[j] == VideoObservation(sqrt, vs[j], kw, country).value
        {
          assert vs[1..][j - 1] == vs[j];
        }
      }
    }
  }

  /** A video with 1000 views, 50 likes and 10 comments is stored with ratios 0.05 and 0.01 and
      scores sqrt(1000) * 1.2. */
  lemma VideoObservationExample(sqrt: SqrtFn, id: string, title: string, kw: string, country: string)
    ensures var r := VideoObservation(sqrt, VideoItem(id, title, Num(1000), Num(50), Num(10)), kw, country);
            && r.Ok?
            && r.value.metrics == VideoMetrics(1000, 50, 10, 0.05, 0.01, kw)
            && r.value.score == sqrt(1000.0) * 1.2
  {
    YoutubeScoreExample(sqrt);
  }

  /** The records of one keyword: a search, then (when it found ids) one statistics call. */
  function KeywordObservations(api: VideoApi, sqrt: SqrtFn, kw: string, country: string)
    : (r: Result<seq<Observation>>)
  {
    match api.search(kw, country)
    case Failed => Err(RequestFailed)
    case Fetched(items) =>
      var ids := VideoIds(items);
      if |ids| == 0 then Ok([])
      else
        match api.statistics(kw, country, ids)
        case Failed => Err(RequestFailed)
        case Fetched(vs) => VideoObservations(sqrt, vs, kw, country)
  }

  /** collect_youtube_for_country: the records of every keyword, in keyword order; any failure raises. */
  function YouTubeObservations(api: VideoApi, sqrt: SqrtFn, kws: seq<string>, country: string)
    : (r: Result<seq<Observation>>)
  {
    if |kws| == 0 then Ok([])
    else
      var first :- KeywordObservations(api, sqrt, kws[0], country);
      var rest :- YouTubeObservations(api, sqrt, kws[1..], country);
      Ok(first + rest)
  }

  /** A keyword whose search finds no video id adds nothing, and the next keyword still runs. */
  lemma YouTubeSkipsKeywordWithoutIds(api: VideoApi, sqrt: SqrtFn, kws: seq<string>, country: string)
    requires |kws| > 0
    requires api.search(kws[0], country).Fetched?
    requires VideoIds(api.search(kws[0], country).body) == []
    ensures YouTubeObservations(api, sqrt, kws, country) == YouTubeObservations(api, sqrt, kws[1..], country)
  {
    assert KeywordObservations(api, sqrt, kws[0], country) == Ok([]);
    ChainNothing(YouTubeObservations(api, sqrt, kws[1..], country));
  }

  lemma {:induction false} VideoObservationsShape(sqrt: SqrtFn, vs: seq<VideoItem>, kw: string,
                                                  country: string, kws: seq<string>)
    requires kw in kws
    requires VideoObservations(sqrt, vs, kw, country).Ok?
    ensures |VideoObservations(sqrt, vs, kw, country).value| == |vs|
    ensures forall o :: o in VideoObservations(sqrt, vs, kw, country).value ==>
              IsVideoRecord(sqrt, o, country, kws)
  {
    if |vs| > 0 {
      VideoObservationFields(sqrt, vs[0], kw, country);
      VideoObservationsShape(sqrt, vs[1..], kw, country, kws);
    }
  }

  /** Every record of a successful YouTube collection has the YouTube record shape. */
  lemma {:induction false} YouTubeShape(api: VideoApi, sqrt: SqrtFn, kws: seq<string>, country: string)
    requires YouTubeObservations(api, sqrt, kws, country).Ok?
    ensures forall o :: o in YouTubeObservations(api, sqrt, kws, country).value ==>
              IsVideoRecord(sqrt, o, country, kws)
  {
    if |kws| > 0 {
      YouTubeShape(api, sqrt, kws[1..], country);
      var first := KeywordObservations(api, sqrt, kws[0], country);
      var search := api.search(kws[0], country);
      if |VideoIds(search.body)| > 0 {
        VideoObservationsShape(sqrt, api.statistics(kws[0], country, VideoIds(search.body)).body, kws[0], country, kws);
      }
      forall o | o in YouTubeObservations(api, sqrt, kws[1..], country).value
        ensures IsVideoRecord(sqrt, o, country, kws)
      {
        assert IsVideoRecord(sqrt, o, country, kws[1..]);
        assert o.metrics.keyword in kws[1..];
      }
    }
  }

  /** One keyword of the loop: its records go after `acc`, or its fault ends the collection. */
  lemma YouTubeStep(api: VideoApi, sqrt: SqrtFn, kws: seq<string>, i: nat, country: string,
                    acc: seq<Observation>)
    requires i < |kws|
    ensures var first := KeywordObservations(api, sqrt, kws[i], country);
            && (first.Err? ==> Chain(acc, YouTubeObservations(api, sqrt, kws[i..], country)) == Err(first.fault))
            && (first.Ok? ==> Chain(acc, YouTubeObservations(api, sqrt, kws[i..], country))
                              == Chain(acc + first.value, YouTubeObservations(api, sqrt, kws[i + 1..], country)))
  {
    assert kws[i..][0] == kws[i] && kws[i..][1..] == kws[i + 1..];
    var first := KeywordObservations(api, sqrt, kws[i], country);
    if first.Ok? {
      ChainAssociates(acc, first.value, YouTubeObservations(api, sqrt, kws[i + 1..], country));
    }
  }

  /** A keyword whose search and statistics calls succeed emits its records ahead of the later
      keywords' records. */
  lemma YouTubeEmits(api: VideoApi, sqrt: SqrtFn, kw: string, rest: seq<string>, country: string)
    requires KeywordObservations(api, sqrt, kw, country).Ok?
    ensures YouTubeObservations(api, sqrt, [kw] + rest, country)
            == Chain(KeywordObservations(api, sqrt, kw, country).value, YouTubeObservations(api, sqrt, rest, country))
  {
    var kws := [kw] + rest;
    YouTubeStep(api, sqrt, kws, 0, country, []);
    assert kws[0..] == kws && kws[0] == kw && kws[1..] == rest;
    ChainNothing(YouTubeObservations(api, sqrt, kws, country));
    assert [] + KeywordObservations(api, sqrt, kw, country).value == KeywordObservations(api, sqrt, kw, country).value;
  }

  /** One statistics item of the inner loop: its record goes after `acc`, or its fault ends it. */
  lemma VideoStep(sqrt: SqrtFn, vs: seq<VideoItem>, j: nat, kw: string, country: string,
                  acc: seq<Observation>)
    requires j < |vs|
    ensures var o := VideoObservation(sqrt, vs[j], kw, country);
            && (o.Err? ==> Chain(acc, VideoObservations(sqrt, vs[j..], kw, country)) == Err(o.fault))
            && (o.Ok? ==> Chain(acc, VideoObservations(sqrt, vs[j..], kw, country))
                          == Chain(acc + [o.value], VideoObservations(sqrt, vs[j + 1..], kw, country)))
  {
    assert vs[j..][0] == vs[j] && vs[j..][1..] == vs[j + 1..];
    var o := VideoObservation(sqrt, vs[j], kw, country);
    if o.Ok? {
      ChainAssociates(acc, [o.value], VideoObservations(sqrt, vs[j + 1..], kw, country));
    }
  }

  method CollectYouTubeForCountry(api: VideoApi, sqrt: SqrtFn, country: string,
                                  keywords: Option<seq<string>>)
    returns (r: Result<seq<Observation>>)
    ensures r == YouTubeObservations(api, sqrt, KeywordsOr(keywords, DefaultVideoKeywords), country)
  {
    var kws := KeywordsOr(keywords, DefaultVideoKeywords);
    var results: seq<Observation> := [];
    var i := 0;
    assert kws[0..] == kws;
    ChainNothing(YouTubeObservations(api, sqrt, kws, country));
    while i < |kws|
      invariant 0 <= i <= |kws|
      invariant Chain(results, YouTubeObservations(api, sqrt, kws[i..], country))
                == YouTubeObservations(api, sqrt, kws, country)
    {
      var kw := kws[i];
      YouTubeStep(api, sqrt, kws, i, country, results);
      var search := api.search(kw, country);
      if search.Failed? {
        return Err(RequestFailed);
      }
      var ids := VideoIds(search.body);
      if |ids| == 0 {
        assert results + [] == results;
        i := i + 1;
        continue;
      }
      var stats := api.statistics(kw, country, ids);
      if stats.Failed? {
        return Err(RequestFailed);
      }
      var vs := stats.body;
      assert KeywordObservations(api, sqrt, kw, country) == VideoObservations(sqrt, vs, kw, country);
      ghost var base := results;
      var j := 0;
      assert vs[0..] == vs;
      while j < |vs|
        invariant 0 <= j <= |vs|
        invariant Chain(results, VideoObservations(sqrt, vs[j..], kw, country))
                  == Chain(base, VideoObservations(sqrt, vs, kw, country))
      {
        VideoStep(sqrt, vs, j, kw, country, results);
        var o := VideoObservation(sqrt, vs[j], kw, country);
        if o.Err? {
          return Err(o.fault);
        }
        results := results + [o.value];
        j := j + 1;
      }
      assert vs[j..] == [];
      assert results + [] == results;
      i := i + 1;
    }
    assert kws[i..] == [];
    assert results + [] == results;
    return Ok(results);
  }

  // ---------------------------------------------------------------- Forum

  const ForumBase: string := "https://community.n8n.io"
  const DefaultForumLimit: int := 80

  /** One topic of the latest-topics listing; absent counters are None. */
  datatype Topic = Topic(id: string, title: string,
                         views: Option<int>, replyCount: Option<int>, likeCount: Option<int>)

  datatype DetailBody = NotJson | Json(participants: Option<nat>)

  /** The reply to a topic-detail request: the request raised, or a status and a body. */
  datatype DetailReply = Raised | Reply(status: int, body: DetailBody)

  /** The listing reply of this call, and the detail endpoint by topic id. */
  datatype ForumApi = ForumApi(latest: Fetch<seq<Topic>>, detail: string -> DetailReply)

  function OrZero(x: Option<int>): (n: int)
  {
    if x.Some? then x.value else 0
  }

  /** The length of Python's s[:stop] for a list of length n. */
  function SliceLength(n: nat, stop: int): (len: nat)
    ensures len <= n
  {
    if stop >= 0 then Min(stop, n) else Max(n + stop, 0)
  }

  /** The contributor count: the participants listed when the detail reply is 200, 1 otherwise. */
  function Contributors(reply: DetailReply): (r: Result<int>)
  {
    match reply
    case Raised => Err(RequestFailed)
    case Reply(status, body) =>
      if status == 200 then
        match body
        case NotJson => Err(MalformedPayload)
        case Json(participants) => Ok(if participants.Some? then participants.value else 0)
      else Ok(1)
  }

  /** The record of one topic; absent counters read as 0. */
  function ForumObservation(sqrt: SqrtFn, t: Topic, contributors: int, country: string): (o: Observation)
  {
    var views, replies, likes := OrZero(t.views), OrZero(t.replyCount), OrZero(t.likeCount);
    Observation(t.title, "Forum", country, Some(ForumBase + "/t/" + t.id),
                ForumMetrics(views, replies, likes, contributors),
                ForumScore(sqrt, replies, likes, contributors, views))
  }

  function ForumObservations(api: ForumApi, sqrt: SqrtFn, topics: seq<Topic>, country: string)
    : (r: Result<seq<Observation>>)
  {
    if |topics| == 0 then Ok([])
    else
      var contributors :- Contributors(api.detail(topics[0].id));
      var rest :- ForumObservations(api, sqrt, topics[1..], country);
      Ok([ForumObservation(sqrt, topics[0], contributors, country)] + rest)
  }

  /** collect_forum: one listing page cut to `limit` topics, then one record per topic. */
  function ForumSpec(api: ForumApi, sqrt: SqrtFn, country: string, limit: int): (r: Result<seq<Observation>>)
  {
    match api.latest
    case Failed => Err(RequestFailed)
    case Fetched(topics) => ForumObservations(api, sqrt, topics[..SliceLength(|topics|, limit)], country)
  }

  /** One record per topic, in listing order, with the contributor rule; the call raises exactly
      when some detail request raises or returns an undecodable 200 reply. */
  lemma {:induction false} ForumObservationsAt(api: ForumApi, sqrt: SqrtFn, topics: seq<Topic>, country: string)
    ensures ForumObservations(api, sqrt, topics, country).Ok?
            <==> forall i :: 0 <= i < |topics| ==> Contributors(api.detail(topics[i].id)).Ok?
    ensures ForumObservations(api, sqrt, topics, country).Ok? ==>
              var rs := ForumObservations(api, sqrt, topics, country).value;
              && |rs| == |topics|
              && forall i :: 0 <= i < |topics| ==>
                   rs[i] == ForumObservation(sqrt, topics[i], Contributors(api.detail(topics[i].id)).value, country)
  {
    if |topics| > 0 {
      ForumObservationsAt(api, sqrt, topics[1..], country);
      var r := ForumObservations(api, sqrt, topics, country);
      if forall i :: 0 <= i < |topics| ==> Contributors(api.detail(topics[i].id)).Ok? {
        assert Contributors(api.detail(topics[0].id)).Ok?;
        forall i | 0 <= i < |topics[1..]| ensures Contributors(api.detail(topics[1..][i].id)).Ok? {
          assert topics[1..][i] == topics[i + 1];
        }
      }
      if r.Ok? {
        forall i | 0 <= i < |topics| ensures Contributors(api.detail(topics[i].id)).Ok? {
          if i > 0 { assert topics[1..][i - 1] == topics[i]; }
        }
        forall i | 0 < i < |topics|
          ensures r.value[i] == ForumObservation(sqrt, topics[i], Contributors(api.detail(topics[i].id)).value, country)
        {
          assert topics[1..][i - 1] == topics[i];
        }
      }
    }
  }

  /** The first min(limit, len) topics of the listing are scored, record i from listing topic i. */
  lemma ForumLimit(api: ForumApi, sqrt: SqrtFn, country: string, limit: int)
    requires limit >= 0
    requires ForumSpec(api, sqrt, country, limit).Ok?
    ensures |ForumSpec(api, sqrt, country, limit).value| <= limit
    ensures |api.latest.body| <= limit ==> |ForumSpec(api, sqrt, country, limit).value| == |api.latest.body|
    ensures var r := ForumSpec(api, sqrt, country, limit).value;
            var topics := api.latest.body;
            && |r| == Min(limit, |topics|)
            && forall i :: 0 <= i < |r| ==>
                 && Contributors(api.detail(topics[i].id)).Ok?
                 && r[i] == ForumObservation(sqrt, topics[i], Contributors(api.detail(topics[i].id)).value, country)
  {
    var topics := api.latest.body;
    var cut := topics[..SliceLength(|topics|, limit)];
    ForumObservationsAt(api, sqrt, cut, country);
    forall i | 0 <= i < |cut| ensures cut[i] == topics[i] { }
  }

  /** A topic's record: its title, the Forum label, the country and the topic's URL; absent counters
      read as 0 and present ones are stored as read; the score is forum_score of the stored counts. */
  lemma ForumObservationFields(sqrt: SqrtFn, t: Topic, contributors: int, country: string)
    ensures var o := ForumObservation(sqrt, t, contributors, country);
            && o.workflow == t.title && o.platform == "Forum" && o.country == country
            && o.sourceUrl == Some(ForumBase + "/t/" + t.id)
            && o.metrics.ForumMetrics?
            && (t.views.None? ==> o.metrics.views == 0)
            && (t.replyCount.None? ==> o.metrics.replies == 0)
            && (t.likeCount.None? ==> o.metrics.likes == 0)
            && (t.views.Some? ==> o.metrics.views == t.views.value)
            && (t.replyCount.Some? ==> o.metrics.replies == t.replyCount.value)
            && (t.likeCount.Some? ==> o.metrics.likes == t.likeCount.value)
            && o.metrics.contributors == contributors
            && o.score == ForumScore(sqrt, o.metrics.replies, o.metrics.likes, o.metrics.contributors, o.metrics.views)
  {
  }

  /** The contributor rule: a 200 reply counts its participants (none listed: 0), any other status 1. */
  lemma ContributorsRule(reply: DetailReply)
    ensures reply.Reply? && reply.status != 200 ==> Contributors(reply) == Ok(1)
    ensures reply.Reply? && reply.status == 200 && reply.body.Json? && reply.body.participants.Some?
            ==> Contributors(reply) == Ok(reply.body.participants.value)
    ensures Contributors(reply).Err? <==> reply.Raised? || (reply.status == 200 && reply.body.NotJson?)
  {
  }

  method CollectForum(api: ForumApi, sqrt: SqrtFn, country: string, limit: int)
    returns (r: Result<seq<Observation>>)
    ensures r == ForumSpec(api, sqrt, country, limit)
  {
    if api.latest.Failed? {
      return Err(RequestFailed);
    }
    var all := api.latest.body;
    var topics := all[..SliceLength(|all|, limit)];
    var results: seq<Observation> := [];
    var i := 0;
    assert topics[0..] == topics;
    ChainNothing(ForumObservations(api, sqrt, topics, country));
    while i < |topics|
      invariant 0 <= i <= |topics|
      invariant Chain(results, ForumObservations(api, sqrt, topics[i..], country))
                == ForumObservations(api, sqrt, topics, country)
    {
      var t := topics[i];
      assert topics[i..][0] == t && topics[i..][1..] == topics[i + 1..];
      var contributors := Contributors(api.detail(t.id));
      if contributors.Err? {
        return Err(contributors.fault);
      }
      var o := ForumObservation(sqrt, t, contributors.value, country);
      ChainAssociates(results, [o], ForumObservations(api, sqrt, topics[i + 1..], country));
      results := results + [o];
      i := i + 1;
    }
    assert topics[i..] == [];
    assert results + [] == results;
    return Ok(results);
  }

  // ---------------------------------------------------------------- Google Trends

  const DefaultTrendKeywords: seq<string> := [
    "n8n slack integration", "n8n google sheets", "n8n gmail automation",
    "n8n whatsapp", "n8n airtable", "n8n notion"
  ]
  const TrendsUrl: string := "https://trends.google.com"

  /** Whether the client can be built, and the interest-over-time series by (keyword, geo);
      Failed stands for any exception raised while fetching or reading that series. */
  datatype TrendsApi = TrendsApi(clientFails: bool,
                                 interestOverTime: (string, string) -> Fetch<seq<int>>)

  function Geo(country: string): (geo: string)
    ensures geo == "US" <==> country == "US"
    ensures geo == "US" || geo == "IN"
  {
    if country == "US" then "US" else "IN"
  }

  /** The sample n places from the end with n = min(len, 30), or the last sample when n <= 1. */
  function ReferenceSample(series: seq<int>): (reference: int)
    requires |series| > 0
  {
    var n := Min(|series|, 30);
    if n > 1 then series[|series| - n] else series[|series| - 1]
  }

  /** The percent change from the reference sample to the last one; 0 for a zero reference. */
  function ChangePct(series: seq<int>): (change: real)
    requires |series| > 0
  {
    var interest := series[|series| - 1];
    var reference := ReferenceSample(series);
    if reference != 0 then (interest - reference) as real / reference as real * 100.0 else 0.0
  }

  /** The record of one keyword whose series is not empty. */
  function TrendObservation(kw: string, country: string, series: seq<int>): (o: Observation)
    requires |series| > 0
  {
    var interest := series[|series| - 1];
    var change := ChangePct(series);
    Observation(kw, "GoogleTrends", country, Some(TrendsUrl),
                TrendsMetrics(interest, change), TrendsScore(interest, change))
  }

  /** The records of the keywords in order; a failing keyword or an empty series adds none. */
  function TrendsObservations(api: TrendsApi, kws: seq<string>, geo: string, country: string)
    : (rs: seq<Observation>)
  {
    if |kws| == 0 then []
    else
      var rest := TrendsObservations(api, kws[1..], geo, country);
      match api.interestOverTime(kws[0], geo)
      case Failed => rest
      case Fetched(series) => if |series| == 0 then rest else [TrendObservation(kws[0], country, series)] + rest
  }

  /** collect_trends: only a client that cannot be built makes the call raise. */
  function TrendsSpec(api: TrendsApi, country: string, kws: seq<string>): (r: Result<seq<Observation>>)
  {
    if api.clientFails then Err(ClientFailed)
    else Ok(TrendsObservations(api, kws, Geo(country), country))
  }

  /** The reference is the sample at len - min(len, 30) whatever the length. */
  lemma ReferenceAt(series: seq<int>)
    requires |series| > 0
    ensures ReferenceSample(series) == series[|series| - Min(|series|, 30)]
    ensures |series| <= 30 ==> ReferenceSample(series) == series[0]
  {
  }

  /** A single sample has no change; neither has a zero reference. */
  lemma ChangePctGuards(series: seq<int>)
    requires |series| > 0
    ensures |series| == 1 ==> ChangePct(series) == 0.0
    ensures ReferenceSample(series) == 0 ==> ChangePct(series) == 0.0
  {
  }

  /** A trends record is named by its keyword and stores the last sample as its interest and the
      guarded change from the reference sample. */
  lemma TrendObservationFields(kw: string, country: string, series: seq<int>)
    requires |series| > 0
    ensures var o := TrendObservation(kw, country, series);
            && o.workflow == kw && o.platform == "GoogleTrends" && o.country == country
            && o.sourceUrl == Some(TrendsUrl)
            && o.metrics == TrendsMetrics(series[|series| - 1], ChangePct(series))
            && (|series| == 1 ==> o.metrics.changePct == 0.0)
            && (ReferenceSample(series) == 0 ==> o.metrics.changePct == 0.0)
  {
    ChangePctGuards(series);
  }

  /** A trends record scores the last sample squared over a non-zero reference, and the last
      sample itself when the change is zero. */
  lemma TrendObservationScore(kw: string, country: string, series: seq<int>)
    requires |series| > 0
    ensures var o := TrendObservation(kw, country, series);
            var interest := series[|series| - 1];
            && (ReferenceSample(series) != 0 ==>
                  o.score == (interest as real * interest as real) / ReferenceSample(series) as real)
            && (ReferenceSample(series) == 0 ==> o.score == interest as real)
  {
    var interest := series[|series| - 1];
    var reference := ReferenceSample(series);
    if reference != 0 {
      TrendsScoreOverReference(interest, reference);
    }
  }

  lemma {:induction false} TrendsAppend(api: TrendsApi, a: seq<string>, b: seq<string>, geo: string, country: string)
    ensures TrendsObservations(api, a + b, geo, country)
            == TrendsObservations(api, a, geo, country) + TrendsObservations(api, b, geo, country)
  {
    if |a| > 0 {
      assert (a + b)[0] == a[0] && (a + b)[1..] == a[1..] + b;
      TrendsAppend(api, a[1..], b, geo, country);
    } else {
      assert a + b == b;
    }
  }

  /** A keyword that raises or has an empty series is skipped; the others are unaffected. */
  lemma TrendsSkipsKeyword(api: TrendsApi, kw: string, rest: seq<string>, geo: string, country: string)
    requires api.interestOverTime(kw, geo).Failed? || api.interestOverTime(kw, geo).body == []
    ensures TrendsObservations(api, [kw] + rest, geo, country) == TrendsObservations(api, rest, geo, country)
  {
    assert ([kw] + rest)[0] == kw && ([kw] + rest)[1..] == rest;
  }

  /** A keyword whose series is fetched and not empty emits its record ahead of the others'. */
  lemma TrendsEmits(api: TrendsApi, kw: string, rest: seq<string>, geo: string, country: string)
    requires api.interestOverTime(kw, geo).Fetched? && |api.interestOverTime(kw, geo).body| > 0
    ensures TrendsObservations(api, [kw] + rest, geo, country)
            == [TrendObservation(kw, country, api.interestOverTime(kw, geo).body)]
               + TrendsObservations(api, rest, geo, country)
  {
    assert ([kw] + rest)[0] == kw && ([kw] + rest)[1..] == rest;
  }

  /** At most one record per keyword, each labelled with its keyword, the platform and the country. */
  lemma {:induction false} TrendsShape(api: TrendsApi, kws: seq<string>, geo: string, country: string)
    ensures |TrendsObservations(api, kws, geo, country)| <= |kws|
    ensures forall o :: o in TrendsObservations(api, kws, geo, country) ==>
              o.workflow in kws && o.platform == "GoogleTrends" && o.country == country
              && o.sourceUrl == Some(TrendsUrl) && o.metrics.TrendsMetrics?
  {
    if |kws| > 0 {
      TrendsShape(api, kws[1..], geo, country);
    }
  }

  method CollectTrends(api: TrendsApi, country: string, keywords: Option<seq<string>>)
    returns (r: Result<seq<Observation>>)
    ensures r == TrendsSpec(api, country, KeywordsOr(keywords, DefaultTrendKeywords))
  {
    var kws := KeywordsOr(keywords, DefaultTrendKeywords);
    var geo := Geo(country);
    if api.clientFails {
      return Err(ClientFailed);
    }
    var results: seq<Observation> := [];
    var i := 0;
    assert kws[0..] == kws;
    while i < |kws|
      invariant 0 <= i <= |kws|
      invariant results + TrendsObservations(api, kws[i..], geo, country)
                == TrendsObservations(api, kws, geo, country)
    {
      var kw := kws[i];
      assert kws[i..][0] == kw && kws[i..][1..] == kws[i + 1..];
      var reply := api.interestOverTime(kw, geo);
      if reply.Failed? || |reply.body| == 0 {
        i := i + 1;
        continue;
      }
      results := results + [TrendObservation(kw, country, reply.body)];
      i := i + 1;
    }
    assert kws[i..] == [];
    assert results + [] == results;
    return Ok(results);
  }

  // ---------------------------------------------------------------- upsert_workflows

  /** upsert_workflows: update_or_create of each item inside one transaction. When the database
      refuses an item the transaction rolls back and the table is as before. */
  method UpsertWorkflows(table: WorkflowTable, items: seq<Observation>,
                         rejects: Observation -> bool, now: int)
    returns (r: Result<()>)
    requires table.Valid()
    modifies table
    ensures table.Valid()
    ensures r.Ok? <==> FirstRejected(items, rejects) == |items|
    ensures r.Ok? ==> table.rows == Upserted(old(table.rows), items, now)
    ensures r.Err? ==> r.fault == StorageFailed && table.rows == old(table.rows)
  {
    var saved := table.rows;
    var i := 0;
    while i < |items|
      invariant 0 <= i <= |items|
      invariant table.Valid()
      invariant Keyed(saved)
      invariant forall k :: 0 <= k < i ==> !rejects(items[k])
      invariant table.rows == Upserted(saved, items[..i], now)
    {
      var it := items[i];
      if rejects(it) {
        table.rows := saved;
        return Err(StorageFailed);
      }
      var _ := table.UpdateOrCreate(KeyOf(it), it.sourceUrl, it.metrics, it.score, now);
      assert items[..i + 1][..i] == items[..i];
      i := i + 1;
    }
    assert items[..i] == items;
    return Ok(());
  }
}
