/** The Workflow table row (workflows/models.py) and the item dictionaries the collectors produce. */
module Models {
  import opened Common

  /** The unique_together triple that identifies a row. */
  datatype Key = Key(workflow: string, platform: string, country: string)

  /** The popularity_metrics object, one variant per collector. */
  datatype Metrics =
    | VideoMetrics(views: int, likes: int, comments: int,
                   likeToViewRatio: real, commentToViewRatio: real, keyword: string)
    | ForumMetrics(views: int, replies: int, likes: int, contributors: int)
    | TrendsMetrics(interest: int, changePct: real)

  /** One stored row; `lastSeen` is the instant of the save that wrote it. */
  datatype Workflow = Workflow(key: Key, sourceUrl: Option<string>, metrics: Metrics,
                               score: real, lastSeen: int)

  /** One observation dictionary as a collector returns it. */
  datatype Observation = Observation(workflow: string, platform: string, country: string,
                                     sourceUrl: Option<string>, metrics: Metrics, score: real)

  function KeyOf(o: Observation): (k: Key)
  {
    Key(o.workflow, o.platform, o.country)
  }

  /** A row created from the fields given; an omitted popularity_score takes the field default 0
      and last_seen is set by auto_now to the instant of the save. */
  function NewWorkflow(key: Key, metrics: Metrics, sourceUrl: Option<string>,
                       score: Option<real>, now: int): (w: Workflow)
  {
    Workflow(key, sourceUrl, metrics, if score.Some? then score.value else 0.0, now)
  }

  lemma OmittedScoreIsZero(key: Key, metrics: Metrics, sourceUrl: Option<string>, now: int)
    ensures NewWorkflow(key, metrics, sourceUrl, None, now).score == 0.0
    ensures NewWorkflow(key, metrics, None, None, now).sourceUrl == None
    ensures NewWorkflow(key, metrics, sourceUrl, None, now).lastSeen == now
  {
  }

  /** Workflow.__str__: "workflow (platform/country)". */
  function Display(k: Key): (s: string)
  {
    k.workflow + " (" + k.platform + "/" + k.country + ")"
  }

  /** The index of the last `c` in `s`, or -1. */
  function LastIndexOf(s: string, c: char): (r: int)
    ensures -1 <= r < |s|
    ensures r >= 0 ==> s[r] == c
    ensures forall i :: r < i < |s| ==> s[i] != c
  {
    if |s| == 0 then -1
    else if s[|s| - 1] == c then |s| - 1
    else LastIndexOf(s[..|s| - 1], c)
  }

  /** Reads a key back from its display string, splitting at the last '/' and the last '(' before it. */
  function ParseDisplay(s: string): (k: Option<Key>)
  {
    if |s| < 4 || s[|s| - 1] != ')' then None
    else
      var slash := LastIndexOf(s[..|s| - 1], '/');
      if slash < 0 then None
      else
        var open := LastIndexOf(s[..slash], '(');
        if open < 1 || s[open - 1] != ' ' then None
        else Some(Key(s[..open - 1], s[open + 1..slash], s[slash + 1..|s| - 1]))
  }

  /** The display string determines the key whenever the country holds no '/' and the platform no '(';
      every platform and country the collectors write qualifies. */
  lemma DisplayRoundTrip(k: Key)
    requires '/' !in k.country && '(' !in k.platform
    ensures ParseDisplay(Display(k)) == Some(k)
  {
    var s := Display(k);
    var w, p, c := |k.workflow|, |k.platform|, |k.country|;
    assert |s| == w + p + c + 4;
    assert s[w] == ' ' && s[w + 1] == '(' && s[w + 2 + p] == '/' && s[|s| - 1] == ')';
    assert s[w + 2..w + 2 + p] == k.platform;
    assert s[w + 3 + p..|s| - 1] == k.country;
    assert s[..w] == k.workflow;
    var t := s[..|s| - 1];
    var slash := LastIndexOf(t, '/');
    assert t[w + 2 + p] == '/';
    forall i | w + 2 + p < i < |t| ensures t[i] != '/' {
      assert t[i] == k.country[i - (w + 3 + p)];
    }
    assert slash == w + 2 + p;
    var u := s[..slash];
    var open := LastIndexOf(u, '(');
    assert u[w + 1] == '(';
    forall i | w + 1 < i < |u| ensures u[i] != '(' {
      assert u[i] == k.platform[i - (w + 2)];
    }
    assert open == w + 1;
  }

  /** Two keys whose display strings coincide are the same key (under the same conditions). */
  lemma DisplayInjective(k1: Key, k2: Key)
    requires '/' !in k1.country && '(' !in k1.platform
    requires '/' !in k2.country && '(' !in k2.platform
    requires Display(k1) == Display(k2)
    ensures k1 == k2
  {
    DisplayRoundTrip(k1);
    DisplayRoundTrip(k2);
  }
}
