/** The fetch_workflows management command (Command.handle): collect for US then IN, each country
    YouTube, then Forum, then Trends, and then write every collected item with update_or_create,
    one item at a time and outside any transaction. */
module FetchWorkflows {
  import opened Common
  import opened Models
  import opened Scores
  import opened Store
  import opened Collectors

  const Countries: seq<string> := ["US", "IN"]

  /** Everything the collectors read from outside: math.sqrt and the replies of the three APIs.
      The forum listing is fetched anew and the trends client built anew for each country. */
  datatype Sources = Sources(sqrt: SqrtFn, video: VideoApi, forum: string -> ForumApi,
                             trends: string -> TrendsApi)

  /** yt + fr + tr for one country, with the collectors' default arguments. */
  function CountryItems(src: Sources, country: string): (r: Result<seq<Observation>>)
  {
    var yt :- YouTubeObservations(src.video, src.sqrt, DefaultVideoKeywords, country);
    var fr :- ForumSpec(src.forum(country), src.sqrt, country, DefaultForumLimit);
    var tr :- TrendsSpec(src.trends(country), country, DefaultTrendKeywords);
    Ok(yt + fr + tr)
  }

  /** all_items: the countries' items concatenated in country order; a raising collector aborts. */
  function AllItems(src: Sources, countries: seq<string>): (r: Result<seq<Observation>>)
  {
    if |countries| == 0 then Ok([])
    else
      var first :- CountryItems(src, countries[0]);
      var rest :- AllItems(src, countries[1..]);
      Ok(first + rest)
  }

  /** The run's batch is US YouTube, US Forum, US Trends, IN YouTube, IN Forum, IN Trends; if any
      of the six collections raises, the run collects nothing. */
  lemma AllItemsOrder(src: Sources)
    ensures var us := CountryItems(src, "US");
            var india := CountryItems(src, "IN");
            AllItems(src, Countries) == if us.Err? then us else if india.Err? then india
                                        else Ok(us.value + india.value)
    ensures forall c :: CountryItems(src, c).Ok? <==>
              && YouTubeObservations(src.video, src.sqrt, DefaultVideoKeywords, c).Ok?
              && ForumSpec(src.forum(c), src.sqrt, c, DefaultForumLimit).Ok?
              && TrendsSpec(src.trends(c), c, DefaultTrendKeywords).Ok?
  {
    assert Countries[1..] == ["IN"] && Countries[1..][1..] == [];
    var india := CountryItems(src, "IN");
    assert AllItems(src, Countries[1..][1..]) == Ok([]);
    if india.Ok? {
      assert india.value + [] == india.value;
      assert AllItems(src, Countries[1..]) == india;
    } else {
      assert AllItems(src, Countries[1..]) == india;
    }
  }

  /** What the storage loop leaves behind after a run whose batch was `items`: every key of the
      batch holds its last item, stamped with the run's instant; every other row is untouched. */
  lemma StoredAfterRun(rows: Rows, items: seq<Observation>, now: int, k: Key)
    ensures k in KeysOf(items) ==>
              exists j :: 0 <= j < |items| && KeyOf(items[j]) == k
                && (forall i :: j < i < |items| ==> KeyOf(items[i]) != k)
                && k in Upserted(rows, items, now)
                && Upserted(rows, items, now)[k] == RowOf(items[j], now)
                && Upserted(rows, items, now)[k].lastSeen == now
    ensures k !in KeysOf(items) ==>
              (k in Upserted(rows, items, now) <==> k in rows)
              && (k in rows ==> Upserted(rows, items, now)[k] == rows[k])
  {
    if k in KeysOf(items) {
      var j := LastWith(items, k);
      UpsertedLastWins(rows, items, now, j);
    } else {
      UpsertedUntouched(rows, items, now, k);
    }
  }

  /** The index of the last item with key `k`. */
  function LastWith(items: seq<Observation>, k: Key): (j: nat)
    requires k in KeysOf(items)
    ensures j < |items| && KeyOf(items[j]) == k
    ensures forall i :: j < i < |items| ==> KeyOf(items[i]) != k
  {
    if KeyOf(items[|items| - 1]) == k then |items| - 1
    else
      var init := items[..|items| - 1];
      assert k in KeysOf(init) by {
        var i :| 0 <= i < |items| && KeyOf(items[i]) == k;
        assert init[i] == items[i];
      }
      var j := LastWith(init, k);
      assert init[j] == items[j];
      j
  }

  /** The reported count is len(all_items), while the rows a batch writes into an empty table are
      its distinct keys; so the count exceeds the rows written whenever a key repeats. */
  lemma CountCanExceedRows(items: seq<Observation>, now: int)
    ensures |Upserted(map[], items, now)| == |KeysOf(items)| <= |items|
    ensures (exists i, j :: 0 <= i < j < |items| && KeyOf(items[i]) == KeyOf(items[j]))
            ==> |Upserted(map[], items, now)| < |items|
  {
    UpsertedKeys(map[], items, now);
    KeysOfBound(items);
    assert Upserted(map[], items, now).Keys == KeysOf(items);
  }

  /** The first loop of Command.handle: all_items += yt + fr + tr for each country in turn. */
  method CollectAll(src: Sources) returns (r: Result<seq<Observation>>)
    ensures r == AllItems(src, Countries)
  {
    var allItems: seq<Observation> := [];
    var c := 0;
    assert Countries[0..] == Countries;
    ChainNothing(AllItems(src, Countries));
    while c < |Countries|
      invariant 0 <= c <= |Countries|
      invariant Chain(allItems, AllItems(src, Countries[c..])) == AllItems(src, Countries)
    {
      var country := Countries[c];
      assert Countries[c..][0] == country && Countries[c..][1..] == Countries[c + 1..];
      var yt := CollectYouTubeForCountry(src.video, src.sqrt, country, None);
      if yt.Err? {
        return Err(yt.fault);
      }
      var fr := CollectForum(src.forum(country), src.sqrt, country, DefaultForumLimit);
      if fr.Err? {
        return Err(fr.fault);
      }
      var tr := CollectTrends(src.trends(country), country, None);
      if tr.Err? {
        return Err(tr.fault);
      }
      ChainAssociates(allItems, yt.value + fr.value + tr.value, AllItems(src, Countries[c + 1..]));
      allItems := allItems + (yt.value + fr.value + tr.value);
      c := c + 1;
    }
    assert Countries[c..] == [];
    assert allItems + [] == allItems;
    return Ok(allItems);
  }

  /** The second loop of Command.handle: update_or_create of each item in order, outside any
      transaction, so a refused write stops the loop with the earlier writes kept. */
  method StoreAll(table: WorkflowTable, items: seq<Observation>, rejects: Observation -> bool, now: int)
    returns (r: Result<nat>)
    requires table.Valid()
    modifies table
    ensures table.Valid()
    ensures table.rows == Upserted(old(table.rows), items[..FirstRejected(items, rejects)], now)
    ensures FirstRejected(items, rejects) == |items| ==> r == Ok(|items|)
    ensures FirstRejected(items, rejects) < |items| ==> r == Err(StorageFailed)
  {
    var i := 0;
    assert items[..0] == [];
    while i < |items|
      invariant 0 <= i <= |items|
      invariant table.Valid()
      invariant forall k :: 0 <= k < i ==> !rejects(items[k])
      invariant table.rows == Upserted(old(table.rows), items[..i], now)
    {
      var item := items[i];
      if rejects(item) {
        assert FirstRejected(items, rejects) == i by {
          var f := FirstRejected(items, rejects);
          assert !(f < i) && !(i < f);
        }
        return Err(StorageFailed);
      }
      var _ := table.UpdateOrCreate(KeyOf(item), item.sourceUrl, item.metrics, item.score, now);
      assert items[..i + 1][..i] == items[..i];
      i := i + 1;
    }
    assert items[..i] == items;
    return Ok(|items|);
  }

  /** Command.handle: collect everything, then store it; the reported count is len(all_items).
      A raising collector ends the run before any write. */
  method Handle(table: WorkflowTable, src: Sources, rejects: Observation -> bool, now: int)
    returns (r: Result<nat>)
    requires table.Valid()
    modifies table
    ensures table.Valid()
    ensures AllItems(src, Countries).Err? ==>
              r == Err(AllItems(src, Countries).fault) && table.rows == old(table.rows)
    ensures AllItems(src, Countries).Ok? ==>
              var items := AllItems(src, Countries).value;
              var f := FirstRejected(items, rejects);
              && table.rows == Upserted(old(table.rows), items[..f], now)
              && (f == |items| ==> r == Ok(|items|))
              && (f < |items| ==> r == Err(StorageFailed))
  {
    var collected := CollectAll(src);
    if collected.Err? {
      return Err(collected.fault);
    }
    r := StoreAll(table, collected.value, rejects, now);
  }
}
