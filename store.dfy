/** The Workflow table as a keyed store, and update_or_create on it. The unique_together
    constraint of workflows/models.py is the map's key: one row per (workflow, platform, country). */
module Store {
  import opened Common
  import opened Models

  type Rows = map<Key, Workflow>

  /** Every row sits under its own key. */
  ghost predicate Keyed(rows: Rows)
  {
    forall k :: k in rows ==> rows[k].key == k
  }

  /** The row that a save of `o` at instant `now` leaves behind. */
  function RowOf(o: Observation, now: int): (w: Workflow)
  {
    Workflow(KeyOf(o), o.sourceUrl, o.metrics, o.score, now)
  }

  function KeysOf(items: seq<Observation>): (keys: set<Key>)
  {
    set i | 0 <= i < |items| :: KeyOf(items[i])
  }

  /** The table after update_or_create of every item in order, each save at instant `now`. */
  function Upserted(rows: Rows, items: seq<Observation>, now: int): (after: Rows)
  {
    if |items| == 0 then rows
    else
      var last := items[|items| - 1];
      Upserted(rows, items[..|items| - 1], now)[KeyOf(last) := RowOf(last, now)]
  }

  /** The index of the first item the database refuses, or |items| when it accepts them all. */
  function FirstRejected(items: seq<Observation>, rejects: Observation -> bool): (f: nat)
    ensures f <= |items|
    ensures forall i :: 0 <= i < f ==> !rejects(items[i])
    ensures f < |items| ==> rejects(items[f])
  {
    if |items| == 0 then 0
    else if rejects(items[0]) then 0
    else 1 + FirstRejected(items[1..], rejects)
  }

  /** The keys of a batch are those of all but its last item, plus the last item's key. */
  lemma KeysOfSnoc(items: seq<Observation>)
    requires |items| > 0
    ensures KeysOf(items) == KeysOf(items[..|items| - 1]) + {KeyOf(items[|items| - 1])}
  {
    var init := items[..|items| - 1];
    forall k | k in KeysOf(items) ensures k in KeysOf(init) + {KeyOf(items[|items| - 1])} {
      var i :| 0 <= i < |items| && KeyOf(items[i]) == k;
      if i < |items| - 1 { assert init[i] == items[i]; }
    }
    forall k | k in KeysOf(init) ensures k in KeysOf(items) {
      var i :| 0 <= i < |init| && KeyOf(init[i]) == k;
      assert items[i] == init[i];
    }
  }

  /** A batch has at most as many keys as items, and strictly fewer when some key repeats. */
  lemma {:induction false} KeysOfBound(items: seq<Observation>)
    ensures |KeysOf(items)| <= |items|
    ensures (exists i, j :: 0 <= i < j < |items| && KeyOf(items[i]) == KeyOf(items[j]))
            ==> |KeysOf(items)| < |items|
  {
    if |items| > 0 {
      var init := items[..|items| - 1];
      var last := KeyOf(items[|items| - 1]);
      KeysOfBound(init);
      KeysOfSnoc(items);
      if exists i, j :: 0 <= i < j < |items| && KeyOf(items[i]) == KeyOf(items[j]) {
        var i, j :| 0 <= i < j < |items| && KeyOf(items[i]) == KeyOf(items[j]);
        assert init[i] == items[i];
        if j == |items| - 1 {
          assert last in KeysOf(init);
          assert KeysOf(items) == KeysOf(init);
        } else {
          assert init[j] == items[j];
        }
      }
    } else {
      assert KeysOf(items) == {};
    }
  }

  lemma {:induction false} UpsertedKeys(rows: Rows, items: seq<Observation>, now: int)
    ensures Upserted(rows, items, now).Keys == rows.Keys + KeysOf(items)
  {
    if |items| > 0 {
      UpsertedKeys(rows, items[..|items| - 1], now);
      KeysOfSnoc(items);
    } else {
      assert KeysOf(items) == {};
    }
  }

  /** Each key of the batch holds the row of the LAST item with that key. */
  lemma {:induction false} UpsertedLastWins(rows: Rows, items: seq<Observation>, now: int, j: nat)
    requires j < |items|
    requires forall i :: j < i < |items| ==> KeyOf(items[i]) != KeyOf(items[j])
    ensures KeyOf(items[j]) in Upserted(rows, items, now)
    ensures Upserted(rows, items, now)[KeyOf(items[j])] == RowOf(items[j], now)
  {
    if j < |items| - 1 {
      var init := items[..|items| - 1];
      assert init[j] == items[j];
      forall i | j < i < |init| ensures KeyOf(init[i]) != KeyOf(init[j]) {
        assert init[i] == items[i];
      }
      UpsertedLastWins(rows, init, now, j);
    }
  }

  /** A key no item of the batch carries keeps its row, or stays absent. */
  lemma {:induction false} UpsertedUntouched(rows: Rows, items: seq<Observation>, now: int, k: Key)
    requires forall i :: 0 <= i < |items| ==> KeyOf(items[i]) != k
    ensures k in Upserted(rows, items, now) <==> k in rows
    ensures k in rows ==> Upserted(rows, items, now)[k] == rows[k]
  {
    if |items| > 0 {
      var init := items[..|items| - 1];
      forall i | 0 <= i < |init| ensures KeyOf(init[i]) != k {
        assert init[i] == items[i];
      }
      UpsertedUntouched(rows, init, now, k);
    }
  }

  /** Upserting keeps every row under its own key (no duplicate triple can arise). */
  lemma {:induction false} UpsertedKeyed(rows: Rows, items: seq<Observation>, now: int)
    requires Keyed(rows)
    ensures Keyed(Upserted(rows, items, now))
  {
    if |items| > 0 {
      UpsertedKeyed(rows, items[..|items| - 1], now);
    }
  }

  /** A batch overrides the table with the rows it would produce on an empty table. */
  lemma {:induction false} UpsertedOverrides(rows: Rows, items: seq<Observation>, now: int)
    ensures Upserted(rows, items, now) == rows + Upserted(map[], items, now)
  {
    if |items| > 0 {
      var init := items[..|items| - 1];
      var last := items[|items| - 1];
      UpsertedOverrides(rows, init, now);
      var a := Upserted(rows, init, now);
      var b := Upserted(map[], init, now);
      assert a[KeyOf(last) := RowOf(last, now)] == rows + b[KeyOf(last) := RowOf(last, now)];
    }
  }

  /** Running the same batch twice at the same instant changes nothing the first run did not. */
  lemma UpsertedIdempotent(rows: Rows, items: seq<Observation>, now: int)
    ensures Upserted(Upserted(rows, items, now), items, now) == Upserted(rows, items, now)
  {
    var batch := Upserted(map[], items, now);
    UpsertedOverrides(rows, items, now);
    UpsertedOverrides(rows + batch, items, now);
    assert (rows + batch) + batch == rows + batch;
  }

  /** Items with distinct keys that are new to the table add exactly one row each. */
  lemma {:induction false} UpsertedCountsDistinct(rows: Rows, items: seq<Observation>, now: int)
    requires forall i, j :: 0 <= i < j < |items| ==> KeyOf(items[i]) != KeyOf(items[j])
    requires forall i :: 0 <= i < |items| ==> KeyOf(items[i]) !in rows
    ensures |Upserted(rows, items, now)| == |rows| + |items|
  {
    if |items| > 0 {
      var init := items[..|items| - 1];
      var last := items[|items| - 1];
      UpsertedCountsDistinct(rows, init, now);
      forall i | 0 <= i < |init| ensures KeyOf(init[i]) != KeyOf(last) {
        assert init[i] == items[i];
      }
      UpsertedUntouched(rows, init, now, KeyOf(last));
      var m := Upserted(rows, init, now);
      assert KeyOf(last) !in m;
      assert m[KeyOf(last) := RowOf(last, now)].Keys == m.Keys + {KeyOf(last)};
    }
  }

  /** Two observations of one key in a batch leave one row, holding the second. */
  lemma SameKeyTwiceKeepsSecond(rows: Rows, first: Observation, second: Observation, now: int)
    requires KeyOf(first) == KeyOf(second)
    ensures Upserted(rows, [first, second], now) == rows[KeyOf(second) := RowOf(second, now)]
  {
    var k := KeyOf(second);
    assert [first, second][..1] == [first];
    assert [first][..0] == [];
    assert Upserted(rows, [first], now) == rows[k := RowOf(first, now)];
    assert rows[k := RowOf(first, now)][k := RowOf(second, now)] == rows[k := RowOf(second, now)];
  }

  /** The Workflow table: its rows by key. */
  class WorkflowTable {
    var rows: Rows

    ghost predicate Valid()
      reads this
    {
      Keyed(rows)
    }

    constructor ()
      ensures Valid() && rows == map[]
    {
      rows := map[];
    }

    /** update_or_create: look the key up, create the row when absent, otherwise overwrite its
        fields; the save sets last_seen to `now`. */
    method UpdateOrCreate(key: Key, sourceUrl: Option<string>, metrics: Metrics, score: real, now: int)
      returns (created: bool)
      requires Valid()
      modifies this
      ensures Valid()
      ensures created <==> key !in old(rows)
      ensures rows == old(rows)[key := Workflow(key, sourceUrl, metrics, score, now)]
    {
      created := key !in rows;
      var row := if created then NewWorkflow(key, metrics, sourceUrl, Some(score), now)
                 else rows[key].(sourceUrl := sourceUrl, metrics := metrics, score := score, lastSeen := now);
      rows := rows[key := row];
    }
  }
}
