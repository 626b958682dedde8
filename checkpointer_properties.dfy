/** What the checkpoint saver promises across operations: a stored checkpoint reads back as it
    was put, upserts keep the last write, the two conflict policies of `put_writes`, the order
    and bounds of `list`, and what a thread purge removes and keeps. */
module CheckpointerProperties {
  import opened Wrappers
  import opened Ordering
  import opened JsonValues
  import opened CheckpointModels
  import opened Checkpointer

  // ---------------------------------------------------------------------------------------
  // put, then get
  // ---------------------------------------------------------------------------------------

  /** A checkpoint put under a config reads back, by its id, as it was put: same checkpoint, same
      metadata, and as parent the incoming config's checkpoint id (none when that was absent or
      empty), with the config exactly as asked. */
  lemma PutThenGetExact(serde: Serde, cps: CheckpointTable, ws: WriteTable, config: Config,
                        checkpoint: Checkpoint, metadata: Json)
    requires RoundTrips(serde)
    requires config.checkpointNs.Some? && checkpoint.id != ""
    ensures var asked := Config(config.threadId, config.checkpointNs, Some(checkpoint.id));
            var got := GetTupleSpec(serde, PutSpec(serde, cps, config, checkpoint, metadata), ws, asked);
      && got.Some?
      && got.value.config == asked
      && got.value.checkpoint == checkpoint
      && got.value.metadata == metadata
      && got.value.parentConfig == (if Truthy(config.checkpointId)
                                    then Some(Config(config.threadId, config.checkpointNs, config.checkpointId))
                                    else None)
  {
    var asked := Config(config.threadId, config.checkpointNs, Some(checkpoint.id));
    var key := CheckpointKey(config.threadId, config.checkpointNs.value, checkpoint.id);
    var stored := PutSpec(serde, cps, config, checkpoint, metadata);
    assert key in stored && stored[key] == PutRow(serde, config, checkpoint, metadata);
    var dumped := serde.dumpsCheckpoint(checkpoint);
    assert serde.loadsCheckpoint(Some(dumped.0), Some(dumped.1)) == checkpoint;
    assert serde.loadsMetadata(serde.dumpsMetadata(metadata)) == metadata;
  }

  /** Putting the same (thread, namespace, id) twice leaves one row, the second one: the table is
      exactly as if only the second put had happened. */
  lemma PutTwiceKeepsSecond(serde: Serde, cps: CheckpointTable, config1: Config, checkpoint1: Checkpoint, metadata1: Json,
                            config2: Config, checkpoint2: Checkpoint, metadata2: Json)
    requires config1.checkpointNs.Some? && config2.checkpointNs == config1.checkpointNs
    requires config2.threadId == config1.threadId && checkpoint2.id == checkpoint1.id
    ensures PutSpec(serde, PutSpec(serde, cps, config1, checkpoint1, metadata1), config2, checkpoint2, metadata2)
            == PutSpec(serde, cps, config2, checkpoint2, metadata2)
  {
    var once := PutSpec(serde, cps, config1, checkpoint1, metadata1);
    var twice := PutSpec(serde, once, config2, checkpoint2, metadata2);
    var direct := PutSpec(serde, cps, config2, checkpoint2, metadata2);
    assert twice.Keys == direct.Keys;
    forall k | k in twice
      ensures twice[k] == direct[k]
    {
    }
  }

  /** A checkpoint whose id sorts after every id already in its lineage is what `get` without an
      id returns next, under a config pointing at it. */
  lemma PutNewestThenGetLatest(serde: Serde, cps: CheckpointTable, ws: WriteTable, config: Config,
                               checkpoint: Checkpoint, metadata: Json)
    requires RoundTrips(serde)
    requires config.checkpointNs.Some?
    requires forall k :: k in LineageKeys(cps, config.threadId, config.checkpointNs.value) ==>
               StrLt(k.checkpointId, checkpoint.id)
    ensures var got := GetTupleSpec(serde, PutSpec(serde, cps, config, checkpoint, metadata), ws,
                                    Config(config.threadId, config.checkpointNs, None));
      && got.Some?
      && got.value.config == Config(config.threadId, config.checkpointNs, Some(checkpoint.id))
      && got.value.checkpoint == checkpoint
  {
    var ns := config.checkpointNs.value;
    var key := CheckpointKey(config.threadId, ns, checkpoint.id);
    var stored := PutSpec(serde, cps, config, checkpoint, metadata);
    assert key in LineageKeys(stored, config.threadId, ns);
    var latest := Latest(stored, config.threadId, ns);
    var top := latest.value;
    // Any other row of the lineage was already there, so it sorts before the new id and cannot
    // also sort after it.
    assert top == key || top in LineageKeys(cps, config.threadId, ns);
    StrLtAsymmetric(top.checkpointId, checkpoint.id);
    assert top == key;
    var dumped := serde.dumpsCheckpoint(checkpoint);
    assert serde.loadsCheckpoint(Some(dumped.0), Some(dumped.1)) == checkpoint;
  }

  // ---------------------------------------------------------------------------------------
  // put_writes
  // ---------------------------------------------------------------------------------------

  /** A batch of one row is one insert. */
  lemma ApplyOne<K, R>(t: map<K, R>, rows: seq<(K, R)>, action: ConflictAction)
    requires |rows| == 1
    ensures ApplyInserts(t, rows, action) == Insert(t, rows[0].0, rows[0].1, action)
  {
    assert rows[..0] == [];
  }

  /** `ON CONFLICT DO UPDATE` over a batch: every key of the batch ends up holding the LAST row the
      batch gives it; keys outside the batch keep their rows. */
  lemma {:induction false} LastWriteWins<K, R>(t: map<K, R>, rows: seq<(K, R)>)
    ensures var r := ApplyInserts(t, rows, DoUpdate);
      && r.Keys == t.Keys + BatchKeys(rows)
      && (forall i :: 0 <= i < |rows| && (forall j :: i < j < |rows| ==> rows[j].0 != rows[i].0) ==>
            r[rows[i].0] == rows[i].1)
      && (forall k :: k in t && k !in BatchKeys(rows) ==> r[k] == t[k])
    decreases |rows|
  {
    if rows != [] {
      var n := |rows| - 1;
      var prefix := rows[..n];
      var before := ApplyInserts(t, prefix, DoUpdate);
      var r := ApplyInserts(t, rows, DoUpdate);
      assert r == Insert(before, rows[n].0, rows[n].1, DoUpdate);
      forall i | 0 <= i < |rows| && (forall j :: i < j < |rows| ==> rows[j].0 != rows[i].0)
        ensures r[rows[i].0] == rows[i].1
      {
        if i < n {
          assert prefix[i] == rows[i];
          assert forall j :: i < j < |prefix| ==> prefix[j].0 != prefix[i].0 by {
            forall j | i < j < |prefix| ensures prefix[j].0 != prefix[i].0 {
              assert prefix[j] == rows[j];
            }
          }
          LastWriteWins(t, prefix);
          assert before[rows[i].0] == rows[i].1;
          assert rows[i].0 != rows[n].0 && rows[i].0 in BatchKeys(prefix);
        }
      }
    }
  }

  /** `ON CONFLICT DO NOTHING` over a batch: rows already in the table are never touched, and a
      key new to the table ends up holding the FIRST row the batch gives it. */
  lemma {:induction false} FirstWriteWins<K, R>(t: map<K, R>, rows: seq<(K, R)>)
    ensures var r := ApplyInserts(t, rows, DoNothing);
      && r.Keys == t.Keys + BatchKeys(rows)
      && (forall k :: k in t ==> r[k] == t[k])
      && (forall i :: 0 <= i < |rows| && rows[i].0 !in t && (forall j :: 0 <= j < i ==> rows[j].0 != rows[i].0) ==>
            r[rows[i].0] == rows[i].1)
    decreases |rows|
  {
    if rows != [] {
      var n := |rows| - 1;
      var prefix := rows[..n];
      var before := ApplyInserts(t, prefix, DoNothing);
      var r := ApplyInserts(t, rows, DoNothing);
      assert r == Insert(before, rows[n].0, rows[n].1, DoNothing);
      assert forall k :: k in t ==> r[k] == t[k] by {
        FirstWriteWins(t, prefix);
      }
      forall i | 0 <= i < |rows| && rows[i].0 !in t && (forall j :: 0 <= j < i ==> rows[j].0 != rows[i].0)
        ensures r[rows[i].0] == rows[i].1
      {
        if i < n {
          assert prefix[i] == rows[i];
          assert rows[i].0 in BatchKeys(prefix);
          assert forall j :: 0 <= j < i ==> prefix[j].0 != prefix[i].0 by {
            forall j | 0 <= j < i ensures prefix[j].0 != prefix[i].0 {
              assert prefix[j] == rows[j];
            }
          }
          FirstWriteWins(t, prefix);
          assert before[rows[i].0] == rows[i].1;
        } else {
          assert rows[n].0 !in BatchKeys(prefix) by {
            forall j | 0 <= j < n ensures prefix[j].0 != rows[n].0 {
              assert prefix[j] == rows[j];
            }
          }
        }
      }
    }
  }

  /** Writes to channels that are not reserved take their positions as indices, so they never
      collide with one another within a batch. */
  lemma UnreservedBatchKeysDistinct(serde: Serde, config: Config, batch: seq<(string, Json)>, taskId: string,
                                    idxMap: map<string, int>)
    requires config.checkpointNs.Some? && config.checkpointId.Some?
    requires forall i :: 0 <= i < |batch| ==> batch[i].0 !in idxMap
    ensures var rows := BatchRows(serde, config, batch, taskId, idxMap);
      forall i, j :: 0 <= i < j < |rows| ==> rows[i].0 != rows[j].0 && rows[i].0.idx == i
  {
  }

  /** The row of a write retried under the same key (same config, task and channel, the
      channel's only write in each call): a reserved channel keeps the retry's value, any other
      channel keeps the value that got there first. */
  lemma RetriedWrite(serde: Serde, ws: WriteTable, config: Config, taskId: string, idxMap: map<string, int>,
                     channel: string, first: Json, second: Json)
    requires config.checkpointNs.Some? && config.checkpointId.Some?
    ensures var once := PutWritesSpec(serde, ws, config, [(channel, first)], taskId, idxMap);
            var twice := PutWritesSpec(serde, once, config, [(channel, second)], taskId, idxMap);
            var key := WriteKey(config.threadId, config.checkpointNs.value, config.checkpointId.value, taskId,
                                WriteIndex(idxMap, channel, 0));
            var rowOf := (v: Json) => WriteRow(channel, Some(serde.dumpsValue(v).0), Some(serde.dumpsValue(v).1));
      && key in twice
      && twice[key] == if channel in idxMap then rowOf(second)
                       else if key in ws then ws[key]
                       else rowOf(first)
  {
    var key := WriteKey(config.threadId, config.checkpointNs.value, config.checkpointId.value, taskId,
                        WriteIndex(idxMap, channel, 0));
    var rowOf := (v: Json) => WriteRow(channel, Some(serde.dumpsValue(v).0), Some(serde.dumpsValue(v).1));
    var rows1 := BatchRows(serde, config, [(channel, first)], taskId, idxMap);
    var rows2 := BatchRows(serde, config, [(channel, second)], taskId, idxMap);
    assert rows1[0] == (key, rowOf(first)) && rows2[0] == (key, rowOf(second));
    var action := if channel in idxMap then DoUpdate else DoNothing;
    assert [(channel, first)][0].0 == channel && [(channel, second)][0].0 == channel;
    assert BatchPolicy(idxMap, [(channel, first)]) == action;
    assert BatchPolicy(idxMap, [(channel, second)]) == action;
    var once := PutWritesSpec(serde, ws, config, [(channel, first)], taskId, idxMap);
    ApplyOne(ws, rows1, action);
    ApplyOne(once, rows2, action);
  }

  // ---------------------------------------------------------------------------------------
  // list
  // ---------------------------------------------------------------------------------------

  /** `list` yields rows newest first, never at or past `before`'s id, only from the config's
      thread; within one (thread, namespace) the ids strictly descend. */
  lemma ListNewestFirst(cps: CheckpointTable, config: Option<Config>, metadataMatches: Option<Bytes> -> bool,
                        before: Option<Config>, limit: Option<int>)
    requires Limits(limit) ==> limit.value > 0
    ensures var r := ListKeys(cps, config, metadataMatches, before, limit);
      && (forall i, j :: 0 <= i < j < |r| ==>
            StrLt(r[j].checkpointId, r[i].checkpointId) || r[j].checkpointId == r[i].checkpointId)
      && (config.Some? && config.value.checkpointNs.Some? ==>
            forall i, j :: 0 <= i < j < |r| ==> StrLt(r[j].checkpointId, r[i].checkpointId))
      && (before.Some? ==> forall i :: 0 <= i < |r| ==>
            before.value.checkpointId.Some? && StrLt(r[i].checkpointId, before.value.checkpointId.value))
      && (config.Some? ==> forall i :: 0 <= i < |r| ==> r[i].threadId == config.value.threadId)
  {
    var r := ListKeys(cps, config, metadataMatches, before, limit);
    assert forall i, j :: 0 <= i < j < |r| ==> ListOrder(r[i], r[j]);
    assert forall i :: 0 <= i < |r| ==> r[i] in SelectedKeys(cps, config, metadataMatches, before);
    if config.Some? && config.value.checkpointNs.Some? {
      forall i, j | 0 <= i < j < |r| ensures StrLt(r[j].checkpointId, r[i].checkpointId) {
        ListOrderWithinLineage(r[i], r[j]);
      }
    }
  }

  /** Rows of one (thread, namespace) are ordered by their ids alone. */
  lemma ListOrderWithinLineage(a: CheckpointKey, b: CheckpointKey)
    requires ListOrder(a, b)
    requires a.threadId == b.threadId && a.checkpointNs == b.checkpointNs
    ensures StrLt(b.checkpointId, a.checkpointId)
  {
    StrLtIrreflexive(a.threadId);
    StrLtIrreflexive(a.checkpointNs);
  }

  // ---------------------------------------------------------------------------------------
  // delete_thread
  // ---------------------------------------------------------------------------------------

  /** After a purge nothing of the thread can be read back: `get` finds nothing in any namespace. */
  lemma PurgeThenGetNone(serde: Serde, cps: CheckpointTable, ws: WriteTable, threadId: string, config: Config)
    requires config.threadId == threadId
    ensures GetTupleSpec(serde, PurgeCheckpoints(cps, threadId), PurgeWrites(ws, threadId), config) == None
  {
    var purged := PurgeCheckpoints(cps, threadId);
    if Truthy(config.checkpointId) {
      var key := CheckpointKey(config.threadId, NamespaceOrDefault(config.checkpointNs), config.checkpointId.value);
      assert key !in purged;
    } else {
      assert !exists k :: k in purged && k.threadId == config.threadId;
    }
  }

  /** After a purge `list` over the thread yields nothing. */
  lemma PurgeThenListEmpty(cps: CheckpointTable, threadId: string, config: Config,
                           metadataMatches: Option<Bytes> -> bool, before: Option<Config>, limit: Option<int>)
    requires config.threadId == threadId
    requires Limits(limit) ==> limit.value > 0
    ensures ListKeys(PurgeCheckpoints(cps, threadId), Some(config), metadataMatches, before, limit) == []
  {
    assert SelectedKeys(PurgeCheckpoints(cps, threadId), Some(config), metadataMatches, before) == {};
  }

  /** A checkpoint's pending writes depend only on that checkpoint's own write rows. */
  lemma PendingWritesLocal(serde: Serde, ws1: WriteTable, ws2: WriteTable, key: CheckpointKey)
    requires WriteKeysOf(ws1, key) == WriteKeysOf(ws2, key)
    requires forall k :: k in WriteKeysOf(ws1, key) ==> ws1[k] == ws2[k]
    ensures PendingWritesOf(serde, ws1, key) == PendingWritesOf(serde, ws2, key)
  {
    var ks := PendingWriteKeys(ws1, key);
    assert ks == PendingWriteKeys(ws2, key);
    var p1 := PendingWritesOf(serde, ws1, key);
    var p2 := PendingWritesOf(serde, ws2, key);
    assert |p1| == |p2|;
    forall i | 0 <= i < |p1| ensures p1[i] == p2[i] {
      assert ks[i] in WriteKeysOf(ws1, key);
    }
  }

  /** Purging one thread changes nothing another thread reads: its `get` answers as before. */
  lemma PurgeKeepsOtherThreads(serde: Serde, cps: CheckpointTable, ws: WriteTable, threadId: string, config: Config)
    requires config.threadId != threadId
    ensures GetTupleSpec(serde, PurgeCheckpoints(cps, threadId), PurgeWrites(ws, threadId), config)
            == GetTupleSpec(serde, cps, ws, config)
  {
    var cps' := PurgeCheckpoints(cps, threadId);
    var ws' := PurgeWrites(ws, threadId);
    var ns := NamespaceOrDefault(config.checkpointNs);
    if Truthy(config.checkpointId) {
      var key := CheckpointKey(config.threadId, ns, config.checkpointId.value);
      assert WriteKeysOf(ws', key) == WriteKeysOf(ws, key);
      PendingWritesLocal(serde, ws', ws, key);
    } else {
      assert LineageKeys(cps', config.threadId, ns) == LineageKeys(cps, config.threadId, ns);
      var latest := Latest(cps, config.threadId, ns);
      assert Latest(cps', config.threadId, ns) == latest;
      if latest.Some? {
        var key := latest.value;
        assert WriteKeysOf(ws', key) == WriteKeysOf(ws, key);
        PendingWritesLocal(serde, ws', ws, key);
      }
    }
  }

  /** Purging one thread leaves another thread's listing as it was: the same rows, in the same
      order, each yielded as the same tuple, pending writes included. */
  lemma PurgeKeepsOtherListings(serde: Serde, cps: CheckpointTable, ws: WriteTable, threadId: string, config: Config,
                                metadataMatches: Option<Bytes> -> bool, before: Option<Config>, limit: Option<int>)
    requires config.threadId != threadId
    requires Limits(limit) ==> limit.value > 0
    ensures var cps' := PurgeCheckpoints(cps, threadId);
            var keys := ListKeys(cps', Some(config), metadataMatches, before, limit);
      && keys == ListKeys(cps, Some(config), metadataMatches, before, limit)
      && forall i :: 0 <= i < |keys| ==>
           && keys[i] in cps' && keys[i] in cps
           && ListEntry(serde, cps', PurgeWrites(ws, threadId), keys[i]) == ListEntry(serde, cps, ws, keys[i])
  {
    var cps' := PurgeCheckpoints(cps, threadId);
    var ws' := PurgeWrites(ws, threadId);
    assert SelectedKeys(cps', Some(config), metadataMatches, before)
        == SelectedKeys(cps, Some(config), metadataMatches, before);
    var keys := ListKeys(cps', Some(config), metadataMatches, before, limit);
    forall i | 0 <= i < |keys|
      ensures keys[i] in cps' && keys[i] in cps
      ensures ListEntry(serde, cps', ws', keys[i]) == ListEntry(serde, cps, ws, keys[i])
    {
      var key := keys[i];
      assert key in SelectedKeys(cps', Some(config), metadataMatches, before);
      assert WriteKeysOf(ws', key) == WriteKeysOf(ws, key);
      PendingWritesLocal(serde, ws', ws, key);
    }
  }
}
