/** The PostgreSQL checkpoint saver (db/pg/pg_checkpointer.py) over the two tables of
    CheckpointModels. Each SQL statement is a function on the tables; the saver is a class whose
    methods run those statements in the order the source does, with the source's error cases. */
module Checkpointer {
  import opened Wrappers
  import opened Ordering
  import opened JsonValues
  import opened CheckpointModels

  /** The `configurable` part of a run configuration. `None` means the key is absent. */
  datatype Config = Config(threadId: string, checkpointNs: Option<string>, checkpointId: Option<string>)

  /** A checkpoint as the graph engine hands it over: its `id` and the rest of its contents. */
  datatype Checkpoint = Checkpoint(id: string, contents: Json)

  /** One pending write as `get` and `list` return it: (task_id, channel, value). */
  datatype PendingWrite = PendingWrite(taskId: string, channel: string, value: Json)

  datatype CheckpointTuple = CheckpointTuple(
    config: Config,
    checkpoint: Checkpoint,
    metadata: Json,
    parentConfig: Option<Config>,
    pendingWrites: seq<PendingWrite>)

  /** The serializers the saver inherits: `serde.dumps_typed`/`loads_typed` for checkpoints and
      channel values, `jsonplus_serde.dumps`/`loads` for metadata. They are not modelled; the
      saver only stores and hands back what they produce. */
  datatype Serde = Serde(
    dumpsCheckpoint: Checkpoint -> (string, Bytes),
    loadsCheckpoint: (Option<string>, Option<Bytes>) -> Checkpoint,
    dumpsValue: Json -> (string, Bytes),
    loadsValue: (Option<string>, Option<Bytes>) -> Json,
    dumpsMetadata: Json -> Bytes,
    loadsMetadata: Bytes -> Json)

  /** Loading what was dumped gives back the original. */
  ghost predicate RoundTrips(s: Serde)
  {
    && (forall c :: s.loadsCheckpoint(Some(s.dumpsCheckpoint(c).0), Some(s.dumpsCheckpoint(c).1)) == c)
    && (forall v :: s.loadsValue(Some(s.dumpsValue(v).0), Some(s.dumpsValue(v).1)) == v)
    && (forall m :: s.loadsMetadata(s.dumpsMetadata(m)) == m)
  }

  datatype Error =
    | ConnStringUnset        // `setup` raises ValueError: the connection string is not set
    | MissingKey(key: string) // KeyError on `config["configurable"][key]`
    | PoolClosed             // the connection pool was closed
    | NegativeLimit(limit: int) // PostgreSQL rejects `LIMIT -n`

  // ---------------------------------------------------------------------------------------
  // Row orders
  // ---------------------------------------------------------------------------------------

  /** The order `list` returns rows in: `ORDER BY checkpoint_id DESC`. SQL leaves rows with equal
      ids (in different threads or namespaces) in no particular order; the model puts them in
      thread, then namespace order. */
  predicate ListOrder(a: CheckpointKey, b: CheckpointKey)
  {
    || StrLt(b.checkpointId, a.checkpointId)
    || (a.checkpointId == b.checkpointId
        && (StrLt(a.threadId, b.threadId) || (a.threadId == b.threadId && StrLt(a.checkpointNs, b.checkpointNs))))
  }

  lemma ListOrderIsStrictTotal()
    ensures StrictTotalOrder(ListOrder)
  {
    StrLtIsStrictTotal();
  }

  /** `ORDER BY task_id, idx`; rows of different checkpoints are ordered by their checkpoint's key. */
  predicate WriteOrder(a: WriteKey, b: WriteKey)
  {
    || StrLt(a.taskId, b.taskId)
    || (a.taskId == b.taskId
        && (a.idx < b.idx
            || (a.idx == b.idx
                && (|| StrLt(a.threadId, b.threadId)
                    || (a.threadId == b.threadId
                        && (StrLt(a.checkpointNs, b.checkpointNs)
                            || (a.checkpointNs == b.checkpointNs && StrLt(a.checkpointId, b.checkpointId))))))))
  }

  lemma WriteOrderIsStrictTotal()
    ensures StrictTotalOrder(WriteOrder)
  {
    StrLtIsStrictTotal();
  }

  // ---------------------------------------------------------------------------------------
  // Reading one checkpoint: `aget_tuple`
  // ---------------------------------------------------------------------------------------

  /** The rows of one (thread, namespace) lineage. */
  function LineageKeys(cps: CheckpointTable, threadId: string, ns: string): set<CheckpointKey>
  {
    set k | k in cps && k.threadId == threadId && k.checkpointNs == ns
  }

  /** `... WHERE thread_id = %s AND checkpoint_ns = %s ORDER BY checkpoint_id DESC LIMIT 1`:
      the row of the lineage with the greatest id, if the lineage has any. */
  function Latest(cps: CheckpointTable, threadId: string, ns: string): (r: Option<CheckpointKey>)
    ensures r.None? <==> LineageKeys(cps, threadId, ns) == {}
    ensures r.Some? ==> r.value in LineageKeys(cps, threadId, ns)
    ensures r.Some? ==> forall k :: k in LineageKeys(cps, threadId, ns) && k != r.value ==>
                          StrLt(k.checkpointId, r.value.checkpointId)
  {
    ListOrderIsStrictTotal();
    StrLtIsStrictTotal();
    var rows := SortSet(LineageKeys(cps, threadId, ns), ListOrder);
    if rows == [] then None
    else
      assert forall k :: k in LineageKeys(cps, threadId, ns) && k != rows[0] ==> ListOrder(rows[0], k) by {
        forall k | k in LineageKeys(cps, threadId, ns) && k != rows[0]
          ensures ListOrder(rows[0], k)
        {
          var j :| 0 <= j < |rows| && rows[j] == k;
        }
      }
      Some(rows[0])
  }

  /** The write rows of one checkpoint. */
  function WriteKeysOf(ws: WriteTable, key: CheckpointKey): set<WriteKey>
  {
    set k | k in ws && k.threadId == key.threadId && k.checkpointNs == key.checkpointNs && k.checkpointId == key.checkpointId
  }

  /** `SELECT ... FROM writes WHERE <the checkpoint's key> ORDER BY task_id, idx`: every write row
      of the checkpoint, once each, ascending by (task_id, idx). */
  function PendingWriteKeys(ws: WriteTable, key: CheckpointKey): (r: seq<WriteKey>)
    ensures forall k :: k in r <==> k in WriteKeysOf(ws, key)
    ensures forall i :: 0 <= i < |r| ==> r[i] in ws
    ensures forall i, j :: 0 <= i < j < |r| ==>
              StrLt(r[i].taskId, r[j].taskId) || (r[i].taskId == r[j].taskId && r[i].idx < r[j].idx)
  {
    WriteOrderIsStrictTotal();
    var r := SortSet(WriteKeysOf(ws, key), WriteOrder);
    assert forall i :: 0 <= i < |r| ==> r[i] in WriteKeysOf(ws, key);
    assert forall i, j :: 0 <= i < j < |r| ==>
             StrLt(r[i].taskId, r[j].taskId) || (r[i].taskId == r[j].taskId && r[i].idx < r[j].idx) by {
      forall i, j | 0 <= i < j < |r|
        ensures StrLt(r[i].taskId, r[j].taskId) || (r[i].taskId == r[j].taskId && r[i].idx < r[j].idx)
      {
        WriteOrderWithinCheckpoint(r[i], r[j]);
      }
    }
    r
  }

  /** Rows of one checkpoint are told apart by (task_id, idx) alone. */
  lemma WriteOrderWithinCheckpoint(a: WriteKey, b: WriteKey)
    requires WriteOrder(a, b)
    requires a.threadId == b.threadId && a.checkpointNs == b.checkpointNs && a.checkpointId == b.checkpointId
    ensures StrLt(a.taskId, b.taskId) || (a.taskId == b.taskId && a.idx < b.idx)
  {
    StrLtIrreflexive(a.threadId);
    StrLtIrreflexive(a.checkpointNs);
    StrLtIrreflexive(a.checkpointId);
  }

  /** The pending writes of a checkpoint, each row's value deserialized. */
  function PendingWritesOf(serde: Serde, ws: WriteTable, key: CheckpointKey): (r: seq<PendingWrite>)
    ensures |r| == |PendingWriteKeys(ws, key)|
  {
    var ks := PendingWriteKeys(ws, key);
    seq(|ks|, i requires 0 <= i < |ks| =>
      PendingWrite(ks[i].taskId, ws[ks[i]].channel, serde.loadsValue(ws[ks[i]].typeTag, ws[ks[i]].value)))
  }

  /** The parent config of a stored row: none when `parent_checkpoint_id` is null or empty. */
  function ParentConfig(key: CheckpointKey, row: CheckpointRow): (r: Option<Config>)
    ensures r.None? <==> !Truthy(row.parentCheckpointId)
    ensures r.Some? ==> r.value.threadId == key.threadId && r.value.checkpointNs == Some(key.checkpointNs)
    ensures r.Some? ==> Truthy(r.value.checkpointId) && r.value.checkpointId == row.parentCheckpointId
  {
    if Truthy(row.parentCheckpointId) then
      Some(Config(key.threadId, Some(key.checkpointNs), row.parentCheckpointId))
    else None
  }

  /** Stored metadata deserialized, `{}` when the column is null. */
  function MetadataOf(serde: Serde, row: CheckpointRow): (r: Json)
    ensures row.metadata.None? ==> r == JObject([])
  {
    match row.metadata
    case Some(m) => serde.loadsMetadata(m)
    case None => JObject([])
  }

  /** The tuple `get` and `list` build for the row `key` under the config `config`. */
  function TupleOf(serde: Serde, ws: WriteTable, config: Config, key: CheckpointKey, row: CheckpointRow): CheckpointTuple
  {
    CheckpointTuple(config, serde.loadsCheckpoint(row.typeTag, row.checkpoint), MetadataOf(serde, row),
                    ParentConfig(key, row), PendingWritesOf(serde, ws, key))
  }

  /** What a successful `aget_tuple(config)` returns. With a (non-empty) checkpoint id, the row
      with exactly that key, under the config as given; without one, the row of the lineage with
      the greatest id, under a config rewritten to point at it. `None` when no row matches. */
  function GetTupleSpec(serde: Serde, cps: CheckpointTable, ws: WriteTable, config: Config): (r: Option<CheckpointTuple>)
    ensures Truthy(config.checkpointId) ==>
      var key := CheckpointKey(config.threadId, NamespaceOrDefault(config.checkpointNs), config.checkpointId.value);
      && (r.Some? <==> key in cps)
      && (r.Some? ==> r.value == TupleOf(serde, ws, config, key, cps[key]))
    ensures !Truthy(config.checkpointId) ==>
      var ns := NamespaceOrDefault(config.checkpointNs);
      && (r.Some? <==> exists k :: k in cps && k.threadId == config.threadId && k.checkpointNs == ns)
      && (r.Some? ==> exists key :: (
            && key in cps && key.threadId == config.threadId && key.checkpointNs == ns
            && (forall k :: k in cps && k.threadId == config.threadId && k.checkpointNs == ns && k != key ==>
                  StrLt(k.checkpointId, key.checkpointId))
            && r.value == TupleOf(serde, ws, Config(config.threadId, Some(ns), Some(key.checkpointId)), key, cps[key])))
  {
    var ns := NamespaceOrDefault(config.checkpointNs);
    if Truthy(config.checkpointId) then
      var key := CheckpointKey(config.threadId, ns, config.checkpointId.value);
      if key in cps then Some(TupleOf(serde, ws, config, key, cps[key])) else None
    else
      match Latest(cps, config.threadId, ns)
      case None =>
        assert forall k :: k in cps && k.threadId == config.threadId && k.checkpointNs == ns ==>
          k in LineageKeys(cps, config.threadId, ns);
        None
      case Some(key) =>
        Some(TupleOf(serde, ws, Config(key.threadId, Some(ns), Some(key.checkpointId)), key, cps[key]))
  }

  // ---------------------------------------------------------------------------------------
  // Listing: `alist`
  // ---------------------------------------------------------------------------------------

  /** The `WHERE` clause `search_where` builds: the config's thread, its namespace when it names
      one, its checkpoint id when that is set and non-empty, the metadata filter (not modelled: `metadataMatches` stands for it, and is true of every
      row when there is no filter), and `checkpoint_id < <before's id>`, which no row passes when
      `before` carries no id (a comparison with SQL NULL). */
  predicate Selected(k: CheckpointKey, row: CheckpointRow, config: Option<Config>,
                     metadataMatches: Option<Bytes> -> bool, before: Option<Config>)
  {
    && (config.Some? ==> k.threadId == config.value.threadId)
    && (config.Some? && config.value.checkpointNs.Some? ==> k.checkpointNs == config.value.checkpointNs.value)
    && (config.Some? && Truthy(config.value.checkpointId) ==> k.checkpointId == config.value.checkpointId.value)
    && metadataMatches(row.metadata)
    && (before.Some? ==> before.value.checkpointId.Some? && StrLt(k.checkpointId, before.value.checkpointId.value))
  }

  function SelectedKeys(cps: CheckpointTable, config: Option<Config>, metadataMatches: Option<Bytes> -> bool,
                        before: Option<Config>): (r: set<CheckpointKey>)
    ensures forall k :: k in r <==> k in cps && Selected(k, cps[k], config, metadataMatches, before)
    ensures forall k :: k in r && config.Some? ==> k.threadId == config.value.threadId
    ensures forall k :: k in r && config.Some? && Truthy(config.value.checkpointId) ==>
      k.checkpointId == config.value.checkpointId.value
    ensures forall k :: k in r && before.Some? ==>
      before.value.checkpointId.Some? && StrLt(k.checkpointId, before.value.checkpointId.value)
  {
    set k | k in cps && Selected(k, cps[k], config, metadataMatches, before)
  }

  /** `if limit:` — only a non-zero limit is appended to the query. */
  predicate Limits(limit: Option<int>)
  {
    limit.Some? && limit.value != 0
  }

  /** The keys of the rows `alist` yields, in order: the selected rows, newest first, cut to the
      limit when there is one. A row left out by the limit is older than every row yielded. */
  function ListKeys(cps: CheckpointTable, config: Option<Config>, metadataMatches: Option<Bytes> -> bool,
                    before: Option<Config>, limit: Option<int>): (r: seq<CheckpointKey>)
    requires Limits(limit) ==> limit.value > 0
    ensures forall i :: 0 <= i < |r| ==> r[i] in SelectedKeys(cps, config, metadataMatches, before)
    ensures Ascending(r, ListOrder)
    ensures !Limits(limit) ==> forall k :: k in SelectedKeys(cps, config, metadataMatches, before) ==> k in r
    ensures Limits(limit) ==>
      && |r| == (if limit.value < |SelectedKeys(cps, config, metadataMatches, before)| then limit.value
                 else |SelectedKeys(cps, config, metadataMatches, before)|)
      && forall k, i :: k in SelectedKeys(cps, config, metadataMatches, before) && k !in r && 0 <= i < |r| ==>
           ListOrder(r[i], k)
  {
    ListOrderIsStrictTotal();
    var all := SortSet(SelectedKeys(cps, config, metadataMatches, before), ListOrder);
    if Limits(limit) then
      TakeLeast(all, limit.value, ListOrder);
      Take(all, limit.value)
    else all
  }

  /** The tuple `alist` yields for a row: its own key as the config. */
  function ListEntry(serde: Serde, cps: CheckpointTable, ws: WriteTable, k: CheckpointKey): CheckpointTuple
    requires k in cps
  {
    TupleOf(serde, ws, Config(k.threadId, Some(k.checkpointNs), Some(k.checkpointId)), k, cps[k])
  }

  // ---------------------------------------------------------------------------------------
  // Writing a checkpoint: `aput`
  // ---------------------------------------------------------------------------------------

  /** The row `aput` stores: the parent is the incoming config's checkpoint id (absent when the
      config has none), then the serialized checkpoint and metadata. */
  function PutRow(serde: Serde, config: Config, checkpoint: Checkpoint, metadata: Json): (r: CheckpointRow)
    ensures r.parentCheckpointId == config.checkpointId
    ensures r.typeTag.Some? && r.checkpoint.Some? && r.metadata.Some?
    ensures RoundTrips(serde) ==>
      serde.loadsCheckpoint(r.typeTag, r.checkpoint) == checkpoint && MetadataOf(serde, r) == metadata
  {
    var (tag, data) := serde.dumpsCheckpoint(checkpoint);
    CheckpointRow(config.checkpointId, Some(tag), Some(data), Some(serde.dumpsMetadata(metadata)))
  }

  /** The `checkpoints` table after `aput`'s `INSERT ... ON CONFLICT DO UPDATE`. */
  function PutSpec(serde: Serde, cps: CheckpointTable, config: Config, checkpoint: Checkpoint, metadata: Json): (r: CheckpointTable)
    requires config.checkpointNs.Some?
    ensures var key := CheckpointKey(config.threadId, config.checkpointNs.value, checkpoint.id);
      && r.Keys == cps.Keys + {key}
      && r[key] == PutRow(serde, config, checkpoint, metadata)
      && forall k :: k in cps && k != key ==> r[k] == cps[k]
  {
    Insert(cps, CheckpointKey(config.threadId, config.checkpointNs.value, checkpoint.id),
           PutRow(serde, config, checkpoint, metadata), DoUpdate)
  }

  // ---------------------------------------------------------------------------------------
  // Writing pending writes: `aput_writes`
  // ---------------------------------------------------------------------------------------

  /** `WRITES_IDX_MAP.get(channel, idx)`: a reserved channel's fixed index, else the position of
      the write in the call. */
  function WriteIndex(idxMap: map<string, int>, channel: string, position: nat): (idx: int)
    ensures channel in idxMap ==> idx == idxMap[channel]
    ensures channel !in idxMap ==> idx == position
  {
    if channel in idxMap then idxMap[channel] else position
  }

  /** The conflict action of the whole batch: overwrite only when every channel is reserved. */
  function BatchPolicy(idxMap: map<string, int>, batch: seq<(string, Json)>): (a: ConflictAction)
    ensures a == DoUpdate <==> forall i :: 0 <= i < |batch| ==> batch[i].0 in idxMap
  {
    if forall i :: 0 <= i < |batch| ==> batch[i].0 in idxMap then DoUpdate else DoNothing
  }

  /** The rows `aput_writes` hands to `executemany`, one per (channel, value) in call order. */
  function BatchRows(serde: Serde, config: Config, batch: seq<(string, Json)>, taskId: string,
                     idxMap: map<string, int>): (rows: seq<(WriteKey, WriteRow)>)
    requires config.checkpointNs.Some? && config.checkpointId.Some?
    ensures |rows| == |batch|
    ensures forall i :: 0 <= i < |batch| ==>
      && rows[i].0.threadId == config.threadId
      && rows[i].0.checkpointNs == config.checkpointNs.value
      && rows[i].0.checkpointId == config.checkpointId.value
      && rows[i].0.taskId == taskId
      && rows[i].0.idx == WriteIndex(idxMap, batch[i].0, i)
      && rows[i].1 == WriteRow(batch[i].0, Some(serde.dumpsValue(batch[i].1).0), Some(serde.dumpsValue(batch[i].1).1))
  {
    seq(|batch|, i requires 0 <= i < |batch| =>
      (WriteKey(config.threadId, config.checkpointNs.value, config.checkpointId.value, taskId,
                WriteIndex(idxMap, batch[i].0, i)),
       WriteRow(batch[i].0, Some(serde.dumpsValue(batch[i].1).0), Some(serde.dumpsValue(batch[i].1).1))))
  }

  /** The keys a batch of rows inserts under. */
  function BatchKeys<K, R>(rows: seq<(K, R)>): set<K>
  {
    set i | 0 <= i < |rows| :: rows[i].0
  }

  /** The keys of a non-empty batch: those of all but its last row, and the last row's. */
  lemma BatchKeysSnoc<K, R>(rows: seq<(K, R)>)
    requires rows != []
    ensures BatchKeys(rows) == BatchKeys(rows[..|rows| - 1]) + {rows[|rows| - 1].0}
  {
    var n := |rows| - 1;
    var prefix := rows[..n];
    forall k | k in BatchKeys(rows) ensures k in BatchKeys(prefix) + {rows[n].0} {
      var i :| 0 <= i < |rows| && rows[i].0 == k;
      if i < n { assert prefix[i] == rows[i]; }
    }
    forall k | k in BatchKeys(prefix) ensures k in BatchKeys(rows) {
      var i :| 0 <= i < |prefix| && prefix[i].0 == k;
      assert rows[i] == prefix[i];
    }
  }

  /** `executemany`: the inserts of the batch, one after the other, under one conflict action.
      Whatever the action, the batch leaves a row under every key it names, removes none, and
      leaves the rows of keys it does not name alone. */
  function ApplyInserts<K, R>(t: map<K, R>, rows: seq<(K, R)>, action: ConflictAction): (r: map<K, R>)
    ensures r.Keys == t.Keys + BatchKeys(rows)
    ensures forall k :: k in t && k !in BatchKeys(rows) ==> r[k] == t[k]
    decreases |rows|
  {
    if rows == [] then t
    else
      var n := |rows| - 1;
      BatchKeysSnoc(rows);
      Insert(ApplyInserts(t, rows[..n], action), rows[n].0, rows[n].1, action)
  }

  /** The batch up to and including row `i` is the batch up to row `i`, then one more insert. */
  lemma ApplyInsertsSnoc<K, R>(t: map<K, R>, rows: seq<(K, R)>, i: nat, action: ConflictAction)
    requires i < |rows|
    ensures ApplyInserts(t, rows[..i + 1], action) == Insert(ApplyInserts(t, rows[..i], action), rows[i].0, rows[i].1, action)
  {
    assert rows[..i + 1][..i] == rows[..i];
  }

  /** The `writes` table after a successful `aput_writes` of a non-empty batch. */
  function PutWritesSpec(serde: Serde, ws: WriteTable, config: Config, batch: seq<(string, Json)>, taskId: string,
                         idxMap: map<string, int>): (r: WriteTable)
    requires config.checkpointNs.Some? && config.checkpointId.Some?
    ensures forall k :: k in r <==>
      || k in ws
      || exists i :: 0 <= i < |batch| && k == WriteKey(config.threadId, config.checkpointNs.value,
                                                       config.checkpointId.value, taskId, WriteIndex(idxMap, batch[i].0, i))
    ensures forall k :: k in ws && (k.threadId, k.checkpointNs, k.checkpointId, k.taskId)
                                   != (config.threadId, config.checkpointNs.value, config.checkpointId.value, taskId) ==>
      r[k] == ws[k]
  {
    var rows := BatchRows(serde, config, batch, taskId, idxMap);
    assert forall k :: k in BatchKeys(rows) <==> exists i :: 0 <= i < |batch| && k == rows[i].0;
    ApplyInserts(ws, rows, BatchPolicy(idxMap, batch))
  }

  // ---------------------------------------------------------------------------------------
  // Purging a thread: `adelete_thread`
  // ---------------------------------------------------------------------------------------

  /** `DELETE FROM checkpoints WHERE thread_id = %s` */
  function PurgeCheckpoints(cps: CheckpointTable, threadId: string): (r: CheckpointTable)
    ensures forall k :: k in r <==> k in cps && k.threadId != threadId
    ensures forall k :: k in r ==> r[k] == cps[k]
  {
    map k | k in cps && k.threadId != threadId :: cps[k]
  }

  /** `DELETE FROM writes WHERE thread_id = %s` */
  function PurgeWrites(ws: WriteTable, threadId: string): (r: WriteTable)
    ensures forall k :: k in r <==> k in ws && k.threadId != threadId
    ensures forall k :: k in r ==> r[k] == ws[k]
  {
    map k | k in ws && k.threadId != threadId :: ws[k]
  }

  // ---------------------------------------------------------------------------------------
  // The saver
  // ---------------------------------------------------------------------------------------

  /** `AsyncCompatiblePostgresSaver`: the two tables it reads and writes, whether its connection
      pool is open, the connection string `setup` needs, its serializers and the reserved-channel
      index map `WRITES_IDX_MAP`. */
  class Saver {
    var checkpoints: CheckpointTable
    var writes: WriteTable
    var poolOpen: bool
    const connString: Option<string>
    const serde: Serde
    const writesIdxMap: map<string, int>

    /** A saver over an open pool and the tables as the database holds them. */
    constructor (connString: Option<string>, serde: Serde, writesIdxMap: map<string, int>,
                 checkpoints: CheckpointTable, writes: WriteTable)
      ensures this.connString == connString && this.serde == serde && this.writesIdxMap == writesIdxMap
      ensures this.checkpoints == checkpoints && this.writes == writes && poolOpen
    {
      this.connString := connString;
      this.serde := serde;
      this.writesIdxMap := writesIdxMap;
      this.checkpoints := checkpoints;
      this.writes := writes;
      poolOpen := true;
    }

    /** `setup` succeeds exactly when the connection string is set and not empty; creating the
        tables when they are missing is not modelled. */
    predicate SetupSucceeds()
      reads this
    {
      Truthy(connString)
    }

    /** `aget_tuple` */
    method GetTuple(config: Config) returns (r: Result<Option<CheckpointTuple>, Error>)
      ensures !SetupSucceeds() ==> r == Err(ConnStringUnset)
      ensures SetupSucceeds() && !poolOpen ==> r == Err(PoolClosed)
      ensures SetupSucceeds() && poolOpen ==> r == Ok(GetTupleSpec(serde, checkpoints, writes, config))
    {
      if !SetupSucceeds() {
        return Err(ConnStringUnset);
      }
      var ns := NamespaceOrDefault(config.checkpointNs);
      if !poolOpen {
        return Err(PoolClosed);
      }
      var found: Option<CheckpointKey>;
      if Truthy(config.checkpointId) {
        var key := CheckpointKey(config.threadId, ns, config.checkpointId.value);
        found := if key in checkpoints then Some(key) else None;
      } else {
        found := Latest(checkpoints, config.threadId, ns);
      }
      if found.None? {
        return Ok(None);
      }
      var key := found.value;
      var resultConfig := if Truthy(config.checkpointId) then config
                          else Config(key.threadId, Some(ns), Some(key.checkpointId));
      r := Ok(Some(TupleOf(serde, writes, resultConfig, key, checkpoints[key])));
    }

    /** `alist`: one tuple per selected row, newest first, each row's writes fetched by a query
        of its own. A negative limit is appended to the query and rejected by the database. */
    method List(config: Option<Config>, metadataMatches: Option<Bytes> -> bool, before: Option<Config>,
                limit: Option<int>) returns (r: Result<seq<CheckpointTuple>, Error>)
      ensures !SetupSucceeds() ==> r == Err(ConnStringUnset)
      ensures SetupSucceeds() && !poolOpen ==> r == Err(PoolClosed)
      ensures SetupSucceeds() && poolOpen && Limits(limit) && limit.value < 0 ==> r == Err(NegativeLimit(limit.value))
      ensures SetupSucceeds() && poolOpen && !(Limits(limit) && limit.value < 0) ==>
        && r.Ok?
        && var ks := ListKeys(checkpoints, config, metadataMatches, before, limit);
           && |r.value| == |ks|
           && forall i :: 0 <= i < |ks| ==> ks[i] in checkpoints && r.value[i] == ListEntry(serde, checkpoints, writes, ks[i])
    {
      if !SetupSucceeds() {
        return Err(ConnStringUnset);
      }
      if !poolOpen {
        return Err(PoolClosed);
      }
      if Limits(limit) && limit.value < 0 {
        return Err(NegativeLimit(limit.value));
      }
      var rows := ListKeys(checkpoints, config, metadataMatches, before, limit);
      var tuples := Entries(rows);
      r := Ok(tuples);
    }

    /** `alist`'s loop over the fetched rows: one tuple per row, in order, each under its own key
        as config. */
    method Entries(rows: seq<CheckpointKey>) returns (tuples: seq<CheckpointTuple>)
      requires forall i :: 0 <= i < |rows| ==> rows[i] in checkpoints
      ensures |tuples| == |rows|
      ensures forall i :: 0 <= i < |rows| ==> tuples[i] == ListEntry(serde, checkpoints, writes, rows[i])
    {
      tuples := [];
      var i := 0;
      while i < |rows|
        invariant 0 <= i <= |rows|
        invariant |tuples| == i
        invariant forall j :: 0 <= j < i ==> tuples[j] == ListEntry(serde, checkpoints, writes, rows[j])
      {
        var k := rows[i];
        var tuple := TupleOf(serde, writes, Config(k.threadId, Some(k.checkpointNs), Some(k.checkpointId)), k, checkpoints[k]);
        tuples := tuples + [tuple];
        i := i + 1;
      }
    }

    /** `aput`: upsert the checkpoint under (thread, namespace, checkpoint id) with the incoming
        config's checkpoint id as its parent, and return a config pointing at it. */
    method Put(config: Config, checkpoint: Checkpoint, metadata: Json) returns (r: Result<Config, Error>)
      modifies this`checkpoints
      ensures !SetupSucceeds() ==> r == Err(ConnStringUnset) && checkpoints == old(checkpoints)
      ensures SetupSucceeds() && config.checkpointNs.None? ==>
                r == Err(MissingKey("checkpoint_ns")) && checkpoints == old(checkpoints)
      ensures SetupSucceeds() && config.checkpointNs.Some? && !poolOpen ==>
                r == Err(PoolClosed) && checkpoints == old(checkpoints)
      ensures SetupSucceeds() && config.checkpointNs.Some? && poolOpen ==>
                && r == Ok(Config(config.threadId, config.checkpointNs, Some(checkpoint.id)))
                && checkpoints == PutSpec(serde, old(checkpoints), config, checkpoint, metadata)
    {
      if !SetupSucceeds() {
        return Err(ConnStringUnset);
      }
      if config.checkpointNs.None? {
        return Err(MissingKey("checkpoint_ns"));
      }
      var ns := config.checkpointNs.value;
      var row := PutRow(serde, config, checkpoint, metadata);
      if !poolOpen {
        return Err(PoolClosed);
      }
      checkpoints := Insert(checkpoints, CheckpointKey(config.threadId, ns, checkpoint.id), row, DoUpdate);
      r := Ok(Config(config.threadId, Some(ns), Some(checkpoint.id)));
    }

    /** `aput_writes`: the conflict action is chosen for the whole batch before anything else;
        the config's namespace and checkpoint id are looked up only while building the rows, so
        an empty batch never misses them. Any failure leaves the table as it was. */
    method PutWrites(config: Config, batch: seq<(string, Json)>, taskId: string, taskPath: string) returns (r: Outcome<Error>)
      modifies this`writes
      ensures !SetupSucceeds() ==> r == Fail(ConnStringUnset) && writes == old(writes)
      ensures SetupSucceeds() && !poolOpen ==> r == Fail(PoolClosed) && writes == old(writes)
      ensures SetupSucceeds() && poolOpen && |batch| > 0 && config.checkpointNs.None? ==>
                r == Fail(MissingKey("checkpoint_ns")) && writes == old(writes)
      ensures SetupSucceeds() && poolOpen && |batch| > 0 && config.checkpointNs.Some? && config.checkpointId.None? ==>
                r == Fail(MissingKey("checkpoint_id")) && writes == old(writes)
      ensures SetupSucceeds() && poolOpen && |batch| == 0 ==> r == Pass && writes == old(writes)
      ensures SetupSucceeds() && poolOpen && |batch| > 0 && config.checkpointNs.Some? && config.checkpointId.Some? ==>
                && r == Pass
                && writes == PutWritesSpec(serde, old(writes), config, batch, taskId, writesIdxMap)
    {
      var action := BatchPolicy(writesIdxMap, batch);
      if !SetupSucceeds() {
        return Fail(ConnStringUnset);
      }
      if !poolOpen {
        return Fail(PoolClosed);
      }
      if |batch| == 0 {
        return Pass;
      }
      if config.checkpointNs.None? {
        return Fail(MissingKey("checkpoint_ns"));
      }
      if config.checkpointId.None? {
        return Fail(MissingKey("checkpoint_id"));
      }
      var rows := BatchRows(serde, config, batch, taskId, writesIdxMap);
      InsertAll(rows, action);
      r := Pass;
    }

    /** `executemany`'s loop: one insert per row, in order, all under the same conflict action. */
    method InsertAll(rows: seq<(WriteKey, WriteRow)>, action: ConflictAction)
      modifies this`writes
      ensures writes == ApplyInserts(old(writes), rows, action)
    {
      var i := 0;
      while i < |rows|
        invariant 0 <= i <= |rows|
        invariant writes == ApplyInserts(old(writes), rows[..i], action)
      {
        ApplyInsertsSnoc(old(writes), rows, i, action);
        writes := Insert(writes, rows[i].0, rows[i].1, action);
        i := i + 1;
      }
      assert rows[..|rows|] == rows;
    }

    /** `adelete_thread`: delete the thread's rows from both tables, in every namespace. It does
        not call `setup`. */
    method DeleteThread(threadId: string) returns (r: Outcome<Error>)
      modifies this`checkpoints, this`writes
      ensures !poolOpen ==> r == Fail(PoolClosed) && checkpoints == old(checkpoints) && writes == old(writes)
      ensures poolOpen ==> && r == Pass
                           && checkpoints == PurgeCheckpoints(old(checkpoints), threadId)
                           && writes == PurgeWrites(old(writes), threadId)
    {
      if !poolOpen {
        return Fail(PoolClosed);
      }
      checkpoints := PurgeCheckpoints(checkpoints, threadId);
      writes := PurgeWrites(writes, threadId);
      r := Pass;
    }

    /** `aclose`: closing the pool never raises, however often it is called. */
    method Close()
      modifies this`poolOpen
      ensures !poolOpen
    {
      poolOpen := false;
    }
  }
}
