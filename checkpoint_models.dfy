/** The two tables of the checkpoint store (db/pg/models.py): their primary keys, their
    nullable columns, the `checkpoint_ns` default, and what one `INSERT ... ON CONFLICT`
    on a primary key does to a table. A table is a map from primary key to the other columns,
    so at most one row per key holds by construction. */
module CheckpointModels {
  import opened Wrappers

  newtype byte = x: int | 0 <= x < 256
  /** A `LargeBinary` (PostgreSQL `BYTEA`) column value. */
  type Bytes = seq<byte>

  /** Both tables give `checkpoint_ns` the default "". */
  const DefaultNamespace: string := ""

  /** Primary key of `checkpoints`: (thread_id, checkpoint_ns, checkpoint_id), all non-null text. */
  datatype CheckpointKey = CheckpointKey(threadId: string, checkpointNs: string, checkpointId: string)

  /** The nullable columns of a `checkpoints` row; the column `metadata` is the ORM attribute
      `checkpoint_metadata`. */
  datatype CheckpointRow = CheckpointRow(
    parentCheckpointId: Option<string>,
    typeTag: Option<string>,
    checkpoint: Option<Bytes>,
    metadata: Option<Bytes>)

  type CheckpointTable = map<CheckpointKey, CheckpointRow>

  /** Primary key of `writes`: (thread_id, checkpoint_ns, checkpoint_id, task_id, idx). */
  datatype WriteKey = WriteKey(threadId: string, checkpointNs: string, checkpointId: string, taskId: string, idx: int)

  /** The other columns of a `writes` row: `channel` is non-null, `type` and `value` nullable. */
  datatype WriteRow = WriteRow(channel: string, typeTag: Option<string>, value: Option<Bytes>)

  type WriteTable = map<WriteKey, WriteRow>

  /** The namespace a key gets when none is given: the column default. */
  function NamespaceOrDefault(ns: Option<string>): (r: string)
    ensures ns.None? ==> r == DefaultNamespace
    ensures ns.Some? ==> r == ns.value
  {
    ns.GetOr(DefaultNamespace)
  }

  /** The action of an `ON CONFLICT (primary key)` clause. */
  datatype ConflictAction = DoUpdate | DoNothing

  /** One `INSERT ... ON CONFLICT (<primary key>) DO UPDATE | DO NOTHING` of the row `row` under
      key `k`: afterwards `k` has exactly one row, the new one unless the key was taken and the
      action is `DO NOTHING`; every other key keeps its row or its absence. */
  function Insert<K, R>(t: map<K, R>, k: K, row: R, action: ConflictAction): (r: map<K, R>)
    ensures r.Keys == t.Keys + {k}
    ensures r[k] == if k in t && action == DoNothing then t[k] else row
    ensures forall k' :: k' in t && k' != k ==> r[k'] == t[k']
  {
    if k in t && action == DoNothing then t else t[k := row]
  }

  /** The primary key keeps the table to one row per key: an insert adds a row only for a key
      that had none. */
  lemma InsertRowCount<K, R>(t: map<K, R>, k: K, row: R, action: ConflictAction)
    ensures |Insert(t, k, row, action)| == if k in t then |t| else |t| + 1
  {
    var r := Insert(t, k, row, action);
    if k !in t {
      assert r.Keys == t.Keys + {k};
      assert |r.Keys| == |t.Keys| + 1;
    } else {
      assert r.Keys == t.Keys;
    }
  }
}
