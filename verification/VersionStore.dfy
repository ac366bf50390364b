/** The database store: a live table, an append-only version log with soft deletion and pruning, and the
    active-version pointers (internal/mcp/storage/db.go). Each operation is one transaction: it either
    applies entirely or leaves the three tables as they were. */
module VersionStore {
  import opened Options
  import opened ConfigModel

  datatype Action = Create | Update | Delete | Revert

  datatype ConfigRow = ConfigRow(body: Body, deleted: bool)

  datatype PointerRow = PointerRow(version: int, deleted: bool)

  /** The content hash of a row is injective in the body, so hashes are compared through bodies. */
  datatype VersionRow = VersionRow(key: Key, version: int, action: Action, createdAt: int, body: Body, deleted: bool)

  datatype Tables = Tables(configs: map<Key, ConfigRow>, pointers: map<Key, PointerRow>, versions: seq<VersionRow>)

  datatype StoreError = RecordExists | RecordNotFound | VersionNotFound | ActiveVersion | UniqueViolation

  datatype Outcome = Done | Failed(error: StoreError)

  datatype Op =
    | OpCreate(key: Key, body: Body)
    | OpUpdate(key: Key, body: Body)
    | OpDelete(key: Key)
    | OpSetActive(key: Key, version: int)
    | OpDeleteVersion(key: Key, version: int)

  const PRUNE_BATCH := 1000

  const EmptyTables := Tables(map[], map[], [])

  // ---- Queries ----

  predicate Live(t: Tables, k: Key) {
    k in t.configs && !t.configs[k].deleted
  }

  /** The rows a plain query of the live table returns. */
  function LiveConfigs(t: Tables): map<Key, Body> {
    map k | k in t.configs && !t.configs[k].deleted :: t.configs[k].body
  }

  /** COALESCE(MAX(version), 0) over the rows of a key that are not soft-deleted. */
  function MaxVersion(rows: seq<VersionRow>, k: Key): int {
    if rows == [] then 0
    else
      var n := |rows| - 1;
      var m := MaxVersion(rows[..n], k);
      if rows[n].key == k && !rows[n].deleted && rows[n].version > m then rows[n].version else m
  }

  /** The newest row carrying a name, whatever its tenant; the oldest row wins a tie. */
  function LatestByName(rows: seq<VersionRow>, name: string): Option<VersionRow> {
    if rows == [] then None
    else
      var n := |rows| - 1;
      var best := LatestByName(rows[..n], name);
      if rows[n].key.name == name && !rows[n].deleted && (best.None? || rows[n].version > best.value.version)
      then Some(rows[n]) else best
  }

  /** The first row with the given number, soft-deleted rows included. */
  function FindVersion(rows: seq<VersionRow>, k: Key, v: int): (r: Option<VersionRow>)
    ensures r.Some? ==> r.value in rows && r.value.key == k && r.value.version == v
    ensures r.None? <==> forall i :: 0 <= i < |rows| ==> !(rows[i].key == k && rows[i].version == v)
  {
    if rows == [] then None
    else if rows[0].key == k && rows[0].version == v then Some(rows[0])
    else
      var r := FindVersion(rows[1..], k, v);
      assert rows == [rows[0]] + rows[1..];
      r
  }

  /** How many rows of a key that are not soft-deleted carry a higher number: the row's offset in version order. */
  function NewerRows(rows: seq<VersionRow>, k: Key, v: int): nat {
    if rows == [] then 0
    else
      var n := |rows| - 1;
      NewerRows(rows[..n], k, v) + if rows[n].key == k && !rows[n].deleted && rows[n].version > v then 1 else 0
  }

  // ---- Row changes ----

  predicate Pruned(rows: seq<VersionRow>, k: Key, limit: int, r: VersionRow) {
    r.key == k && !r.deleted && limit <= NewerRows(rows, k, r.version) < limit + PRUNE_BATCH
  }

  /** Soft-deletes the rows of a key past the revision history limit. */
  function Prune(rows: seq<VersionRow>, k: Key, limit: int): (r: seq<VersionRow>)
    ensures |r| == |rows|
    ensures forall i :: 0 <= i < |rows| ==>
              r[i] == rows[i].(deleted := rows[i].deleted || (limit > 0 && Pruned(rows, k, limit, rows[i])))
  {
    if limit <= 0 then rows
    else
      seq(|rows|, i requires 0 <= i < |rows| =>
        rows[i].(deleted := rows[i].deleted || Pruned(rows, k, limit, rows[i])))
  }

  function SoftDelete(rows: seq<VersionRow>, k: Key, v: int): (r: seq<VersionRow>)
    ensures |r| == |rows|
    ensures forall i :: 0 <= i < |rows| ==>
              r[i] == rows[i].(deleted := rows[i].deleted || (rows[i].key == k && rows[i].version == v))
  {
    seq(|rows|, i requires 0 <= i < |rows| =>
      rows[i].(deleted := rows[i].deleted || (rows[i].key == k && rows[i].version == v)))
  }

  /** An upsert that assigns the version column only: a soft-deleted pointer stays soft-deleted. */
  function UpsertPointer(ps: map<Key, PointerRow>, k: Key, v: int): map<Key, PointerRow> {
    ps[k := PointerRow(v, k in ps && ps[k].deleted)]
  }

  // ---- The operations on table values ----

  predicate SkipsVersion(t: Tables, k: Key, body: Body) {
    var latest := LatestByName(t.versions, k.name);
    latest.Some? && latest.value.version > 0 && latest.value.body == body
  }

  function NextByName(t: Tables, k: Key): int {
    var latest := LatestByName(t.versions, k.name);
    if latest.Some? then latest.value.version + 1 else 1
  }

  function ApplyCreate(t: Tables, k: Key, body: Body, now: int): (Tables, Outcome) {
    if k in t.configs then
      if t.configs[k].deleted then
        var v := MaxVersion(t.versions, k) + 1;
        (Tables(t.configs[k := ConfigRow(body, false)], t.pointers[k := PointerRow(v, false)],
                t.versions + [VersionRow(k, v, Create, now, body, false)]), Done)
      else (t, Failed(RecordExists))
    else if k in t.pointers then (t, Failed(UniqueViolation))
    else (Tables(t.configs[k := ConfigRow(body, false)], t.pointers[k := PointerRow(1, false)],
                 t.versions + [VersionRow(k, 1, Create, now, body, false)]), Done)
  }

  function ApplyUpdate(t: Tables, limit: int, k: Key, body: Body, now: int): (Tables, Outcome) {
    var configs := if Live(t, k) then t.configs[k := ConfigRow(body, false)] else t.configs;
    if SkipsVersion(t, k, body) then (t.(configs := configs), Done)
    else
      var v := NextByName(t, k);
      (Tables(configs, UpsertPointer(t.pointers, k, v),
              Prune(t.versions + [VersionRow(k, v, Update, now, body, false)], k, limit)), Done)
  }

  function ApplyDelete(t: Tables, k: Key, now: int): (Tables, Outcome) {
    if !Live(t, k) then (t, Failed(RecordNotFound))
    else
      var v := MaxVersion(t.versions, k) + 1;
      (Tables(t.configs[k := ConfigRow(t.configs[k].body, true)], t.pointers[k := PointerRow(v, true)],
              t.versions + [VersionRow(k, v, Delete, now, t.configs[k].body, false)]), Done)
  }

  function ApplySetActive(t: Tables, k: Key, v: int, now: int): (Tables, Outcome) {
    match FindVersion(t.versions, k, v)
    case None => (t, Failed(VersionNotFound))
    case Some(row) =>
      var w := MaxVersion(t.versions, k) + 1;
      (Tables(t.configs[k := ConfigRow(row.body, false)], UpsertPointer(t.pointers, k, w),
              t.versions + [VersionRow(k, w, Revert, now, row.body, false)]), Done)
  }

  predicate Guarded(t: Tables, k: Key, v: int) {
    k in t.pointers && !t.pointers[k].deleted && t.pointers[k].version == v
  }

  function ApplyDeleteVersion(t: Tables, k: Key, v: int): (Tables, Outcome) {
    if Guarded(t, k, v) then (t, Failed(ActiveVersion))
    else (t.(versions := SoftDelete(t.versions, k, v)), Done)
  }

  function Apply(t: Tables, limit: int, op: Op, now: int): Tables {
    match op
    case OpCreate(k, body) => ApplyCreate(t, k, body, now).0
    case OpUpdate(k, body) => ApplyUpdate(t, limit, k, body, now).0
    case OpDelete(k) => ApplyDelete(t, k, now).0
    case OpSetActive(k, v) => ApplySetActive(t, k, v, now).0
    case OpDeleteVersion(k, v) => ApplyDeleteVersion(t, k, v).0
  }

  /** The rows created after `since` that are not soft-deleted, oldest first, as changes for the gateway. */
  function UpdatedSince(rows: seq<VersionRow>, since: int): seq<Change> {
    if rows == [] then []
    else
      var r := rows[|rows| - 1];
      UpdatedSince(rows[..|rows| - 1], since) +
        if !r.deleted && r.createdAt > since then [Change(Config(r.key, r.body), r.action == Delete)] else []
  }

  // ---- The store object ----

  class DBStore {
    var configs: map<Key, ConfigRow>
    var pointers: map<Key, PointerRow>
    var versions: seq<VersionRow>
    const revisionHistoryLimit: int

    constructor (limit: int)
      ensures Contents() == EmptyTables && revisionHistoryLimit == limit
    {
      configs, pointers, versions := map[], map[], [];
      revisionHistoryLimit := limit;
    }

    function Contents(): Tables
      reads this
    {
      Tables(configs, pointers, versions)
    }

    method Create(k: Key, body: Body, now: int) returns (out: Outcome)
      modifies this
      ensures (Contents(), out) == ApplyCreate(old(Contents()), k, body, now)
    {
      if k in configs {
        if configs[k].deleted {
          configs := configs[k := ConfigRow(body, false)];
          var version := MaxVersion(versions, k) + 1;
          versions := versions + [VersionRow(k, version, Action.Create, now, body, false)];
          if k in pointers {
            if pointers[k].deleted {
              pointers := pointers[k := PointerRow(version, false)];
            } else {
              pointers := pointers[k := pointers[k].(version := version)];
            }
          } else {
            pointers := pointers[k := PointerRow(version, false)];
          }
          return Done;
        }
        return Failed(RecordExists);
      }
      if k in pointers {
        return Failed(UniqueViolation);
      }
      configs := configs[k := ConfigRow(body, false)];
      versions := versions + [VersionRow(k, 1, Action.Create, now, body, false)];
      pointers := pointers[k := PointerRow(1, false)];
      out := Done;
    }

    method Update(k: Key, body: Body, now: int) returns (out: Outcome)
      modifies this
      ensures (Contents(), out) == ApplyUpdate(old(Contents()), revisionHistoryLimit, k, body, now)
    {
      if k in configs && !configs[k].deleted {
        configs := configs[k := ConfigRow(body, false)];
      }
      var latest := LatestByName(versions, k.name);
      var version := if latest.Some? then latest.value.version + 1 else 1;
      if latest.Some? && latest.value.version > 0 && latest.value.body == body {
        return Done;
      }
      versions := versions + [VersionRow(k, version, Action.Update, now, body, false)];
      pointers := UpsertPointer(pointers, k, version);
      PruneOldVersions(k);
      out := Done;
    }

    /** The rows past the limit are collected first and then soft-deleted one by one. */
    method PruneOldVersions(k: Key)
      modifies this`versions
      ensures versions == Prune(old(versions), k, revisionHistoryLimit)
    {
      if revisionHistoryLimit > 0 {
        var all: set<int> := set i | 0 <= i < |versions| && Pruned(versions, k, revisionHistoryLimit, versions[i]);
        var toDelete := all;
        while toDelete != {}
          invariant toDelete <= all
          invariant |versions| == |old(versions)|
          invariant forall i :: 0 <= i < |versions| ==>
                      versions[i] == if i in all && i !in toDelete then old(versions)[i].(deleted := true)
                                     else old(versions)[i]
          decreases |toDelete|
        {
          var i :| i in toDelete;
          versions := versions[i := versions[i].(deleted := true)];
          toDelete := toDelete - {i};
        }
      }
    }

    method Delete(k: Key, now: int) returns (out: Outcome)
      modifies this
      ensures (Contents(), out) == ApplyDelete(old(Contents()), k, now)
    {
      if k !in configs || configs[k].deleted {
        return Failed(RecordNotFound);
      }
      var version := MaxVersion(versions, k) + 1;
      versions := versions + [VersionRow(k, version, Action.Delete, now, configs[k].body, false)];
      pointers := UpsertPointer(pointers, k, version);
      pointers := pointers[k := pointers[k].(deleted := true)];
      configs := configs[k := configs[k].(deleted := true)];
      assert pointers == old(pointers)[k := PointerRow(version, true)];
      out := Done;
    }

    method SetActiveVersion(k: Key, v: int, now: int) returns (out: Outcome)
      modifies this
      ensures (Contents(), out) == ApplySetActive(old(Contents()), k, v, now)
    {
      var found := FindVersion(versions, k, v);
      if found.None? {
        return Failed(VersionNotFound);
      }
      var version := MaxVersion(versions, k) + 1;
      versions := versions + [VersionRow(k, version, Action.Revert, now, found.value.body, false)];
      configs := configs[k := ConfigRow(found.value.body, false)];
      pointers := UpsertPointer(pointers, k, version);
      out := Done;
    }

    method DeleteVersion(k: Key, v: int) returns (out: Outcome)
      modifies this
      ensures (Contents(), out) == ApplyDeleteVersion(old(Contents()), k, v)
    {
      if k in pointers && !pointers[k].deleted && pointers[k].version == v {
        return Failed(ActiveVersion);
      }
      versions := SoftDelete(versions, k, v);
      out := Done;
    }

    /** A query promises no order. */
    method List() returns (listed: seq<Config>)
      ensures Enumerates(listed, LiveConfigs(Contents()))
    {
      listed := [];
      var rest := configs.Keys;
      while rest != {}
        invariant rest <= configs.Keys
        invariant forall i, j :: 0 <= i < j < |listed| ==> listed[i].key != listed[j].key
        invariant forall i :: 0 <= i < |listed| ==> listed[i].key !in rest
        invariant forall c :: c in listed <==>
                    c.key in configs && c.key !in rest && !configs[c.key].deleted && configs[c.key].body == c.body
        decreases |rest|
      {
        var k :| k in rest;
        rest := rest - {k};
        if !configs[k].deleted {
          listed := listed + [Config(k, configs[k].body)];
        }
      }
    }

    method ListUpdated(since: int) returns (changes: seq<Change>)
      ensures changes == UpdatedSince(versions, since)
    {
      changes := [];
      for i := 0 to |versions|
        invariant changes == UpdatedSince(versions[..i], since)
      {
        var r := versions[i];
        assert versions[..i + 1][..i] == versions[..i];
        if !r.deleted && r.createdAt > since {
          changes := changes + [Change(Config(r.key, r.body), r.action == Action.Delete)];
        }
      }
      assert versions[..|versions|] == versions;
    }
  }

  /** `listed` holds every entry of the map exactly once. */
  ghost predicate Enumerates(listed: seq<Config>, m: map<Key, Body>) {
    && (forall i, j :: 0 <= i < j < |listed| ==> listed[i].key != listed[j].key)
    && (forall c :: c in listed <==> c.key in m && m[c.key] == c.body)
  }
}
