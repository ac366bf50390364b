/** What every run of store operations keeps: the newest version row of a configuration tells its live content,
    and the active pointer tells the newest version. */
module StoreHistory {
  import opened Options
  import opened ConfigModel
  import opened VersionStore

  /** The index of the newest row of a key, soft-deleted rows included; -1 when the key was never logged. */
  function TopIndex(rows: seq<VersionRow>, k: Key): (i: int)
    ensures -1 <= i < |rows|
    ensures i >= 0 ==> rows[i].key == k
    ensures forall j :: i < j < |rows| ==> rows[j].key != k
  {
    if rows == [] then -1
    else if rows[|rows| - 1].key == k then |rows| - 1
    else TopIndex(rows[..|rows| - 1], k)
  }

  /** Rows are logged in time order, and the numbers ever issued to a key strictly increase. */
  ghost predicate Ordered(rows: seq<VersionRow>) {
    && (forall i :: 0 <= i < |rows| ==> rows[i].version >= 1)
    && (forall i, j :: 0 <= i < j < |rows| ==> rows[i].createdAt < rows[j].createdAt)
    && (forall i, j :: 0 <= i < j < |rows| && rows[i].key == rows[j].key ==> rows[i].version < rows[j].version)
  }

  /** The newest row of a key was never pruned or deleted; it is a Delete row exactly when the configuration
      is deleted, and otherwise carries the live body. */
  ghost predicate KeyLogged(t: Tables, k: Key) {
    var i := TopIndex(t.versions, k);
    if i < 0 then k !in t.configs
    else
      && k in t.configs
      && !t.versions[i].deleted
      && (t.configs[k].deleted <==> t.versions[i].action == Delete)
      && (!t.configs[k].deleted ==> t.configs[k].body == t.versions[i].body)
  }

  ghost predicate LogInv(t: Tables) {
    Ordered(t.versions) && forall k :: KeyLogged(t, k)
  }

  /** The pointer of a live configuration is live and holds the highest number issued. */
  ghost predicate PointerOk(t: Tables, k: Key) {
    && (k in t.pointers <==> k in t.configs)
    && (k in t.configs ==>
          && t.pointers[k].deleted == t.configs[k].deleted
          && (!t.configs[k].deleted ==>
                var i := TopIndex(t.versions, k);
                i >= 0 && t.pointers[k].version == t.versions[i].version))
  }

  ghost predicate StoreInv(t: Tables) {
    LogInv(t) && forall k :: PointerOk(t, k)
  }

  ghost predicate Later(t: Tables, now: int) {
    forall i :: 0 <= i < |t.versions| ==> t.versions[i].createdAt < now
  }

  // ---- When an operation keeps the log and the live table in step ----

  /** Checkable before the call: an update must log what it writes to the live table, and nothing else;
      a version may be deleted unless it is the newest and no live pointer guards it. */
  predicate LogSafe(t: Tables, op: Op) {
    match op
    case OpUpdate(k, body) =>
      if Live(t, k) then SkipsVersion(t, k, body) ==> t.configs[k].body == body
      else SkipsVersion(t, k, body)
    case OpDeleteVersion(k, v) =>
      var i := TopIndex(t.versions, k);
      i >= 0 && t.versions[i].version == v ==> Guarded(t, k, v)
    case _ => true
  }

  predicate StoreSafe(t: Tables, op: Op) {
    && LogSafe(t, op)
    && match op
       case OpSetActive(k, v) => Live(t, k) || FindVersion(t.versions, k, v).None?
       case _ => true
  }

  // ---- Facts about the queries ----

  lemma {:induction false} MaxVersionBounds(rows: seq<VersionRow>, k: Key, bound: int)
    requires bound >= 0
    requires forall i :: 0 <= i < |rows| && rows[i].key == k ==> rows[i].version <= bound
    ensures 0 <= MaxVersion(rows, k) <= bound
    ensures forall i :: 0 <= i < |rows| && rows[i].key == k && !rows[i].deleted ==>
              rows[i].version <= MaxVersion(rows, k)
  {
    if rows == [] {
    } else {
      var n := |rows| - 1;
      MaxVersionBounds(rows[..n], k, bound);
      forall i | 0 <= i < |rows| && rows[i].key == k && !rows[i].deleted
        ensures rows[i].version <= MaxVersion(rows, k)
      {
        if i < n {
          assert rows[..n][i] == rows[i];
        }
      }
    }
  }

  /** The number the store computes with MAX is the number of the newest row. */
  lemma MaxVersionIsTop(t: Tables, k: Key)
    requires LogInv(t)
    ensures var i := TopIndex(t.versions, k);
            MaxVersion(t.versions, k) == if i < 0 then 0 else t.versions[i].version
  {
    var i := TopIndex(t.versions, k);
    assert KeyLogged(t, k);
    MaxVersionBounds(t.versions, k, if i < 0 then 0 else t.versions[i].version);
  }

  lemma {:induction false} LatestByNameBounds(rows: seq<VersionRow>, name: string)
    ensures var l := LatestByName(rows, name);
            && (l.Some? ==> l.value in rows && l.value.key.name == name && !l.value.deleted)
            && forall i :: 0 <= i < |rows| && rows[i].key.name == name && !rows[i].deleted ==>
                 l.Some? && rows[i].version <= l.value.version
  {
    if rows == [] {
    } else {
      var n := |rows| - 1;
      LatestByNameBounds(rows[..n], name);
      assert rows == rows[..n] + [rows[n]];
    }
  }

  lemma {:induction false} NoNewerRows(rows: seq<VersionRow>, k: Key, v: int)
    requires forall i :: 0 <= i < |rows| && rows[i].key == k ==> rows[i].version <= v
    ensures NewerRows(rows, k, v) == 0
  {
    if rows == [] {
    } else {
      NoNewerRows(rows[..|rows| - 1], k, v);
    }
  }

  lemma TopOfAppend(rows: seq<VersionRow>, r: VersionRow, k: Key)
    ensures TopIndex(rows + [r], k) == if r.key == k then |rows| else TopIndex(rows, k)
  {
    var all := rows + [r];
    assert all[|rows|] == r;
    assert all[..|rows|] == rows;
  }

  lemma TopOfSameKeys(rows: seq<VersionRow>, rows': seq<VersionRow>, k: Key)
    requires |rows| == |rows'| && forall i :: 0 <= i < |rows| ==> rows[i].key == rows'[i].key
    ensures TopIndex(rows, k) == TopIndex(rows', k)
  {
    var i, j := TopIndex(rows, k), TopIndex(rows', k);
    assert i >= 0 ==> rows'[i].key == k;
    assert j >= 0 ==> rows[j].key == k;
  }

  // ---- One step ----

  lemma TopsAfterAppend(rows: seq<VersionRow>, r: VersionRow, limit: int, k: Key)
    ensures TopIndex(Prune(rows + [r], r.key, limit), k) == if k == r.key then |rows| else TopIndex(rows, k)
  {
    TopOfAppend(rows, r, k);
    TopOfSameKeys(rows + [r], Prune(rows + [r], r.key, limit), k);
  }

  lemma AppendKeepsOrder(rows: seq<VersionRow>, r: VersionRow, limit: int)
    requires Ordered(rows) && r.version >= 1 && forall i :: 0 <= i < |rows| ==> rows[i].createdAt < r.createdAt
    requires forall i :: 0 <= i < |rows| && rows[i].key == r.key ==> rows[i].version < r.version
    ensures Ordered(Prune(rows + [r], r.key, limit))
  {
  }

  /** The newest row itself is never pruned. */
  lemma AppendedRowStays(rows: seq<VersionRow>, r: VersionRow, limit: int)
    requires !r.deleted && forall i :: 0 <= i < |rows| && rows[i].key == r.key ==> rows[i].version < r.version
    ensures Prune(rows + [r], r.key, limit)[|rows|] == r
  {
    var all := rows + [r];
    NoNewerRows(all, r.key, r.version);
    assert all[|rows|] == r;
  }

  lemma OtherKeyStaysLogged(t: Tables, t': Tables, r: VersionRow, limit: int, k: Key)
    requires KeyLogged(t, k) && k != r.key && t'.versions == Prune(t.versions + [r], r.key, limit)
    requires (k in t.configs <==> k in t'.configs) && (k in t.configs ==> t.configs[k] == t'.configs[k])
    ensures KeyLogged(t', k)
  {
    TopsAfterAppend(t.versions, r, limit, k);
  }

  /** Logging a row above every earlier one of its key, and pruning: the other keys keep their state,
      and the row's own key is logged exactly when the live table agrees with the row. */
  lemma AppendedRow(t: Tables, t': Tables, r: VersionRow, limit: int)
    requires LogInv(t) && Later(t, r.createdAt) && !r.deleted && r.version >= 1
    requires forall i :: 0 <= i < |t.versions| && t.versions[i].key == r.key ==> t.versions[i].version < r.version
    requires t'.versions == Prune(t.versions + [r], r.key, limit)
    requires forall k :: k != r.key ==> (k in t.configs <==> k in t'.configs)
    requires forall k :: k != r.key && k in t.configs ==> t.configs[k] == t'.configs[k]
    ensures forall k :: TopIndex(t'.versions, k) == if k == r.key then |t.versions| else TopIndex(t.versions, k)
    ensures t'.versions[|t.versions|] == r
    ensures LogInv(t') <==>
            && r.key in t'.configs
            && (t'.configs[r.key].deleted <==> r.action == Delete)
            && (!t'.configs[r.key].deleted ==> t'.configs[r.key].body == r.body)
  {
    AppendKeepsOrder(t.versions, r, limit);
    AppendedRowStays(t.versions, r, limit);
    forall k ensures TopIndex(t'.versions, k) == if k == r.key then |t.versions| else TopIndex(t.versions, k) {
      TopsAfterAppend(t.versions, r, limit, k);
    }
    forall k | k != r.key ensures KeyLogged(t', k) {
      OtherKeyStaysLogged(t, t', r, limit, k);
    }
    assert LogInv(t') <==> KeyLogged(t', r.key);
  }

  /** A number above every row of the key, however it was found. */
  lemma NextNumbersAreFresh(t: Tables, k: Key)
    requires LogInv(t)
    ensures forall i :: 0 <= i < |t.versions| && t.versions[i].key == k ==>
              t.versions[i].version <= MaxVersion(t.versions, k) && t.versions[i].version < NextByName(t, k)
    ensures MaxVersion(t.versions, k) >= 0 && NextByName(t, k) >= 1
  {
    MaxVersionIsTop(t, k);
    LatestByNameBounds(t.versions, k.name);
    assert KeyLogged(t, k);
    var top := TopIndex(t.versions, k);
    forall i | 0 <= i < |t.versions| && t.versions[i].key == k
      ensures t.versions[i].version <= MaxVersion(t.versions, k) && t.versions[i].version < NextByName(t, k)
    {
      assert i <= top;
      if i < top {
        assert t.versions[i].version < t.versions[top].version;
      }
    }
  }

  lemma UpdateStep(t: Tables, limit: int, k: Key, body: Body, now: int)
    requires LogInv(t) && Later(t, now)
    ensures LogInv(ApplyUpdate(t, limit, k, body, now).0) <==> LogSafe(t, OpUpdate(k, body))
  {
    var t' := ApplyUpdate(t, limit, k, body, now).0;
    NextNumbersAreFresh(t, k);
    if SkipsVersion(t, k, body) {
      assert KeyLogged(t, k);
      forall q | q != k ensures KeyLogged(t', q) {
        assert KeyLogged(t, q);
      }
      assert KeyLogged(t', k) <==> LogSafe(t, OpUpdate(k, body));
    } else {
      AppendedRow(t, t', VersionRow(k, NextByName(t, k), Update, now, body, false), limit);
      assert KeyLogged(t, k);
    }
  }

  lemma DeleteVersionStep(t: Tables, k: Key, v: int)
    requires LogInv(t)
    ensures LogInv(ApplyDeleteVersion(t, k, v).0) <==> LogSafe(t, OpDeleteVersion(k, v))
  {
    var t' := ApplyDeleteVersion(t, k, v).0;
    if !Guarded(t, k, v) {
      forall q ensures TopIndex(t.versions, q) == TopIndex(t'.versions, q) && (q != k ==> KeyLogged(t', q)) {
        TopOfSameKeys(t.versions, t'.versions, q);
        assert KeyLogged(t, q);
      }
      assert KeyLogged(t, k);
      assert KeyLogged(t', k) <==> LogSafe(t, OpDeleteVersion(k, v));
    }
  }

  lemma CreateStep(t: Tables, k: Key, body: Body, now: int)
    requires LogInv(t) && Later(t, now)
    ensures LogInv(ApplyCreate(t, k, body, now).0)
  {
    var t' := ApplyCreate(t, k, body, now).0;
    NextNumbersAreFresh(t, k);
    MaxVersionIsTop(t, k);
    assert KeyLogged(t, k);
    if t'.versions != t.versions {
      AppendedRow(t, t', VersionRow(k, MaxVersion(t.versions, k) + 1, Create, now, body, false), 0);
    }
  }

  lemma DeleteStep(t: Tables, k: Key, now: int)
    requires LogInv(t) && Later(t, now)
    ensures LogInv(ApplyDelete(t, k, now).0)
  {
    NextNumbersAreFresh(t, k);
    if Live(t, k) {
      var row := VersionRow(k, MaxVersion(t.versions, k) + 1, Delete, now, t.configs[k].body, false);
      AppendedRow(t, ApplyDelete(t, k, now).0, row, 0);
    }
  }

  lemma SetActiveStep(t: Tables, k: Key, v: int, now: int)
    requires LogInv(t) && Later(t, now)
    ensures LogInv(ApplySetActive(t, k, v, now).0)
  {
    NextNumbersAreFresh(t, k);
    var found := FindVersion(t.versions, k, v);
    if found.Some? {
      var row := VersionRow(k, MaxVersion(t.versions, k) + 1, Revert, now, found.value.body, false);
      AppendedRow(t, ApplySetActive(t, k, v, now).0, row, 0);
    }
  }

  /** Exactly the safe operations keep the log telling the live content of every configuration. */
  lemma StepKeepsLog(t: Tables, limit: int, op: Op, now: int)
    requires LogInv(t) && Later(t, now)
    ensures LogInv(Apply(t, limit, op, now)) <==> LogSafe(t, op)
  {
    match op {
      case OpCreate(k, body) => CreateStep(t, k, body, now);
      case OpUpdate(k, body) => UpdateStep(t, limit, k, body, now);
      case OpDelete(k) => DeleteStep(t, k, now);
      case OpSetActive(k, v) => SetActiveStep(t, k, v, now);
      case OpDeleteVersion(k, v) => DeleteVersionStep(t, k, v);
    }
  }

  /** The row an operation logs, if any. */
  function LoggedRow(t: Tables, op: Op, now: int): Option<VersionRow> {
    match op
    case OpCreate(k, body) =>
      if (k in t.configs && !t.configs[k].deleted) || (k !in t.configs && k in t.pointers) then None
      else Some(VersionRow(k, if k in t.configs then MaxVersion(t.versions, k) + 1 else 1, Create, now, body, false))
    case OpUpdate(k, body) =>
      if SkipsVersion(t, k, body) then None else Some(VersionRow(k, NextByName(t, k), Update, now, body, false))
    case OpDelete(k) =>
      if !Live(t, k) then None
      else Some(VersionRow(k, MaxVersion(t.versions, k) + 1, Delete, now, t.configs[k].body, false))
    case OpSetActive(k, v) =>
      var row := FindVersion(t.versions, k, v);
      if row.None? then None
      else Some(VersionRow(k, MaxVersion(t.versions, k) + 1, Revert, now, row.value.body, false))
    case OpDeleteVersion(_, _) => None
  }

  /** The log only grows: an operation appends at most one row and changes nothing but deletion marks in the others. */
  lemma StepRows(t: Tables, limit: int, op: Op, now: int)
    ensures var t', row := Apply(t, limit, op, now), LoggedRow(t, op, now);
            && |t'.versions| == |t.versions| + (if row.Some? then 1 else 0)
            && (forall i :: 0 <= i < |t.versions| ==>
                  t'.versions[i] == t.versions[i].(deleted := t'.versions[i].deleted))
            && (row.Some? ==> row.value.createdAt == now
                              && t'.versions[|t.versions|] == row.value.(deleted := t'.versions[|t.versions|].deleted))
            && forall k :: TopIndex(t'.versions, k) ==
                             if row.Some? && row.value.key == k then |t.versions| else TopIndex(t.versions, k)
  {
    var t', row := Apply(t, limit, op, now), LoggedRow(t, op, now);
    forall k ensures TopIndex(t'.versions, k) ==
                       if row.Some? && row.value.key == k then |t.versions| else TopIndex(t.versions, k)
    {
      if row.Some? {
        TopOfAppend(t.versions, row.value, k);
        TopOfSameKeys(t.versions + [row.value], t'.versions, k);
      } else {
        TopOfSameKeys(t.versions, t'.versions, k);
      }
    }
  }

  /** An operation touches the rows of its own key only. */
  lemma OtherKeysUntouched(t: Tables, limit: int, op: Op, now: int, k: Key)
    requires k != op.key
    ensures var t' := Apply(t, limit, op, now);
            && (k in t'.configs <==> k in t.configs) && (k in t.configs ==> t'.configs[k] == t.configs[k])
            && (k in t'.pointers <==> k in t.pointers) && (k in t.pointers ==> t'.pointers[k] == t.pointers[k])
  {
  }

  lemma PointerStepElsewhere(t: Tables, limit: int, op: Op, now: int, k: Key)
    requires StoreInv(t) && k != op.key
    ensures PointerOk(Apply(t, limit, op, now), k)
  {
    StepRows(t, limit, op, now);
    OtherKeysUntouched(t, limit, op, now, k);
    assert PointerOk(t, k);
  }

  lemma PointerStepHere(t: Tables, limit: int, op: Op, now: int)
    requires StoreInv(t) && LogSafe(t, op)
    ensures PointerOk(Apply(t, limit, op, now), op.key) <==> StoreSafe(t, op)
  {
    var k := op.key;
    var t' := Apply(t, limit, op, now);
    StepRows(t, limit, op, now);
    assert KeyLogged(t, k) && PointerOk(t, k);
    var row := LoggedRow(t, op, now);
    assert TopIndex(t'.versions, k) == if row.Some? then |t.versions| else TopIndex(t.versions, k);
    match op {
      case OpCreate(_, body) =>
      case OpUpdate(_, body) =>
      case OpDelete(_) =>
      case OpSetActive(_, v) =>
      case OpDeleteVersion(_, v) =>
    }
  }

  /** Exactly the safe operations keep the log, the live table and the pointers in step. */
  lemma StepKeepsStore(t: Tables, limit: int, op: Op, now: int)
    requires StoreInv(t) && Later(t, now)
    ensures StoreInv(Apply(t, limit, op, now)) <==> StoreSafe(t, op)
  {
    var t' := Apply(t, limit, op, now);
    StepKeepsLog(t, limit, op, now);
    if LogSafe(t, op) {
      forall k | k != op.key ensures PointerOk(t', k) {
        PointerStepElsewhere(t, limit, op, now, k);
      }
      PointerStepHere(t, limit, op, now);
    }
  }

  // ---- Runs ----

  datatype TimedOp = TimedOp(op: Op, at: int)

  function RunStore(limit: int, ops: seq<TimedOp>): Tables {
    if ops == [] then EmptyTables
    else
      var n := |ops| - 1;
      Apply(RunStore(limit, ops[..n]), limit, ops[n].op, ops[n].at)
  }

  ghost predicate DistinctlyTimed(ops: seq<TimedOp>) {
    forall i, j :: 0 <= i < j < |ops| ==> ops[i].at < ops[j].at
  }

  lemma {:induction false} RunIsBefore(limit: int, ops: seq<TimedOp>, now: int)
    requires forall i :: 0 <= i < |ops| ==> ops[i].at < now
    ensures Later(RunStore(limit, ops), now)
  {
    if ops == [] {
    } else {
      var n := |ops| - 1;
      RunIsBefore(limit, ops[..n], now);
      StepRows(RunStore(limit, ops[..n]), limit, ops[n].op, ops[n].at);
    }
  }

  lemma RunSnoc(limit: int, ops: seq<TimedOp>, last: TimedOp)
    ensures RunStore(limit, ops + [last]) == Apply(RunStore(limit, ops), limit, last.op, last.at)
  {
    assert (ops + [last])[..|ops|] == ops;
  }

  ghost predicate AlwaysInStep(limit: int, ops: seq<TimedOp>) {
    forall n :: 0 <= n <= |ops| ==> StoreInv(RunStore(limit, ops[..n]))
  }

  ghost predicate AlwaysSafe(limit: int, ops: seq<TimedOp>) {
    forall n :: 0 <= n < |ops| ==> StoreSafe(RunStore(limit, ops[..n]), ops[n].op)
  }

  lemma AlwaysSnoc(limit: int, ops: seq<TimedOp>, last: TimedOp)
    ensures AlwaysInStep(limit, ops + [last]) <==>
            AlwaysInStep(limit, ops) && StoreInv(RunStore(limit, ops + [last]))
    ensures AlwaysSafe(limit, ops + [last]) <==>
            AlwaysSafe(limit, ops) && StoreSafe(RunStore(limit, ops), last.op)
  {
    var all := ops + [last];
    assert all[..|all|] == all;
    assert forall n :: 0 <= n <= |ops| ==> all[..n] == ops[..n];
    assert ops[..|ops|] == ops;
    assert all[..|ops|] == ops;
    assert AlwaysSafe(limit, all) ==> StoreSafe(RunStore(limit, all[..|ops|]), all[|ops|].op);
    assert AlwaysInStep(limit, all) ==> StoreInv(RunStore(limit, all[..|all|]));
    assert forall n :: 0 <= n < |ops| ==> ops[n] == all[n];
  }

  lemma LastStepDecides(limit: int, before: seq<TimedOp>, last: TimedOp)
    requires StoreInv(RunStore(limit, before)) && forall i :: 0 <= i < |before| ==> before[i].at < last.at
    ensures StoreInv(RunStore(limit, before + [last])) <==> StoreSafe(RunStore(limit, before), last.op)
  {
    RunSnoc(limit, before, last);
    RunIsBefore(limit, before, last.at);
    StepKeepsStore(RunStore(limit, before), limit, last.op, last.at);
  }

  lemma EmptyInStep(limit: int)
    ensures AlwaysInStep(limit, []) && AlwaysSafe(limit, [])
  {
    assert forall k :: KeyLogged(EmptyTables, k) && PointerOk(EmptyTables, k);
  }

  /** Over every run from an empty database: the tables are in step after each operation
      if and only if each operation was safe when it ran. */
  lemma {:induction false} StoreInvExactlyForSafeRuns(limit: int, ops: seq<TimedOp>)
    requires DistinctlyTimed(ops)
    ensures AlwaysInStep(limit, ops) <==> AlwaysSafe(limit, ops)
  {
    if ops == [] {
      EmptyInStep(limit);
    } else {
      var before, last := ops[..|ops| - 1], ops[|ops| - 1];
      StoreInvExactlyForSafeRuns(limit, before);
      AlwaysSnoc(limit, before, last);
      if AlwaysInStep(limit, before) {
        assert before[..|before|] == before;
        LastStepDecides(limit, before, last);
      }
      assert ops == before + [last];
    }
  }

  /** For a live configuration the pointer holds the highest number ever issued; that row is neither pruned nor
      deleted and carries the live body. A deleted configuration's highest row is a Delete row. */
  lemma PointerNamesNewestRow(t: Tables, k: Key)
    requires StoreInv(t) && k in t.configs
    ensures exists i :: 0 <= i < |t.versions| &&
              var r := t.versions[i];
              && r.key == k && !r.deleted
              && (forall j :: 0 <= j < |t.versions| && t.versions[j].key == k && j != i ==>
                    t.versions[j].version < r.version)
              && (Live(t, k) ==> r.body == t.configs[k].body && Guarded(t, k, r.version))
              && (!Live(t, k) ==> r.action == Delete)
  {
    assert KeyLogged(t, k) && PointerOk(t, k);
    var i := TopIndex(t.versions, k);
    assert t.versions[i].key == k;
  }

  /** What the API server's handlers let through one at a time: they look the configuration up first, and
      names are unique across tenants. No handler deletes versions. */
  ghost predicate HandlerAllows(t: Tables, op: Op) {
    match op
    case OpUpdate(k, _) =>
      Live(t, k) && forall i :: 0 <= i < |t.versions| && t.versions[i].key.name == k.name ==> t.versions[i].key == k
    case OpSetActive(k, _) => Live(t, k)
    case OpDeleteVersion(_, _) => false
    case _ => true
  }

  lemma HandlersAreSafe(t: Tables, op: Op)
    requires StoreInv(t) && HandlerAllows(t, op)
    ensures StoreSafe(t, op)
  {
    assert KeyLogged(t, op.key) && PointerOk(t, op.key);
    if op.OpUpdate? && SkipsVersion(t, op.key, op.body) {
      LatestByNameBounds(t.versions, op.key.name);
      var latest := LatestByName(t.versions, op.key.name).value;
      var i :| 0 <= i < |t.versions| && t.versions[i] == latest;
      var top := TopIndex(t.versions, op.key);
      assert i == top;
    }
  }

  // ---- Where the safety conditions bite ----

  const NoBody := Body([], [], [], [], "")

  const OtherBody := Body([Router("s", "/p", "")], [HttpServer("s", [], "")], [], [], "")

  const FirstTenant := Key("t1", "n")

  const SecondTenant := Key("t2", "n")

  const Creation := TimedOp(OpCreate(FirstTenant, OtherBody), 1)

  const SecondCreation := TimedOp(OpCreate(SecondTenant, NoBody), 2)

  const Retirement := TimedOp(OpDelete(FirstTenant), 2)

  const SharedNameRun := [Creation, SecondCreation]

  const RetiredRun := [Creation, Retirement]

  const FirstRow := VersionRow(FirstTenant, 1, Create, 1, OtherBody, false)

  lemma RunOfTwo(x: TimedOp, y: TimedOp)
    ensures RunStore(0, [x, y]) == Apply(Apply(EmptyTables, 0, x.op, x.at), 0, y.op, y.at)
  {
    RunSnoc(0, [], x);
    RunSnoc(0, [x], y);
    assert [] + [x] == [x] && [x] + [y] == [x, y];
  }

  lemma FirstCreation(t: Tables, k: Key, body: Body, now: int)
    requires k !in t.configs && k !in t.pointers
    ensures var t' := Apply(t, 0, OpCreate(k, body), now);
            && t'.configs == t.configs[k := ConfigRow(body, false)]
            && t'.versions == t.versions + [VersionRow(k, 1, Create, now, body, false)]
            && t'.pointers == t.pointers[k := PointerRow(1, false)]
  {
  }

  lemma Deletion(t: Tables, k: Key, now: int)
    requires Live(t, k)
    ensures var t' := Apply(t, 0, OpDelete(k), now);
            && t'.configs == t.configs[k := ConfigRow(t.configs[k].body, true)]
            && t'.versions ==
               t.versions + [VersionRow(k, MaxVersion(t.versions, k) + 1, Delete, now, t.configs[k].body, false)]
  {
  }

  lemma CreatedTables()
    ensures var t := Apply(EmptyTables, 0, Creation.op, Creation.at);
            && t.configs == map[FirstTenant := ConfigRow(OtherBody, false)]
            && t.pointers == map[FirstTenant := PointerRow(1, false)]
            && t.versions == [FirstRow]
  {
    FirstCreation(EmptyTables, FirstTenant, OtherBody, 1);
  }

  lemma NewestOfFirstRow()
    ensures MaxVersion([FirstRow], FirstTenant) == 1 && LatestByName([FirstRow], "n") == Some(FirstRow)
  {
    assert [FirstRow][..0] == [];
  }

  /** Creating and deleting configurations is always safe. */
  lemma PlainRunInStep(limit: int, ops: seq<TimedOp>)
    requires DistinctlyTimed(ops) && forall o :: o in ops ==> o.op.OpCreate? || o.op.OpDelete?
    ensures StoreInv(RunStore(limit, ops))
  {
    forall n | 0 <= n < |ops| ensures StoreSafe(RunStore(limit, ops[..n]), ops[n].op) {
      assert ops[n] in ops;
    }
    StoreInvExactlyForSafeRuns(limit, ops);
    assert ops[..|ops|] == ops;
  }

  lemma SharedNameTables()
    ensures var t := RunStore(0, SharedNameRun);
            && t.configs == map[FirstTenant := ConfigRow(OtherBody, false)][SecondTenant := ConfigRow(NoBody, false)]
            && t.versions == [FirstRow] + [VersionRow(SecondTenant, 1, Create, 2, NoBody, false)]
  {
    CreatedTables();
    RunOfTwo(Creation, SecondCreation);
    FirstCreation(Apply(EmptyTables, 0, Creation.op, Creation.at), SecondTenant, NoBody, 2);
  }

  /** Two tenants use one name. The second tenant's update is taken for a repetition of the first tenant's
      content: the live row changes and nothing is logged. */
  lemma SharedNameLosesUpdate()
    ensures var t := RunStore(0, SharedNameRun);
            var t' := Apply(t, 0, OpUpdate(SecondTenant, OtherBody), 3);
            && StoreInv(t) && !LogInv(t')
            && Live(t, SecondTenant) && t.configs[SecondTenant].body == NoBody
            && Live(t', SecondTenant) && t'.configs[SecondTenant].body == OtherBody
            && t'.versions == t.versions
  {
    var t := RunStore(0, SharedNameRun);
    PlainRunInStep(0, SharedNameRun);
    RunIsBefore(0, SharedNameRun, 3);
    SharedNameTables();
    NewestOfFirstRow();
    assert t.versions[..1] == [FirstRow];
    assert LatestByName(t.versions, "n") == Some(FirstRow);
    StepKeepsLog(t, 0, OpUpdate(SecondTenant, OtherBody), 3);
  }

  /** Reverting a deleted configuration revives it but leaves its pointer soft-deleted, so the row that is
      now live can be deleted. */
  lemma RevivedConfigIsUnguarded(t: Tables, limit: int, k: Key, v: int, now: int)
    requires StoreInv(t) && Later(t, now)
    requires k in t.configs && t.configs[k].deleted && FindVersion(t.versions, k, v).Some?
    ensures var t' := Apply(t, limit, OpSetActive(k, v), now);
            var top := MaxVersion(t.versions, k) + 1;
            && Live(t', k) && LogInv(t') && !StoreInv(t')
            && ApplyDeleteVersion(t', k, top).1 == Done
            && !LogInv(Apply(t', limit, OpDeleteVersion(k, top), now))
  {
    var op := OpSetActive(k, v);
    var t' := Apply(t, limit, op, now);
    StepKeepsLog(t, limit, op, now);
    StepKeepsStore(t, limit, op, now);
    StepRows(t, limit, op, now);
    assert PointerOk(t, k);
    var top := MaxVersion(t.versions, k) + 1;
    DeleteVersionStep(t', k, top);
  }

  lemma RetiredTables()
    ensures var t := RunStore(0, RetiredRun);
            && t.configs == map[FirstTenant := ConfigRow(OtherBody, false)][FirstTenant := ConfigRow(OtherBody, true)]
            && t.versions == [FirstRow] + [VersionRow(FirstTenant, 2, Delete, 2, OtherBody, false)]
  {
    CreatedTables();
    RunOfTwo(Creation, Retirement);
    NewestOfFirstRow();
    Deletion(Apply(EmptyTables, 0, Creation.op, Creation.at), FirstTenant, 2);
  }

  lemma RetiredQueries()
    ensures var rows := RunStore(0, RetiredRun).versions;
            && MaxVersion(rows, FirstTenant) == 2
            && FindVersion(rows, FirstTenant, 1).Some?
            && LatestByName(rows, "n") == Some(VersionRow(FirstTenant, 2, Delete, 2, OtherBody, false))
  {
    RetiredTables();
    NewestOfFirstRow();
    var rows := RunStore(0, RetiredRun).versions;
    assert rows[..1] == [FirstRow] && rows[0] == FirstRow;
  }

  lemma RetiredFacts()
    ensures var t := RunStore(0, RetiredRun);
            && StoreInv(t) && Later(t, 3) && FirstTenant in t.configs && t.configs[FirstTenant].deleted
            && TopIndex(t.versions, FirstTenant) == 1 && t.versions[1].version == 2
  {
    PlainRunInStep(0, RetiredRun);
    RunIsBefore(0, RetiredRun, 3);
    RetiredTables();
  }

  /** Reverting a configuration that was created and deleted lets its live version be deleted afterwards. */
  lemma RevertOfRetiredConfig()
    ensures var t := RunStore(0, RetiredRun);
            var t' := Apply(t, 0, OpSetActive(FirstTenant, 1), 3);
            StoreInv(t) && Live(t', FirstTenant) && !StoreInv(t') &&
            !LogInv(Apply(t', 0, OpDeleteVersion(FirstTenant, 3), 3))
  {
    RetiredFacts();
    RetiredQueries();
    RevivedConfigIsUnguarded(RunStore(0, RetiredRun), 0, FirstTenant, 1, 3);
  }

  /** An update of a configuration that is not live, if logged at all, logs content that does not go live. */
  lemma UpdateOfDeadConfig(t: Tables, limit: int, k: Key, body: Body, now: int)
    requires LogInv(t) && Later(t, now) && !Live(t, k) && !SkipsVersion(t, k, body)
    ensures var t' := Apply(t, limit, OpUpdate(k, body), now);
            !Live(t', k) && |t'.versions| == |t.versions| + 1 && !LogInv(t')
  {
    StepKeepsLog(t, limit, OpUpdate(k, body), now);
    StepRows(t, limit, OpUpdate(k, body), now);
  }

  /** So does an update of the configuration that was created and deleted. */
  lemma UpdateOfRetiredConfig()
    ensures var t := RunStore(0, RetiredRun);
            var t' := Apply(t, 0, OpUpdate(FirstTenant, NoBody), 3);
            StoreInv(t) && !Live(t', FirstTenant) && |t'.versions| == |t.versions| + 1 && !LogInv(t')
  {
    RetiredFacts();
    RetiredQueries();
    UpdateOfDeadConfig(RunStore(0, RetiredRun), 0, FirstTenant, NoBody, 3);
  }

  /** The newest version of a deleted configuration can be deleted, and with it the Delete row. */
  lemma DeadConfigIsUnguarded(t: Tables, limit: int, k: Key, now: int)
    requires StoreInv(t) && Later(t, now) && k in t.configs && t.configs[k].deleted && TopIndex(t.versions, k) >= 0
    ensures var t' := Apply(t, limit, OpDeleteVersion(k, t.versions[TopIndex(t.versions, k)].version), now);
            !Live(t', k) && !LogInv(t')
  {
    assert PointerOk(t, k);
    StepKeepsLog(t, limit, OpDeleteVersion(k, t.versions[TopIndex(t.versions, k)].version), now);
  }

  /** So it is for the configuration that was created and deleted. */
  lemma DeletedVersionOfRetiredConfig()
    ensures var t := RunStore(0, RetiredRun);
            var t' := Apply(t, 0, OpDeleteVersion(FirstTenant, 2), 3);
            StoreInv(t) && !Live(t', FirstTenant) && !LogInv(t')
  {
    RetiredFacts();
    DeadConfigIsUnguarded(RunStore(0, RetiredRun), 0, FirstTenant, 3);
  }
}
