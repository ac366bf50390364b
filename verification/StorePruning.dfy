/** What pruning leaves: counted in rows and compared by version numbers, without ranking a single row
    (internal/mcp/storage/db.go). */
module StorePruning {
  import opened Options
  import opened ConfigModel
  import opened VersionStore
  import opened StoreHistory

  /** The indices of the rows of a key that are not soft-deleted. */
  function Undeleted(rows: seq<VersionRow>, k: Key): set<int> {
    set i | 0 <= i < |rows| && rows[i].key == k && !rows[i].deleted
  }

  /** The indices of the `m` newest rows of a key that are not soft-deleted. */
  ghost function Newest(rows: seq<VersionRow>, k: Key, m: nat): set<int> {
    if rows == [] || m == 0 then {}
    else
      var n := |rows| - 1;
      if rows[n].key == k && !rows[n].deleted then Newest(rows[..n], k, m - 1) + {n} else Newest(rows[..n], k, m)
  }

  lemma UndeletedSnoc(rows: seq<VersionRow>, k: Key)
    requires rows != []
    ensures var n := |rows| - 1;
            Undeleted(rows, k) ==
              Undeleted(rows[..n], k) + if rows[n].key == k && !rows[n].deleted then {n} else {}
  {
  }

  lemma {:induction false} NewestCount(rows: seq<VersionRow>, k: Key, m: nat)
    ensures Newest(rows, k, m) <= Undeleted(rows, k)
    ensures |Newest(rows, k, m)| == if m < |Undeleted(rows, k)| then m else |Undeleted(rows, k)|
  {
    if rows == [] || m == 0 {
    } else {
      var n := |rows| - 1;
      UndeletedSnoc(rows, k);
      NewestCount(rows[..n], k, if rows[n].key == k && !rows[n].deleted then m - 1 else m);
    }
  }

  lemma {:induction false} NewestAreNewest(rows: seq<VersionRow>, k: Key, m: nat)
    ensures forall i, j :: i in Newest(rows, k, m) && j in Undeleted(rows, k) && j !in Newest(rows, k, m) ==> j < i
  {
    if rows == [] || m == 0 {
    } else {
      var n := |rows| - 1;
      UndeletedSnoc(rows, k);
      NewestAreNewest(rows[..n], k, if rows[n].key == k && !rows[n].deleted then m - 1 else m);
      NewestCount(rows[..n], k, if rows[n].key == k && !rows[n].deleted then m - 1 else m);
    }
  }

  lemma {:induction false} NewestGrows(rows: seq<VersionRow>, k: Key, m: nat, l: nat)
    requires m <= l
    ensures Newest(rows, k, m) <= Newest(rows, k, l)
  {
    if rows == [] || m == 0 {
    } else {
      var n := |rows| - 1;
      if rows[n].key == k && !rows[n].deleted {
        NewestGrows(rows[..n], k, m - 1, l - 1);
      } else {
        NewestGrows(rows[..n], k, m, l);
      }
    }
  }

  /** Numbers grow along the rows of a key, so the offset of a row in version order counts the rows behind it. */
  lemma {:induction false} OffsetRanks(rows: seq<VersionRow>, k: Key, m: nat, i: int)
    requires Ordered(rows) && i in Undeleted(rows, k)
    ensures i in Newest(rows, k, m) <==> NewerRows(rows, k, rows[i].version) < m
  {
    var n := |rows| - 1;
    if m == 0 {
    } else if i == n {
      NoNewerRows(rows[..n], k, rows[n].version);
    } else {
      assert rows[..n][i] == rows[i];
      if rows[n].key == k && !rows[n].deleted {
        OffsetRanks(rows[..n], k, m - 1, i);
      } else {
        OffsetRanks(rows[..n], k, m, i);
      }
    }
  }

  lemma PruneLeaves(rows: seq<VersionRow>, k: Key, limit: int)
    requires Ordered(rows) && limit > 0
    ensures Undeleted(Prune(rows, k, limit), k) ==
              Newest(rows, k, limit) + (Undeleted(rows, k) - Newest(rows, k, limit + PRUNE_BATCH))
  {
    var left := Prune(rows, k, limit);
    NewestCount(rows, k, limit);
    forall i | i in Undeleted(rows, k)
      ensures i in Undeleted(left, k) <==> i in Newest(rows, k, limit) || i !in Newest(rows, k, limit + PRUNE_BATCH)
    {
      OffsetRanks(rows, k, limit, i);
      OffsetRanks(rows, k, limit + PRUNE_BATCH, i);
    }
  }

  /** Nothing but deletion marks changes, only rows of the key are marked, and no mark is taken back. */
  lemma PruneMarksOwnRows(rows: seq<VersionRow>, k: Key, limit: int)
    ensures var left := Prune(rows, k, limit);
            && |left| == |rows|
            && (forall i :: 0 <= i < |rows| ==> left[i] == rows[i].(deleted := left[i].deleted))
            && (forall i :: 0 <= i < |rows| && (rows[i].key != k || rows[i].deleted) ==> left[i] == rows[i])
            && Undeleted(left, k) <= Undeleted(rows, k)
  {
  }

  /** A limit that is not exceeded, or not positive, leaves the log as it was. */
  lemma PruneWithinLimit(rows: seq<VersionRow>, k: Key, limit: int)
    requires Ordered(rows) && (limit <= 0 || |Undeleted(rows, k)| <= limit)
    ensures Prune(rows, k, limit) == rows
  {
    if limit > 0 {
      PruneLeaves(rows, k, limit);
      NewestCount(rows, k, limit);
      SubsetOfSameSize(Newest(rows, k, limit), Undeleted(rows, k));
      var left := Prune(rows, k, limit);
      forall i | 0 <= i < |rows| ensures left[i] == rows[i] {
        assert i in Undeleted(rows, k) ==> i in Undeleted(left, k);
      }
    }
  }

  lemma SizeOfPart(a: set<int>, b: set<int>)
    requires a <= b
    ensures |b - a| == |b| - |a|
  {
    assert b == a + (b - a);
  }

  lemma SubsetOfSameSize(a: set<int>, b: set<int>)
    requires a <= b && |a| == |b|
    ensures a == b
  {
    SizeOfPart(a, b);
    assert b == a + (b - a);
  }

  /** A limit exceeded by at most one batch leaves exactly `limit` rows, each newer than every row marked. */
  lemma PruneToLimit(rows: seq<VersionRow>, k: Key, limit: int)
    requires Ordered(rows) && 0 < limit < |Undeleted(rows, k)| <= limit + PRUNE_BATCH
    ensures var kept := Undeleted(Prune(rows, k, limit), k);
            && |kept| == limit
            && forall i, j :: i in kept && j in Undeleted(rows, k) - kept ==> rows[i].version > rows[j].version
  {
    PruneLeaves(rows, k, limit);
    NewestCount(rows, k, limit);
    NewestCount(rows, k, limit + PRUNE_BATCH);
    NewestAreNewest(rows, k, limit);
    SubsetOfSameSize(Newest(rows, k, limit + PRUNE_BATCH), Undeleted(rows, k));
    assert Undeleted(Prune(rows, k, limit), k) == Newest(rows, k, limit);
  }

  lemma MarksOneBatch(rows: seq<VersionRow>, k: Key, limit: int)
    requires Ordered(rows) && 0 < limit && limit + PRUNE_BATCH < |Undeleted(rows, k)|
    ensures Undeleted(rows, k) - Undeleted(Prune(rows, k, limit), k) ==
              Newest(rows, k, limit + PRUNE_BATCH) - Newest(rows, k, limit)
    ensures |Undeleted(rows, k) - Undeleted(Prune(rows, k, limit), k)| == PRUNE_BATCH
  {
    var newer, upper := Newest(rows, k, limit), Newest(rows, k, limit + PRUNE_BATCH);
    NewestCount(rows, k, limit);
    NewestCount(rows, k, limit + PRUNE_BATCH);
    NewestGrows(rows, k, limit, limit + PRUNE_BATCH);
    SizeOfPart(newer, upper);
    assert Undeleted(rows, k) - Undeleted(Prune(rows, k, limit), k) == upper - newer by {
      PruneLeaves(rows, k, limit);
    }
  }

  /** A larger excess loses one batch: the newest `limit` rows stay, and of the others the newest are marked. */
  lemma PruneOneBatch(rows: seq<VersionRow>, k: Key, limit: int)
    requires Ordered(rows) && 0 < limit && limit + PRUNE_BATCH < |Undeleted(rows, k)|
    ensures var kept, newer := Undeleted(Prune(rows, k, limit), k), Newest(rows, k, limit);
            var marked := Undeleted(rows, k) - kept;
            && |marked| == PRUNE_BATCH
            && newer <= kept && |newer| == limit
            && (forall i, j :: i in newer && j in marked ==> rows[i].version > rows[j].version)
            && (forall i, j :: i in kept - newer && j in marked ==> rows[i].version < rows[j].version)
  {
    var kept, newer := Undeleted(Prune(rows, k, limit), k), Newest(rows, k, limit);
    var marked := Undeleted(rows, k) - kept;
    MarksOneBatch(rows, k, limit);
    NewestCount(rows, k, limit);
    PruneMarksOwnRows(rows, k, limit);
    assert newer <= kept;
    forall i, j | i in newer && j in marked ensures rows[i].version > rows[j].version {
      NewestAreNewest(rows, k, limit);
    }
    forall i, j | i in kept - newer && j in marked ensures rows[i].version < rows[j].version {
      NewestAreNewest(rows, k, limit + PRUNE_BATCH);
    }
  }

  /** The rows after an update has logged its own and before pruning. */
  function Logged(t: Tables, k: Key, body: Body, now: int): seq<VersionRow> {
    t.versions + [VersionRow(k, NextByName(t, k), Update, now, body, false)]
  }

  /** An update that logs a row keeps every other row of the log but the oldest ones of its own key past the limit. */
  lemma UpdatePrunesToLimit(t: Tables, limit: int, k: Key, body: Body, now: int)
    requires LogInv(t) && Later(t, now) && !SkipsVersion(t, k, body)
    ensures var t' := Apply(t, limit, OpUpdate(k, body), now);
            var rows := Logged(t, k, body, now);
            var n, kept := |Undeleted(rows, k)|, Undeleted(t'.versions, k);
            && |t'.versions| == |rows|
            && (forall i :: 0 <= i < |rows| ==> t'.versions[i] == rows[i].(deleted := t'.versions[i].deleted))
            && (forall i :: 0 <= i < |rows| && (rows[i].key != k || rows[i].deleted) ==> t'.versions[i] == rows[i])
            && (limit <= 0 || n <= limit ==> t'.versions == rows)
            && (0 < limit < n <= limit + 1000 ==>
                  && |kept| == limit
                  && forall i, j :: i in kept && j in Undeleted(rows, k) - kept ==> rows[i].version > rows[j].version)
            && (0 < limit && limit + 1000 < n ==> |kept| == n - 1000)
  {
    var rows := Logged(t, k, body, now);
    NextNumbersAreFresh(t, k);
    AppendKeepsOrder(t.versions, rows[|t.versions|], 0);
    PruneMarksOwnRows(rows, k, limit);
    if limit <= 0 || |Undeleted(rows, k)| <= limit {
      PruneWithinLimit(rows, k, limit);
    } else if |Undeleted(rows, k)| <= limit + PRUNE_BATCH {
      PruneToLimit(rows, k, limit);
    } else {
      PruneOneBatch(rows, k, limit);
      SizeOfPart(Undeleted(Prune(rows, k, limit), k), Undeleted(rows, k));
    }
  }
}
