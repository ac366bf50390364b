/** What each store operation answers and what it does to the live table, told without the operations' own
    definitions (internal/mcp/storage/db.go). */
module StoreEffects {
  import opened Options
  import opened ConfigModel
  import opened VersionStore
  import opened StoreHistory

  /** A creation succeeds exactly when the configuration is not live and no pointer is left over from updates
      of a configuration that never was; a refused one changes nothing. */
  lemma CreateEffect(t: Tables, k: Key, body: Body, now: int)
    requires LogInv(t)
    ensures var (t', out) := ApplyCreate(t, k, body, now);
            && (out == Done <==> k !in LiveConfigs(t) && (k in t.configs || k !in t.pointers))
            && (k in LiveConfigs(t) ==> out == Failed(RecordExists) && t' == t)
            && (k !in t.configs && k in t.pointers ==> out == Failed(UniqueViolation) && t' == t)
            && (out == Done ==>
                  && LiveConfigs(t') == LiveConfigs(t)[k := body]
                  && |t'.versions| == |t.versions| + 1 && t'.versions[..|t.versions|] == t.versions
                  && k in t'.pointers
                  && var row := t'.versions[|t.versions|];
                  && row.key == k && row.body == body && row.action == Create && row.createdAt == now && !row.deleted
                  && t'.pointers[k] == PointerRow(row.version, false)
                  && forall i :: 0 <= i < |t.versions| && t.versions[i].key == k ==>
                       t.versions[i].version < row.version)
  {
    assert KeyLogged(t, k);
    MaxVersionIsTop(t, k);
  }

  /** A deletion succeeds exactly for a live configuration, and removes it from the live table. */
  lemma DeleteEffect(t: Tables, k: Key, now: int)
    requires LogInv(t)
    ensures var (t', out) := ApplyDelete(t, k, now);
            && (out == Done <==> k in LiveConfigs(t))
            && (k !in LiveConfigs(t) ==> out == Failed(RecordNotFound) && t' == t)
            && (out == Done ==>
                  && LiveConfigs(t') == LiveConfigs(t) - {k}
                  && |t'.versions| == |t.versions| + 1 && t'.versions[..|t.versions|] == t.versions
                  && k in t'.pointers
                  && var row := t'.versions[|t.versions|];
                  && row.key == k && row.body == LiveConfigs(t)[k] && row.action == Delete && row.createdAt == now
                  && t'.pointers[k] == PointerRow(row.version, true)
                  && forall i :: 0 <= i < |t.versions| && t.versions[i].key == k ==>
                       t.versions[i].version < row.version)
  {
    NextNumbersAreFresh(t, k);
  }

  lemma NumberIsUnique(t: Tables, k: Key, i: int)
    requires LogInv(t) && 0 <= i < |t.versions| && t.versions[i].key == k
    ensures FindVersion(t.versions, k, t.versions[i].version) == Some(t.versions[i])
  {
    var found := FindVersion(t.versions, k, t.versions[i].version);
    var j :| 0 <= j < |t.versions| && t.versions[j] == found.value;
    assert j == i;
  }

  /** A revert succeeds exactly when the key has a row of that number, pruned and deleted rows included, and
      puts that row's content in the live table. */
  lemma SetActiveEffect(t: Tables, k: Key, v: int, now: int)
    requires LogInv(t)
    ensures var (t', out) := ApplySetActive(t, k, v, now);
            && (out == Done <==>
                  exists i :: 0 <= i < |t.versions| && t.versions[i].key == k && t.versions[i].version == v)
            && (out != Done ==> out == Failed(VersionNotFound) && t' == t)
            && (forall i :: 0 <= i < |t.versions| && t.versions[i].key == k && t.versions[i].version == v ==>
                  LiveConfigs(t') == LiveConfigs(t)[k := t.versions[i].body])
  {
    forall i | 0 <= i < |t.versions| && t.versions[i].key == k && t.versions[i].version == v
      ensures LiveConfigs(ApplySetActive(t, k, v, now).0) == LiveConfigs(t)[k := t.versions[i].body]
    {
      NumberIsUnique(t, k, i);
    }
  }

  /** The revert is logged under a number above all others, and the active version is that one. */
  lemma SetActiveIsLogged(t: Tables, k: Key, v: int, now: int)
    requires LogInv(t) && FindVersion(t.versions, k, v).Some?
    ensures var t' := ApplySetActive(t, k, v, now).0;
            && |t'.versions| == |t.versions| + 1 && t'.versions[..|t.versions|] == t.versions
            && k in t'.pointers && k in LiveConfigs(t')
            && var row := t'.versions[|t.versions|];
            && row.key == k && row.body == LiveConfigs(t')[k] && row.action == Revert && row.createdAt == now
            && !row.deleted && t'.pointers[k].version == row.version
            && forall i :: 0 <= i < |t.versions| && t.versions[i].key == k ==> t.versions[i].version < row.version
  {
    NextNumbersAreFresh(t, k);
  }

  /** A live configuration refuses exactly the deletion of its highest number. */
  lemma DeleteVersionEffect(t: Tables, k: Key, v: int)
    requires StoreInv(t) && Live(t, k)
    ensures var (t', out) := ApplyDeleteVersion(t, k, v);
            && (out == Done || (out == Failed(ActiveVersion) && t' == t))
            && (out != Done <==>
                  exists i :: 0 <= i < |t.versions| && t.versions[i].key == k && t.versions[i].version == v &&
                    forall j :: 0 <= j < |t.versions| && t.versions[j].key == k ==> t.versions[j].version <= v)
            && LiveConfigs(t') == LiveConfigs(t)
            && (out == Done ==>
                  && |t'.versions| == |t.versions|
                  && forall i :: 0 <= i < |t.versions| ==>
                       var r := t.versions[i];
                       t'.versions[i] == if r.key == k && r.version == v then r.(deleted := true) else r)
  {
    assert KeyLogged(t, k) && PointerOk(t, k);
    var top := TopIndex(t.versions, k);
    assert t.versions[top].key == k;
    assert forall j :: 0 <= j < |t.versions| && t.versions[j].key == k ==>
             t.versions[j].version <= t.versions[top].version;
  }

  // ---- Updates ----

  /** A name that only one tenant uses. */
  ghost predicate OneTenant(t: Tables, k: Key) {
    forall i :: 0 <= i < |t.versions| && t.versions[i].key.name == k.name ==> t.versions[i].key == k
  }

  lemma LatestIsTop(t: Tables, k: Key)
    requires LogInv(t) && OneTenant(t, k)
    ensures var top := TopIndex(t.versions, k);
            LatestByName(t.versions, k.name) == if top < 0 then None else Some(t.versions[top])
  {
    var rows, top := t.versions, TopIndex(t.versions, k);
    LatestByNameBounds(rows, k.name);
    if top >= 0 {
      assert KeyLogged(t, k);
      assert rows[top].key == k;
      var i :| 0 <= i < |rows| && rows[i] == LatestByName(rows, k.name).value;
      assert i == top;
    }
  }

  /** An update never fails, changes a live configuration to the given content, and logs nothing exactly when
      the newest row already carries that content. */
  lemma UpdateEffect(t: Tables, limit: int, k: Key, body: Body, now: int)
    requires LogInv(t) && Later(t, now) && OneTenant(t, k)
    ensures var (t', out) := ApplyUpdate(t, limit, k, body, now);
            var top, n := TopIndex(t.versions, k), |t.versions|;
            && out == Done
            && LiveConfigs(t') == (if k in LiveConfigs(t) then LiveConfigs(t)[k := body] else LiveConfigs(t))
            && (top >= 0 && t.versions[top].body == body ==> t'.versions == t.versions && t'.pointers == t.pointers)
            && (top < 0 || t.versions[top].body != body ==>
                  var v := if top < 0 then 1 else t.versions[top].version + 1;
                  && |t'.versions| == n + 1 && t'.versions[n] == VersionRow(k, v, Update, now, body, false)
                  && k in t'.pointers && t'.pointers[k].version == v)
  {
    LatestIsTop(t, k);
    if !SkipsVersion(t, k, body) {
      NextNumbersAreFresh(t, k);
      AppendedRowStays(t.versions, VersionRow(k, NextByName(t, k), Update, now, body, false), limit);
    }
  }

  lemma UpdatedIsNewest(t: Tables, limit: int, k: Key, body: Body, now: int)
    requires LogInv(t) && Later(t, now) && OneTenant(t, k) && Live(t, k)
    ensures var t' := ApplyUpdate(t, limit, k, body, now).0;
            && LogInv(t') && OneTenant(t', k) && k in t'.configs && t'.configs[k] == ConfigRow(body, false)
  {
    var op := OpUpdate(k, body);
    assert KeyLogged(t, k);
    LatestIsTop(t, k);
    StepKeepsLog(t, limit, op, now);
    StepRows(t, limit, op, now);
  }

  /** The same update again changes nothing at all. */
  lemma RepeatedUpdateIsIdle(t: Tables, limit: int, k: Key, body: Body, now: int, later: int)
    requires LogInv(t) && Later(t, now) && OneTenant(t, k) && Live(t, k)
    ensures var t' := ApplyUpdate(t, limit, k, body, now).0;
            ApplyUpdate(t', limit, k, body, later) == (t', Done)
  {
    var t' := ApplyUpdate(t, limit, k, body, now).0;
    UpdatedIsNewest(t, limit, k, body, now);
    LatestIsTop(t', k);
    assert KeyLogged(t', k);
    assert SkipsVersion(t', k, body);
    assert t'.configs[k := ConfigRow(body, false)] == t'.configs;
  }
}
