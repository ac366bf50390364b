/** Merging log rows into a list of configurations, and the algebra of replaying a log
    (internal/common/config/validator.go, MergeConfigs). */
module ConfigMerge {
  import opened Options
  import opened ConfigModel

  /** No two configurations of the list carry the same tenant and name. */
  ghost predicate UniqueKeys(cs: seq<Config>) {
    forall i, j :: 0 <= i < j < |cs| ==> cs[i].key != cs[j].key
  }

  ghost predicate HasKey(cs: seq<Config>, k: Key) {
    exists i :: 0 <= i < |cs| && cs[i].key == k
  }

  /** The list read as a map; a later entry wins over an earlier one. */
  function AsMap(cs: seq<Config>): map<Key, Body> {
    if cs == [] then map[] else AsMap(cs[..|cs| - 1])[cs[|cs| - 1].key := cs[|cs| - 1].body]
  }

  function Lookup(m: map<Key, Body>, k: Key): Option<Body> {
    if k in m then Some(m[k]) else None
  }

  /** With unique keys the map holds exactly the entries of the list. */
  lemma {:induction false} MapIsMembership(cs: seq<Config>, k: Key)
    requires UniqueKeys(cs)
    ensures k in AsMap(cs) <==> HasKey(cs, k)
    ensures forall b :: Lookup(AsMap(cs), k) == Some(b) <==> Config(k, b) in cs
  {
    if cs == [] {
    } else {
      var n := |cs| - 1;
      MapIsMembership(cs[..n], k);
      assert cs == cs[..n] + [cs[n]];
      if HasKey(cs[..n], k) {
        var i :| 0 <= i < n && cs[..n][i].key == k;
        assert cs[i].key == k;
      }
    }
  }

  // ---- MergeConfigs ----

  /** The list without the entries of one key. */
  function Without(cs: seq<Config>, k: Key): seq<Config> {
    if cs == [] then []
    else
      var n := |cs| - 1;
      if cs[n].key != k then Without(cs[..n], k) + [cs[n]] else Without(cs[..n], k)
  }

  /** The list with every entry of the new configuration's key replaced. */
  function Replaced(cs: seq<Config>, c: Config): (r: seq<Config>)
    ensures |r| == |cs|
    ensures forall i :: 0 <= i < |cs| ==> r[i] == if cs[i].key == c.key then c else cs[i]
  {
    seq(|cs|, i requires 0 <= i < |cs| => if cs[i].key == c.key then c else cs[i])
  }

  ghost function Merged(cs: seq<Config>, ch: Change): seq<Config> {
    if ch.deleted then Without(cs, ch.config.key)
    else if HasKey(cs, ch.config.key) then Replaced(cs, ch.config)
    else cs + [ch.config]
  }

  method MergeConfigs(existing: seq<Config>, change: Change) returns (configs: seq<Config>)
    ensures configs == Merged(existing, change)
  {
    configs := [];
    if change.deleted {
      for i := 0 to |existing|
        invariant configs == Without(existing[..i], change.config.key)
      {
        assert existing[..i + 1][..i] == existing[..i];
        if existing[i].key != change.config.key {
          configs := configs + [existing[i]];
        }
      }
      assert existing[..|existing|] == existing;
      return;
    }
    var found := false;
    for i := 0 to |existing|
      invariant configs == Replaced(existing[..i], change.config)
      invariant found <==> HasKey(existing[..i], change.config.key)
    {
      ghost var before := existing[..i];
      if existing[i].key == change.config.key {
        configs := configs + [change.config];
        found := true;
        assert existing[..i + 1][i].key == change.config.key;
      } else {
        configs := configs + [existing[i]];
      }
      assert existing[..i + 1] == before + [existing[i]];
      assert forall k :: HasKey(before, k) ==> HasKey(before + [existing[i]], k) by {
        forall k | HasKey(before, k) ensures HasKey(before + [existing[i]], k) {
          var j :| 0 <= j < |before| && before[j].key == k;
          assert (before + [existing[i]])[j].key == k;
        }
      }
    }
    assert existing[..|existing|] == existing;
    if !found {
      configs := configs + [change.config];
    }
  }

  lemma {:induction false} WithoutIsFilter(cs: seq<Config>, k: Key)
    ensures forall c :: c in Without(cs, k) <==> c in cs && c.key != k
    ensures UniqueKeys(cs) ==> UniqueKeys(Without(cs, k))
  {
    if cs == [] {
    } else {
      var n := |cs| - 1;
      WithoutIsFilter(cs[..n], k);
      assert cs == cs[..n] + [cs[n]];
      var w := Without(cs[..n], k);
      if UniqueKeys(cs) {
        forall i, j | 0 <= i < j < |Without(cs, k)| ensures Without(cs, k)[i].key != Without(cs, k)[j].key {
          if j == |w| {
            assert w[i] in cs[..n];
          }
        }
      }
    }
  }

  lemma MergedMembership(cs: seq<Config>, ch: Change)
    requires UniqueKeys(cs)
    ensures UniqueKeys(Merged(cs, ch))
    ensures forall c :: c in Merged(cs, ch) <==>
                        (c in cs && c.key != ch.config.key) || (!ch.deleted && c == ch.config)
  {
    var k := ch.config.key;
    var r := Merged(cs, ch);
    WithoutIsFilter(cs, k);
    if !ch.deleted && HasKey(cs, k) {
      forall c | c in cs && c.key != k ensures c in r {
        var i :| 0 <= i < |cs| && cs[i] == c;
        assert r[i] == c;
      }
      var i :| 0 <= i < |cs| && cs[i].key == k;
      assert r[i] == ch.config;
    }
  }

  /** What a merge makes of the entry of `q`: only the row's own key is touched. */
  lemma MergeUpdatesMap(cs: seq<Config>, ch: Change, q: Key)
    requires UniqueKeys(cs)
    ensures UniqueKeys(Merged(cs, ch))
    ensures Lookup(AsMap(Merged(cs, ch)), q) ==
            if q != ch.config.key then Lookup(AsMap(cs), q)
            else if ch.deleted then None else Some(ch.config.body)
  {
    MergedMembership(cs, ch);
    MapIsMembership(cs, q);
    MapIsMembership(Merged(cs, ch), q);
    var l := Lookup(AsMap(Merged(cs, ch)), q);
    if l.Some? {
      assert Config(q, l.value) in Merged(cs, ch);
    }
    var o := Lookup(AsMap(cs), q);
    if o.Some? {
      assert Config(q, o.value) in cs;
    }
  }

  // ---- Replaying a log ----

  /** The list after merging a log row by row, oldest first. */
  ghost function Replay(cs: seq<Config>, log: seq<Change>): seq<Config> {
    if log == [] then cs
    else Merged(Replay(cs, log[..|log| - 1]), log[|log| - 1])
  }

  /** The newest row of a key in a log. */
  function LastChange(log: seq<Change>, k: Key): (r: Option<Change>)
    ensures r.Some? ==> r.value.config.key == k && r.value in log
    ensures r.None? <==> forall i :: 0 <= i < |log| ==> log[i].config.key != k
  {
    if log == [] then None
    else
      var n := |log| - 1;
      if log[n].config.key == k then Some(log[n]) else LastChange(log[..n], k)
  }

  /** What replaying `log` makes of the entry of `k`: the newest row decides, older rows do not matter. */
  function Outcome(before: Option<Body>, log: seq<Change>, k: Key): Option<Body> {
    match LastChange(log, k)
    case None => before
    case Some(ch) => if ch.deleted then None else Some(ch.config.body)
  }

  lemma {:induction false} ReplayOutcome(cs: seq<Config>, log: seq<Change>, k: Key)
    requires UniqueKeys(cs)
    ensures UniqueKeys(Replay(cs, log))
    ensures Lookup(AsMap(Replay(cs, log)), k) == Outcome(Lookup(AsMap(cs), k), log, k)
  {
    if log == [] {
    } else {
      var n := |log| - 1;
      ReplayOutcome(cs, log[..n], k);
      MergeUpdatesMap(Replay(cs, log[..n]), log[n], k);
    }
  }

  lemma MapsAgree(m: map<Key, Body>, m': map<Key, Body>)
    requires forall k :: Lookup(m, k) == Lookup(m', k)
    ensures m == m'
  {
    forall k ensures k in m <==> k in m' {
      assert Lookup(m, k) == Lookup(m', k);
    }
    forall k | k in m ensures m[k] == m'[k] {
      assert Lookup(m, k) == Lookup(m', k);
    }
  }

  /** A log replayed on top of a replay: only the concatenation counts. */
  lemma {:induction false} LastChangeOfConcat(xs: seq<Change>, ys: seq<Change>, k: Key)
    ensures LastChange(xs + ys, k) == if LastChange(ys, k).Some? then LastChange(ys, k) else LastChange(xs, k)
  {
    if ys == [] {
      assert xs + ys == xs;
    } else {
      var n := |ys| - 1;
      assert (xs + ys)[..|xs + ys| - 1] == xs + ys[..n];
      LastChangeOfConcat(xs, ys[..n], k);
    }
  }

  /** Redelivery is harmless: merging a suffix of an already merged log again changes nothing. */
  lemma RemergingSuffixChangesNothing(cs: seq<Config>, log: seq<Change>, from: nat)
    requires UniqueKeys(cs) && from <= |log|
    ensures UniqueKeys(Replay(Replay(cs, log), log[from..]))
    ensures AsMap(Replay(Replay(cs, log), log[from..])) == AsMap(Replay(cs, log))
  {
    var once := Replay(cs, log);
    var someKey := Key("", "");
    ReplayOutcome(cs, log, someKey);
    ReplayOutcome(once, log[from..], someKey);
    forall k ensures Lookup(AsMap(Replay(once, log[from..])), k) == Lookup(AsMap(once), k) {
      ReplayOutcome(cs, log, k);
      ReplayOutcome(once, log[from..], k);
      LastChangeOfConcat(log[..from], log[from..], k);
      assert log[..from] + log[from..] == log;
    }
    MapsAgree(AsMap(Replay(once, log[from..])), AsMap(once));
  }

  /** Rows of different keys may be merged in either order. */
  lemma MergesOfDifferentKeysCommute(cs: seq<Config>, a: Change, b: Change)
    requires UniqueKeys(cs) && a.config.key != b.config.key
    ensures AsMap(Merged(Merged(cs, a), b)) == AsMap(Merged(Merged(cs, b), a))
  {
    forall k ensures Lookup(AsMap(Merged(Merged(cs, a), b)), k) == Lookup(AsMap(Merged(Merged(cs, b), a)), k) {
      MergeUpdatesMap(cs, a, k);
      MergeUpdatesMap(cs, b, k);
      MergeUpdatesMap(Merged(cs, a), b, k);
      MergeUpdatesMap(Merged(cs, b), a, k);
    }
    MapsAgree(AsMap(Merged(Merged(cs, a), b)), AsMap(Merged(Merged(cs, b), a)));
  }

  /** Only the newest row of each key. */
  function Newest(log: seq<Change>): seq<Change> {
    if log == [] then []
    else
      var n := |log| - 1;
      DropKey(Newest(log[..n]), log[n].config.key) + [log[n]]
  }

  function DropKey(log: seq<Change>, k: Key): (r: seq<Change>) {
    if log == [] then []
    else
      var n := |log| - 1;
      DropKey(log[..n], k) + if log[n].config.key == k then [] else [log[n]]
  }

  lemma {:induction false} DropKeyKeepsOthers(log: seq<Change>, k: Key, q: Key)
    ensures LastChange(DropKey(log, k), q) == if q == k then None else LastChange(log, q)
  {
    if log == [] {
    } else {
      var n := |log| - 1;
      DropKeyKeepsOthers(log[..n], k, q);
      if log[n].config.key != k {
        assert DropKey(log, k)[..|DropKey(log, k)| - 1] == DropKey(log[..n], k);
      } else {
        assert DropKey(log, k) == DropKey(log[..n], k);
      }
    }
  }

  lemma {:induction false} NewestKeepsLast(log: seq<Change>, k: Key)
    ensures LastChange(Newest(log), k) == LastChange(log, k)
  {
    if log == [] {
    } else {
      var n := |log| - 1;
      NewestKeepsLast(log[..n], k);
      DropKeyKeepsOthers(Newest(log[..n]), log[n].config.key, k);
      assert Newest(log)[..|Newest(log)| - 1] == DropKey(Newest(log[..n]), log[n].config.key);
    }
  }

  /** Pruning every row but the newest of each key does not change what a replay ends with. */
  lemma PruningKeepsReplay(cs: seq<Config>, log: seq<Change>)
    requires UniqueKeys(cs)
    ensures AsMap(Replay(cs, Newest(log))) == AsMap(Replay(cs, log))
  {
    forall k ensures Lookup(AsMap(Replay(cs, Newest(log))), k) == Lookup(AsMap(Replay(cs, log)), k) {
      ReplayOutcome(cs, log, k);
      ReplayOutcome(cs, Newest(log), k);
      NewestKeepsLast(log, k);
    }
    MapsAgree(AsMap(Replay(cs, Newest(log))), AsMap(Replay(cs, log)));
  }
}
