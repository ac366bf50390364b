/** The gateway's pull reload: it keeps its own copy of the configurations by merging only the log rows newer than
    its last reload, and that copy agrees with the live table after every successful reload
    (internal/core/server.go, updateConfigs and ReloadConfigs). */
module PullReload {
  import opened Options
  import opened ConfigModel
  import opened ConfigMerge
  import opened ConfigValidator
  import opened VersionStore
  import opened StoreHistory
  import opened RuntimeIndex
  import opened TransportLifetime
  import IndexScan

  /** `last` is the start time of the last reload that took effect; None is the zero time. */
  datatype Gateway = Gateway(state: State, last: Option<int>, next: nat)

  datatype PullOutcome = Reloaded | NothingNew | StoreError | Invalid | BuildError

  predicate Succeeded(out: PullOutcome) {
    out == Reloaded || out == NothingNew
  }

  /** The configurations a reload is about to build: all of them the first time, later the old ones with the
      newer log rows merged in; None when there is no newer row. */
  ghost function Collected(g: Gateway, t: Tables, listed: seq<Config>): Option<seq<Config>> {
    if g.last.None? then Some(listed)
    else
      var updated := UpdatedSince(t.versions, g.last.value);
      if updated == [] then None else Some(Replay(g.state.raw, updated))
  }

  ghost function Pull(g: Gateway, t: Tables, now: int, listed: seq<Config>, client: bool): (Gateway, PullOutcome) {
    match Collected(g, t, listed)
    case None => (g, NothingNew)
    case Some(cs) =>
      if !ValidConfigs(cs) then (g, Invalid)
      else
        match BuildFrom(cs, g.state.runtime, client, g.next)
        case BuildFailed(next) => (g.(next := next), BuildError)
        case Built(state, _, next) => (Gateway(state, Some(now), next), Reloaded)
  }

  /** The loop over the newer rows. */
  method MergeUpdates(raw: seq<Config>, updated: seq<Change>) returns (cfgs: seq<Config>)
    ensures cfgs == Replay(raw, updated)
  {
    cfgs := raw;
    for i := 0 to |updated|
      invariant cfgs == Replay(raw, updated[..i])
    {
      assert updated[..i + 1][..i] == updated[..i];
      cfgs := MergeConfigs(cfgs, updated[i]);
    }
    assert updated[..|updated|] == updated;
  }

  class Server {
    var state: State
    var lastUpdateTime: Option<int>
    var nextTransport: nat

    constructor ()
      ensures Contents() == Gateway(EmptyState, None, 0)
    {
      state, lastUpdateTime, nextTransport := EmptyState, None, 0;
    }

    function Contents(): Gateway
      reads this
    {
      Gateway(state, lastUpdateTime, nextTransport)
    }

    /** `now` is read before the store is queried, and `answers` says whether the store answers the query. The state to
        install is returned, not assigned. */
    method UpdateConfigs(store: DBStore, now: int, client: bool, answers: bool)
      returns (newState: Option<State>, out: PullOutcome, ghost listed: seq<Config>)
      modifies this`lastUpdateTime, this`nextTransport
      ensures Enumerates(listed, LiveConfigs(store.Contents()))
      ensures !answers ==> newState == None && out == StoreError && Contents() == old(Contents())
      ensures answers ==>
                var (g, o) := Pull(old(Contents()), store.Contents(), now, listed, client);
                && o == out
                && Contents() == g.(state := state)
                && (Succeeded(out) ==> newState == Some(g.state))
                && (!Succeeded(out) ==> newState == None && g.state == state)
    {
      var listing := store.List();
      listed := listing;
      if !answers {
        return None, StoreError, listed;
      }
      var cfgs;
      if lastUpdateTime.None? {
        cfgs := listing;
      } else {
        var updated := store.ListUpdated(lastUpdateTime.value);
        if updated == [] {
          return Some(state), NothingNew, listed;
        }
        cfgs := MergeUpdates(state.raw, updated);
      }
      assert Collected(old(Contents()), store.Contents(), listed) == Some(cfgs);
      var errors := ValidateMCPConfigs(cfgs);
      if errors != [] {
        return None, Invalid, listed;
      }
      var built := BuildStateFromConfig(cfgs, state.runtime, client, nextTransport);
      nextTransport := built.next;
      if built.BuildFailed? {
        return None, BuildError, listed;
      }
      lastUpdateTime := Some(now);
      newState, out := Some(built.state), Reloaded;
    }

    method ReloadConfigs(store: DBStore, now: int, client: bool, answers: bool)
      returns (out: PullOutcome, ghost listed: seq<Config>)
      modifies this
      ensures Enumerates(listed, LiveConfigs(store.Contents()))
      ensures (Contents(), out) == if answers then Pull(old(Contents()), store.Contents(), now, listed, client)
                                   else (old(Contents()), StoreError)
    {
      var newState;
      newState, out, listed := UpdateConfigs(store, now, client, answers);
      if newState.Some? {
        state := newState.value;
      }
    }
  }

  // ---- Interleavings of store operations and reloads ----

  /** A reload reads the clock (`Begin`) before it queries the store (`Query`; `NoAnswer` if that fails). A store
      operation is an event when it commits, and `at` is the earlier time its transaction stamped its row with, so
      other events may fall between the two. A row that was stamped before and committed after `Begin` may be delivered
      to this reload and again to the next. */
  datatype Event = StoreOp(op: Op, at: int) | Begin(at: int) | Query(listed: seq<Config>, client: bool) | NoAnswer

  /** `clock` is the time of the last `Begin`, `started` the start time of the reload under way. */
  datatype World = World(tables: Tables, gateway: Gateway, started: Option<int>, clock: int)

  const StartWorld := World(EmptyTables, Gateway(EmptyState, None, 0), None, 0)

  ghost function Step(w: World, limit: int, e: Event): World {
    match e
    case StoreOp(op, at) => w.(tables := Apply(w.tables, limit, op, at))
    case Begin(at) => w.(started := Some(at), clock := at)
    case Query(listed, client) =>
      if w.started.None? then w
      else w.(gateway := Pull(w.gateway, w.tables, w.started.value, listed, client).0, started := None)
    case NoAnswer => w.(started := None)
  }

  /** Transactions are one after the other, so their rows are stamped in the order of the commits; the store is changed
      by safe operations only; and a full listing shows the live table in some order. */
  ghost predicate Stamped(w: World, e: Event) {
    match e
    case StoreOp(op, at) => Later(w.tables, at) && LogSafe(w.tables, op)
    case Begin(at) => at > w.clock
    case Query(listed, _) => Enumerates(listed, LiveConfigs(w.tables))
    case NoAnswer => true
  }

  /** Whether a commit changes the live table. */
  ghost predicate Visible(t: Tables, op: Op, at: int) {
    LiveConfigs(Apply(t, 0, op, at)) != LiveConfigs(t)
  }

  /** A commit is in time unless a reload that began at or after its stamp has taken effect before it. */
  ghost predicate InTime(g: Gateway, t: Tables, op: Op, at: int) {
    g.last.None? || g.last.value < at || !Visible(t, op, at)
  }

  ghost predicate Legal(w: World, e: Event) {
    Stamped(w, e) && (e.StoreOp? ==> InTime(w.gateway, w.tables, e.op, e.at))
  }

  ghost function Run(limit: int, es: seq<Event>): World {
    if es == [] then StartWorld else Step(Run(limit, es[..|es| - 1]), limit, es[|es| - 1])
  }

  ghost predicate LegalRun(limit: int, es: seq<Event>) {
    forall n :: 0 <= n < |es| ==> Legal(Run(limit, es[..n]), es[n])
  }

  ghost predicate Agrees(g: Gateway, t: Tables) {
    AsMap(g.state.raw) == LiveConfigs(t)
  }

  /** Whether the log holds a row of `k` the gateway has not asked for yet. */
  ghost predicate Behind(g: Gateway, t: Tables, k: Key) {
    var i := TopIndex(t.versions, k);
    g.last.Some? && i >= 0 && t.versions[i].createdAt > g.last.value
  }

  /** The gateway's copy may differ from the live table only at keys with a newer log row. */
  ghost predicate CopyInv(g: Gateway, t: Tables) {
    && UniqueKeys(g.state.raw)
    && (g.last.Some? ==> forall k :: Behind(g, t, k) || Lookup(AsMap(g.state.raw), k) == Lookup(LiveConfigs(t), k))
  }

  /** Reloads are one after the other. */
  ghost predicate Clocked(w: World) {
    && (w.gateway.last.Some? ==> w.gateway.last.value <= w.clock)
    && (w.started.Some? ==> w.started.value <= w.clock)
    && (w.started.Some? && w.gateway.last.Some? ==> w.gateway.last.value < w.started.value)
  }

  ghost predicate WorldInv(w: World) {
    && LogInv(w.tables)
    && CopyInv(w.gateway, w.tables)
    && Clocked(w)
  }

  // ---- What a query delivers ----

  lemma {:induction false} NothingSince(rows: seq<VersionRow>, since: int)
    requires forall i :: 0 <= i < |rows| ==> rows[i].createdAt <= since
    ensures UpdatedSince(rows, since) == []
  {
    if rows == [] {
    } else {
      NothingSince(rows[..|rows| - 1], since);
    }
  }

  /** The newest delivered row of a key is its newest row, if that is recent: pruned rows and rows delivered before
      do not matter. */
  lemma {:induction false} NewestIsDelivered(rows: seq<VersionRow>, since: int, k: Key)
    requires forall i, j :: 0 <= i < j < |rows| ==> rows[i].createdAt < rows[j].createdAt
    requires var i := TopIndex(rows, k); i >= 0 ==> !rows[i].deleted
    ensures var i := TopIndex(rows, k);
            LastChange(UpdatedSince(rows, since), k) ==
            if i >= 0 && rows[i].createdAt > since
            then Some(Change(Config(k, rows[i].body), rows[i].action == Delete)) else None
  {
    if rows == [] {
    } else {
      var n := |rows| - 1;
      if rows[n].key == k {
        if rows[n].createdAt <= since {
          NothingSince(rows, since);
        }
      } else {
        NewestIsDelivered(rows[..n], since, k);
      }
      var before := UpdatedSince(rows[..n], since);
      if UpdatedSince(rows, since) != before {
        assert UpdatedSince(rows, since)[..|before|] == before;
      }
    }
  }

  lemma ListedEntryIsLive(listed: seq<Config>, t: Tables, k: Key)
    requires Enumerates(listed, LiveConfigs(t))
    ensures Lookup(AsMap(listed), k) == Lookup(LiveConfigs(t), k)
  {
    MapIsMembership(listed, k);
    assert k in LiveConfigs(t) ==> Config(k, LiveConfigs(t)[k]) in listed;
    assert k in AsMap(listed) ==> Config(k, AsMap(listed)[k]) in listed;
  }

  lemma ListingIsLive(listed: seq<Config>, t: Tables)
    requires Enumerates(listed, LiveConfigs(t))
    ensures UniqueKeys(listed) && AsMap(listed) == LiveConfigs(t)
  {
    forall k ensures Lookup(AsMap(listed), k) == Lookup(LiveConfigs(t), k) {
      ListedEntryIsLive(listed, t, k);
    }
    MapsAgree(AsMap(listed), LiveConfigs(t));
  }

  /** What a reload collects is the live table, whether it lists everything or merges the newer rows. */
  lemma CollectedIsLive(g: Gateway, t: Tables, listed: seq<Config>)
    requires LogInv(t) && CopyInv(g, t) && Enumerates(listed, LiveConfigs(t))
    ensures Collected(g, t, listed).None? ==> Agrees(g, t)
    ensures Collected(g, t, listed).Some? ==>
              UniqueKeys(Collected(g, t, listed).value) && AsMap(Collected(g, t, listed).value) == LiveConfigs(t)
  {
    if g.last.None? {
      ListingIsLive(listed, t);
    } else {
      var updated := UpdatedSince(t.versions, g.last.value);
      ReplayOutcome(g.state.raw, updated, Key("", ""));
      forall k ensures Lookup(AsMap(Replay(g.state.raw, updated)), k) == Lookup(LiveConfigs(t), k)
               ensures updated == [] ==> Lookup(AsMap(g.state.raw), k) == Lookup(LiveConfigs(t), k)
      {
        assert KeyLogged(t, k);
        NewestIsDelivered(t.versions, g.last.value, k);
        ReplayOutcome(g.state.raw, updated, k);
      }
      MapsAgree(AsMap(Replay(g.state.raw, updated)), LiveConfigs(t));
      if updated == [] {
        MapsAgree(AsMap(g.state.raw), LiveConfigs(t));
      }
    }
  }

  lemma PullInstallsOrKeeps(g: Gateway, t: Tables, now: int, listed: seq<Config>, client: bool)
    ensures var (g', out) := Pull(g, t, now, listed, client);
            && (out == Reloaded ==> Collected(g, t, listed).Some? && g'.last == Some(now)
                                    && g'.state.raw == Collected(g, t, listed).value)
            && (out != Reloaded ==> g'.state == g.state && g'.last == g.last)
            && (out == NothingNew <==> Collected(g, t, listed).None?)
  {
  }

  lemma {:induction false} SomethingSince(rows: seq<VersionRow>, since: int, i: nat)
    requires i < |rows| && !rows[i].deleted && rows[i].createdAt > since
    ensures UpdatedSince(rows, since) != []
  {
    if i < |rows| - 1 {
      SomethingSince(rows[..|rows| - 1], since, i);
    }
  }

  lemma {:induction false} NothingKeptSince(rows: seq<VersionRow>, since: int)
    requires forall i :: 0 <= i < |rows| ==> rows[i].deleted || rows[i].createdAt <= since
    ensures UpdatedSince(rows, since) == []
  {
    if rows == [] {
    } else {
      NothingKeptSince(rows[..|rows| - 1], since);
    }
  }

  /** How a reload ends: there is nothing to do if an earlier one took effect and no row kept in the log is newer than
      it; otherwise it takes effect if and only if what it collected is valid and every routed prefix of an MCP server
      can be served. */
  lemma PullOutcomeExactly(g: Gateway, t: Tables, now: int, listed: seq<Config>, client: bool)
    ensures var (g', out) := Pull(g, t, now, listed, client);
            var x := Context(g.state.runtime, client);
            && (out == NothingNew <==>
                  g.last.Some? && forall i :: 0 <= i < |t.versions| ==>
                    t.versions[i].deleted || t.versions[i].createdAt <= g.last.value)
            && (out == NothingNew <==> Collected(g, t, listed).None?)
            && (Collected(g, t, listed).Some? ==>
                  var cs := Collected(g, t, listed).value;
                  var servable :=
                    forall c, m, r ::
                      c in cs && m in c.body.mcpServers && r in c.body.routers && r.server == m.name ==>
                        IndexScan.Servable(x, m, r.prefix);
                  && (out == Invalid <==> !ValidConfigs(cs))
                  && (out == BuildError <==> ValidConfigs(cs) && !servable)
                  && (out == Reloaded <==> ValidConfigs(cs) && servable))
  {
    if Collected(g, t, listed).Some? {
      IndexScan.BuildsExactlyWhenServable(Collected(g, t, listed).value, g.state.runtime, client, g.next);
    }
    if g.last.Some? {
      if i :| 0 <= i < |t.versions| && !t.versions[i].deleted && t.versions[i].createdAt > g.last.value {
        SomethingSince(t.versions, g.last.value, i);
      } else {
        NothingKeptSince(t.versions, g.last.value);
      }
    }
  }

  /** A successful reload leaves the copy equal to the live table at the moment of its query. */
  lemma PullAgrees(g: Gateway, t: Tables, now: int, listed: seq<Config>, client: bool)
    requires LogInv(t) && CopyInv(g, t) && Enumerates(listed, LiveConfigs(t))
    ensures var (g', out) := Pull(g, t, now, listed, client);
            && (Succeeded(out) ==> Agrees(g', t))
            && CopyInv(g', t)
            && (g'.last == g.last || g'.last == Some(now))
  {
    PullInstallsOrKeeps(g, t, now, listed, client);
    CollectedIsLive(g, t, listed);
  }

  // ---- Every run ----

  lemma KeyIsLoggedOrInvisible(t: Tables, limit: int, op: Op, now: int, k: Key)
    requires LogInv(t) && LogInv(Apply(t, limit, op, now))
    ensures var t' := Apply(t, limit, op, now);
            var i, j := TopIndex(t.versions, k), TopIndex(t'.versions, k);
            if i == j then Lookup(LiveConfigs(t'), k) == Lookup(LiveConfigs(t), k)
                           && (i >= 0 ==> t'.versions[i].createdAt == t.versions[i].createdAt)
            else j >= 0 && t'.versions[j].createdAt == now
  {
    StepRows(t, limit, op, now);
    assert KeyLogged(t, k) && KeyLogged(Apply(t, limit, op, now), k);
  }

  lemma LiveIgnoresLimit(t: Tables, limit: int, op: Op, at: int)
    ensures LiveConfigs(Apply(t, limit, op, at)) == LiveConfigs(Apply(t, 0, op, at))
  {
  }

  /** A commit that the gateway will still ask for, if it logged a row. */
  lemma EarlyCommitKeepsCopy(t: Tables, limit: int, op: Op, at: int, g: Gateway)
    requires LogInv(t) && Later(t, at) && LogSafe(t, op) && CopyInv(g, t)
    requires g.last.None? || g.last.value < at
    ensures CopyInv(g, Apply(t, limit, op, at))
  {
    var t' := Apply(t, limit, op, at);
    StepKeepsLog(t, limit, op, at);
    if g.last.Some? {
      forall k ensures Behind(g, t', k) || Lookup(AsMap(g.state.raw), k) == Lookup(LiveConfigs(t'), k) {
        KeyIsLoggedOrInvisible(t, limit, op, at, k);
        assert Behind(g, t, k) || Lookup(AsMap(g.state.raw), k) == Lookup(LiveConfigs(t), k);
      }
    }
  }

  lemma NotBehind(g: Gateway, t: Tables, k: Key)
    requires g.last.Some? && forall i :: 0 <= i < |t.versions| ==> t.versions[i].createdAt <= g.last.value
    ensures !Behind(g, t, k)
  {
  }

  /** A gateway that has asked for every row is right exactly when its copy is the live table. */
  lemma CopyWithoutNewerRows(g: Gateway, t: Tables)
    requires UniqueKeys(g.state.raw)
    requires g.last.Some? && forall i :: 0 <= i < |t.versions| ==> t.versions[i].createdAt <= g.last.value
    ensures CopyInv(g, t) <==> Agrees(g, t)
  {
    forall k ensures !Behind(g, t, k) {
      NotBehind(g, t, k);
    }
    if CopyInv(g, t) {
      MapsAgree(AsMap(g.state.raw), LiveConfigs(t));
    }
  }

  /** A safe commit keeps the copy right, for now or for the next reload, if and only if it is in time. */
  lemma CommitKeepsCopyExactlyInTime(t: Tables, limit: int, op: Op, at: int, g: Gateway)
    requires LogInv(t) && Later(t, at) && LogSafe(t, op) && CopyInv(g, t)
    ensures CopyInv(g, Apply(t, limit, op, at)) <==> InTime(g, t, op, at)
  {
    if g.last.None? || g.last.value < at {
      EarlyCommitKeepsCopy(t, limit, op, at, g);
    } else {
      StepRows(t, limit, op, at);
      CopyWithoutNewerRows(g, t);
      CopyWithoutNewerRows(g, Apply(t, limit, op, at));
      LiveIgnoresLimit(t, limit, op, at);
    }
  }

  lemma StepKeepsClocked(w: World, limit: int, e: Event)
    requires Clocked(w) && Stamped(w, e)
    ensures Clocked(Step(w, limit, e))
  {
  }

  lemma StepKeepsWorld(w: World, limit: int, e: Event)
    requires WorldInv(w) && Legal(w, e)
    ensures WorldInv(Step(w, limit, e))
  {
    StepKeepsClocked(w, limit, e);
    match e {
      case StoreOp(op, at) =>
        StepKeepsLog(w.tables, limit, op, at);
        CommitKeepsCopyExactlyInTime(w.tables, limit, op, at, w.gateway);
      case Query(listed, client) =>
        if w.started.Some? {
          PullAgrees(w.gateway, w.tables, w.started.value, listed, client);
        }
      case Begin(at) =>
      case NoAnswer =>
    }
  }

  lemma {:induction false} RunKeepsWorld(limit: int, es: seq<Event>)
    requires LegalRun(limit, es)
    ensures WorldInv(Run(limit, es))
  {
    if es == [] {
      assert forall k :: KeyLogged(EmptyTables, k);
    } else {
      var before := es[..|es| - 1];
      assert forall n :: 0 <= n < |before| ==> before[n] == es[n] && before[..n] == es[..n];
      RunKeepsWorld(limit, before);
      StepKeepsWorld(Run(limit, before), limit, es[|es| - 1]);
    }
  }

  lemma QueryIsPull(limit: int, es: seq<Event>, listed: seq<Config>, client: bool)
    requires Run(limit, es).started.Some?
    ensures var w := Run(limit, es);
            Run(limit, es + [Query(listed, client)]).gateway ==
            Pull(w.gateway, w.tables, w.started.value, listed, client).0
  {
    assert (es + [Query(listed, client)])[..|es|] == es;
  }

  /** Incremental reload refines full reload. Over every interleaving of safe store operations and reloads, whatever
      was skipped by hash, pruned, delivered twice or rejected by validation before: a reload that succeeds leaves
      the gateway's configurations equal to the live table, key by key. */
  lemma IncrementalReloadRefinesFullReload(limit: int, es: seq<Event>, listed: seq<Config>, client: bool)
    requires LegalRun(limit, es)
    requires var w := Run(limit, es); w.started.Some? && Legal(w, Query(listed, client))
    ensures var w := Run(limit, es);
            var (g, out) := Pull(w.gateway, w.tables, w.started.value, listed, client);
            && g == Run(limit, es + [Query(listed, client)]).gateway
            && (Succeeded(out) ==> AsMap(g.state.raw) == LiveConfigs(w.tables))
            && (!Succeeded(out) ==> g.state == w.gateway.state && g.last == w.gateway.last)
  {
    var w := Run(limit, es);
    RunKeepsWorld(limit, es);
    PullAgrees(w.gateway, w.tables, w.started.value, listed, client);
    PullInstallsOrKeeps(w.gateway, w.tables, w.started.value, listed, client);
    QueryIsPull(limit, es, listed, client);
  }

  // ---- The safety condition is the right one for updates ----

  /** A gateway that has asked for every row and agrees with the live table. */
  ghost predicate CaughtUp(g: Gateway, t: Tables) {
    && UniqueKeys(g.state.raw) && Agrees(g, t) && g.last.Some?
    && forall i :: 0 <= i < |t.versions| ==> t.versions[i].createdAt <= g.last.value
  }

  lemma UnloggedUpdateIsMissed(g: Gateway, t: Tables, limit: int, k: Key, body: Body, at: int, now: int,
                               listed: seq<Config>, client: bool)
    requires CaughtUp(g, t) && SkipsVersion(t, k, body) && Live(t, k) && t.configs[k].body != body
    ensures var t' := Apply(t, limit, OpUpdate(k, body), at);
            var (g', out) := Pull(g, t', now, listed, client);
            out == NothingNew && !Agrees(g', t')
  {
    var t' := Apply(t, limit, OpUpdate(k, body), at);
    NothingSince(t'.versions, g.last.value);
    assert LiveConfigs(t)[k] != LiveConfigs(t')[k];
  }

  /** The row of an update is delivered to a gateway that had caught up before it. */
  lemma UpdateIsDelivered(t: Tables, limit: int, k: Key, body: Body, at: int, last: int)
    requires LogInv(t) && Later(t, at) && last < at && !SkipsVersion(t, k, body)
    ensures var rows := ApplyUpdate(t, limit, k, body, at).0.versions;
            LastChange(UpdatedSince(rows, last), k) == Some(Change(Config(k, body), false))
  {
    var t' := ApplyUpdate(t, limit, k, body, at).0;
    NextNumbersAreFresh(t, k);
    AppendedRow(t, t', VersionRow(k, NextByName(t, k), Update, at, body, false), limit);
    NewestIsDelivered(t'.versions, last, k);
  }

  lemma DeliveredUpdateIsMerged(g: Gateway, t: Tables, listed: seq<Config>, k: Key, body: Body)
    requires UniqueKeys(g.state.raw) && g.last.Some?
    requires LastChange(UpdatedSince(t.versions, g.last.value), k) == Some(Change(Config(k, body), false))
    ensures Collected(g, t, listed).Some? && k in AsMap(Collected(g, t, listed).value)
  {
    ReplayOutcome(g.state.raw, UpdatedSince(t.versions, g.last.value), k);
  }

  lemma UpdateLeavesDeadDead(t: Tables, limit: int, k: Key, body: Body, at: int)
    requires !Live(t, k)
    ensures k !in LiveConfigs(ApplyUpdate(t, limit, k, body, at).0)
  {
  }

  lemma PhantomUpdateIsServed(g: Gateway, t: Tables, limit: int, k: Key, body: Body, at: int, now: int,
                              listed: seq<Config>, client: bool)
    requires LogInv(t) && Later(t, at) && CaughtUp(g, t) && g.last.value < at
    requires !SkipsVersion(t, k, body) && !Live(t, k)
    ensures var t' := Apply(t, limit, OpUpdate(k, body), at);
            var (g', out) := Pull(g, t', now, listed, client);
            out != NothingNew && (out == Reloaded ==> k in AsMap(g'.state.raw) && k !in LiveConfigs(t'))
  {
    var t' := ApplyUpdate(t, limit, k, body, at).0;
    UpdateIsDelivered(t, limit, k, body, at, g.last.value);
    DeliveredUpdateIsMerged(g, t', listed, k, body);
    PullInstallsOrKeeps(g, t', now, listed, client);
    UpdateLeavesDeadDead(t, limit, k, body, at);
  }

  /** A gateway that has caught up sees an update correctly at its next successful reload if and only if the update
      was safe: an unlogged update is never seen, and a logged update of a deleted configuration revives it in the
      gateway only. */
  lemma UpdateSeenExactlyWhenSafe(g: Gateway, t: Tables, limit: int, k: Key, body: Body, at: int, now: int,
                                  listed: seq<Config>, client: bool)
    requires LogInv(t) && Later(t, at) && CaughtUp(g, t) && g.last.value < at
    requires var t' := Apply(t, limit, OpUpdate(k, body), at);
             && Enumerates(listed, LiveConfigs(t'))
             && Succeeded(Pull(g, t', now, listed, client).1)
    ensures var t' := Apply(t, limit, OpUpdate(k, body), at);
            Agrees(Pull(g, t', now, listed, client).0, t') <==> LogSafe(t, OpUpdate(k, body))
  {
    var op := OpUpdate(k, body);
    var t' := Apply(t, limit, op, at);
    if LogSafe(t, op) {
      StepKeepsLog(t, limit, op, at);
      EarlyCommitKeepsCopy(t, limit, op, at, g);
      PullAgrees(g, t', now, listed, client);
    } else if Live(t, k) {
      UnloggedUpdateIsMissed(g, t, limit, k, body, at, now, listed, client);
    } else {
      PhantomUpdateIsServed(g, t, limit, k, body, at, now, listed, client);
    }
  }

  // ---- An update that was not logged stays unseen ----

  ghost function RunOn(w: World, limit: int, es: seq<Event>): World {
    if es == [] then w else Step(RunOn(w, limit, es[..|es| - 1]), limit, es[|es| - 1])
  }

  /** An event that logs no row of `k`. */
  ghost predicate Quiet(w: World, limit: int, e: Event, k: Key) {
    Stamped(w, e) && (e.StoreOp? ==>
                        var row := LoggedRow(w.tables, e.op, e.at); row.Some? ==> row.value.key != k)
  }

  ghost predicate QuietRun(w: World, limit: int, es: seq<Event>, k: Key) {
    es == [] ||
    (var before := es[..|es| - 1];
     QuietRun(w, limit, before, k) && Quiet(RunOn(w, limit, before), limit, es[|es| - 1], k))
  }

  /** The gateway has asked for all rows of `k`; copy and live table have these entries for `k`. */
  ghost predicate Stuck(w: World, k: Key, copied: Option<Body>, live: Option<Body>) {
    && UniqueKeys(w.gateway.state.raw) && w.gateway.last.Some? && Clocked(w)
    && (forall i :: 0 <= i < |w.tables.versions| && w.tables.versions[i].key == k ==>
          w.tables.versions[i].createdAt <= w.gateway.last.value)
    && Lookup(AsMap(w.gateway.state.raw), k) == copied && Lookup(LiveConfigs(w.tables), k) == live
  }

  lemma {:induction false} NoRowSince(rows: seq<VersionRow>, since: int, k: Key)
    requires forall i :: 0 <= i < |rows| && rows[i].key == k ==> rows[i].createdAt <= since
    ensures LastChange(UpdatedSince(rows, since), k) == None
  {
    if rows == [] {
    } else {
      var before, r := UpdatedSince(rows[..|rows| - 1], since), rows[|rows| - 1];
      NoRowSince(rows[..|rows| - 1], since, k);
      LastChangeOfConcat(before, [Change(Config(r.key, r.body), r.action == Delete)], k);
    }
  }

  lemma QuietOpKeepsLive(t: Tables, limit: int, op: Op, at: int, k: Key)
    requires LogSafe(t, op) && var row := LoggedRow(t, op, at); row.Some? ==> row.value.key != k
    ensures Lookup(LiveConfigs(Apply(t, limit, op, at)), k) == Lookup(LiveConfigs(t), k)
  {
    if op.key != k {
      OtherKeysUntouched(t, limit, op, at, k);
    }
  }

  lemma QuietMergeKeepsEntry(g: Gateway, t: Tables, listed: seq<Config>, k: Key)
    requires UniqueKeys(g.state.raw) && g.last.Some? && Collected(g, t, listed).Some?
    requires forall i :: 0 <= i < |t.versions| && t.versions[i].key == k ==> t.versions[i].createdAt <= g.last.value
    ensures var cs := Collected(g, t, listed).value;
            UniqueKeys(cs) && Lookup(AsMap(cs), k) == Lookup(AsMap(g.state.raw), k)
  {
    NoRowSince(t.versions, g.last.value, k);
    ReplayOutcome(g.state.raw, UpdatedSince(t.versions, g.last.value), k);
  }

  lemma QuietPullKeepsCopy(g: Gateway, t: Tables, now: int, listed: seq<Config>, client: bool, k: Key)
    requires UniqueKeys(g.state.raw) && g.last.Some?
    requires forall i :: 0 <= i < |t.versions| && t.versions[i].key == k ==> t.versions[i].createdAt <= g.last.value
    ensures var g' := Pull(g, t, now, listed, client).0;
            && UniqueKeys(g'.state.raw) && (g'.last == g.last || g'.last == Some(now))
            && Lookup(AsMap(g'.state.raw), k) == Lookup(AsMap(g.state.raw), k)
  {
    PullInstallsOrKeeps(g, t, now, listed, client);
    if Collected(g, t, listed).Some? {
      QuietMergeKeepsEntry(g, t, listed, k);
    }
  }

  lemma QuietStepKeepsStuck(w: World, limit: int, e: Event, k: Key, copied: Option<Body>, live: Option<Body>)
    requires Stuck(w, k, copied, live) && Quiet(w, limit, e, k)
    ensures Stuck(Step(w, limit, e), k, copied, live)
  {
    StepKeepsClocked(w, limit, e);
    match e {
      case StoreOp(op, at) =>
        StepRows(w.tables, limit, op, at);
        QuietOpKeepsLive(w.tables, limit, op, at, k);
      case Query(listed, client) =>
        if w.started.Some? {
          QuietPullKeepsCopy(w.gateway, w.tables, w.started.value, listed, client, k);
        }
      case Begin(at) =>
      case NoAnswer =>
    }
  }

  lemma {:induction false} QuietRunKeepsStuck(w: World, limit: int, es: seq<Event>, k: Key, copied: Option<Body>,
                                              live: Option<Body>)
    requires Stuck(w, k, copied, live) && QuietRun(w, limit, es, k)
    ensures Stuck(RunOn(w, limit, es), k, copied, live)
  {
    if es == [] {
    } else {
      QuietRunKeepsStuck(w, limit, es[..|es| - 1], k, copied, live);
      QuietStepKeepsStuck(RunOn(w, limit, es[..|es| - 1]), limit, es[|es| - 1], k, copied, live);
    }
  }

  /** An update that was taken for a repetition is never seen by a gateway that had caught up: over every later run of
      safe operations and reloads that logs no row of `k`, the live table has the new content and the gateway's copy
      keeps the old. */
  lemma UnloggedUpdateIsNeverSeen(w: World, limit: int, k: Key, body: Body, at: int, es: seq<Event>)
    requires CaughtUp(w.gateway, w.tables) && Clocked(w)
    requires SkipsVersion(w.tables, k, body) && Live(w.tables, k) && w.tables.configs[k].body != body
    requires QuietRun(Step(w, limit, StoreOp(OpUpdate(k, body), at)), limit, es, k)
    ensures var w' := RunOn(Step(w, limit, StoreOp(OpUpdate(k, body), at)), limit, es);
            && Lookup(AsMap(w'.gateway.state.raw), k) == Some(w.tables.configs[k].body)
            && Lookup(LiveConfigs(w'.tables), k) == Some(body)
            && !Agrees(w'.gateway, w'.tables)
  {
    var w1 := Step(w, limit, StoreOp(OpUpdate(k, body), at));
    StepRows(w.tables, limit, OpUpdate(k, body), at);
    assert k in LiveConfigs(w.tables) && AsMap(w.gateway.state.raw)[k] == w.tables.configs[k].body;
    QuietRunKeepsStuck(w1, limit, es, k, Some(w.tables.configs[k].body), Some(body));
  }

  // ---- A commit that comes too late stays unseen ----

  lemma OnlyOwnKeyIsVisible(t: Tables, limit: int, op: Op, at: int)
    requires Visible(t, op, at)
    ensures Lookup(LiveConfigs(Apply(t, limit, op, at)), op.key) != Lookup(LiveConfigs(t), op.key)
  {
    var live, live' := LiveConfigs(t), LiveConfigs(Apply(t, limit, op, at));
    LiveIgnoresLimit(t, limit, op, at);
    forall k | k != op.key ensures Lookup(live', k) == Lookup(live, k) {
      OtherKeysUntouched(t, limit, op, at, k);
    }
    if Lookup(live', op.key) == Lookup(live, op.key) {
      MapsAgree(live', live);
    }
  }

  lemma LateCommitIsStuck(w: World, limit: int, op: Op, at: int)
    requires WorldInv(w) && Stamped(w, StoreOp(op, at)) && !InTime(w.gateway, w.tables, op, at)
    ensures var w1 := Step(w, limit, StoreOp(op, at));
            Stuck(w1, op.key, Lookup(LiveConfigs(w.tables), op.key), Lookup(LiveConfigs(w1.tables), op.key))
  {
    StepRows(w.tables, limit, op, at);
    NotBehind(w.gateway, w.tables, op.key);
  }

  /** A safe operation that commits too late is never seen: over every later run of operations and reloads that logs no
      row of its key, the gateway's copy keeps what it had. */
  lemma LateCommitIsNeverSeen(w: World, limit: int, op: Op, at: int, es: seq<Event>)
    requires WorldInv(w) && Stamped(w, StoreOp(op, at)) && !InTime(w.gateway, w.tables, op, at)
    requires QuietRun(Step(w, limit, StoreOp(op, at)), limit, es, op.key)
    ensures var w' := RunOn(Step(w, limit, StoreOp(op, at)), limit, es);
            && Lookup(AsMap(w'.gateway.state.raw), op.key) == Lookup(LiveConfigs(w.tables), op.key)
            && Lookup(LiveConfigs(w'.tables), op.key) != Lookup(LiveConfigs(w.tables), op.key)
            && !Agrees(w'.gateway, w'.tables)
  {
    var w1 := Step(w, limit, StoreOp(op, at));
    LateCommitIsStuck(w, limit, op, at);
    OnlyOwnKeyIsVisible(w.tables, limit, op, at);
    QuietRunKeepsStuck(w1, limit, es, op.key, Lookup(LiveConfigs(w.tables), op.key),
                       Lookup(LiveConfigs(w1.tables), op.key));
  }

  /** What a successful reload yields is the live table if and only if the copy was right before it. */
  lemma PullAgreesExactly(g: Gateway, t: Tables, now: int, listed: seq<Config>, client: bool)
    requires LogInv(t) && UniqueKeys(g.state.raw) && g.last.Some? && Succeeded(Pull(g, t, now, listed, client).1)
    ensures Agrees(Pull(g, t, now, listed, client).0, t) <==> CopyInv(g, t)
  {
    var updated := UpdatedSince(t.versions, g.last.value);
    var merged := Replay(g.state.raw, updated);
    forall k ensures Lookup(AsMap(merged), k) == if Behind(g, t, k) then Lookup(LiveConfigs(t), k)
                                                 else Lookup(AsMap(g.state.raw), k)
    {
      assert KeyLogged(t, k);
      NewestIsDelivered(t.versions, g.last.value, k);
      ReplayOutcome(g.state.raw, updated, k);
    }
    MapsAgreeExactly(AsMap(merged), LiveConfigs(t));
  }

  lemma MapsAgreeExactly(m: map<Key, Body>, m': map<Key, Body>)
    ensures m == m' <==> forall k :: Lookup(m, k) == Lookup(m', k)
  {
    if forall k :: Lookup(m, k) == Lookup(m', k) {
      MapsAgree(m, m');
    }
  }

  ghost predicate StampedRun(limit: int, es: seq<Event>) {
    forall n :: 0 <= n < |es| ==> Stamped(Run(limit, es[..n]), es[n])
  }

  /** Event n of the run is a commit that comes too late. */
  ghost predicate LateAt(limit: int, es: seq<Event>, n: nat)
    requires n < |es|
  {
    var w := Run(limit, es[..n]);
    es[n].StoreOp? && !InTime(w.gateway, w.tables, es[n].op, es[n].at)
  }

  ghost predicate CommitsInTime(limit: int, es: seq<Event>, upto: nat)
    requires upto <= |es|
  {
    forall n :: 0 <= n < upto ==> !LateAt(limit, es, n)
  }

  ghost predicate RightAt(limit: int, es: seq<Event>, n: nat)
    requires n <= |es|
  {
    var w := Run(limit, es[..n]);
    CopyInv(w.gateway, w.tables)
  }

  lemma PrefixRun(limit: int, es: seq<Event>, n: nat)
    requires n <= |es| && StampedRun(limit, es) && CommitsInTime(limit, es, n)
    ensures LegalRun(limit, es[..n])
  {
    forall m | 0 <= m < n ensures Legal(Run(limit, es[..n][..m]), es[..n][m]) {
      assert es[..n][..m] == es[..m] && es[..n][m] == es[m];
      assert !LateAt(limit, es, m);
    }
  }

  lemma {:induction false} FirstLateCommit(limit: int, es: seq<Event>, upto: nat) returns (n: nat)
    requires upto <= |es| && !CommitsInTime(limit, es, upto)
    ensures n < upto && LateAt(limit, es, n) && CommitsInTime(limit, es, n)
  {
    n :| 0 <= n < upto && LateAt(limit, es, n);
    if !CommitsInTime(limit, es, n) {
      n := FirstLateCommit(limit, es, n);
    }
  }

  lemma RunOfPrefix(limit: int, es: seq<Event>, n: nat)
    requires n < |es|
    ensures Run(limit, es[..n + 1]) == Step(Run(limit, es[..n]), limit, es[n])
  {
    assert es[..n + 1][..n] == es[..n];
  }

  lemma InTimeIsRight(limit: int, es: seq<Event>, n: nat)
    requires n <= |es| && StampedRun(limit, es) && CommitsInTime(limit, es, n)
    ensures RightAt(limit, es, n)
  {
    PrefixRun(limit, es, n);
    RunKeepsWorld(limit, es[..n]);
  }

  lemma FirstLateIsWrong(limit: int, es: seq<Event>, n: nat)
    requires n < |es| && StampedRun(limit, es) && CommitsInTime(limit, es, n) && LateAt(limit, es, n)
    ensures !RightAt(limit, es, n + 1)
  {
    var w := Run(limit, es[..n]);
    PrefixRun(limit, es, n);
    RunKeepsWorld(limit, es[..n]);
    assert Stamped(w, es[n]);
    CommitKeepsCopyExactlyInTime(w.tables, limit, es[n].op, es[n].at, w.gateway);
    RunOfPrefix(limit, es, n);
  }

  /** Over every run the gateway's copy is right at every moment, up to rows it will still ask for, if and only if every
      commit was in time: no reload that began at or after a row's stamp took effect before the row was committed. */
  lemma CopyRightExactlyWhenInTime(limit: int, es: seq<Event>)
    requires StampedRun(limit, es)
    ensures (forall n :: 0 <= n <= |es| ==> RightAt(limit, es, n)) <==> CommitsInTime(limit, es, |es|)
  {
    if CommitsInTime(limit, es, |es|) {
      forall n | 0 <= n <= |es| ensures RightAt(limit, es, n) {
        InTimeIsRight(limit, es, n);
      }
    } else {
      var n := FirstLateCommit(limit, es, |es|);
      FirstLateIsWrong(limit, es, n);
    }
  }

  // ---- Runs of what the handlers let through ----

  /** The store is changed only as the handlers allow, and commits are in time. */
  ghost predicate Handled(w: World, e: Event) {
    if e.StoreOp? then
      Later(w.tables, e.at) && HandlerAllows(w.tables, e.op) && InTime(w.gateway, w.tables, e.op, e.at)
    else Legal(w, e)
  }

  ghost predicate HandledRun(limit: int, es: seq<Event>) {
    forall n :: 0 <= n < |es| ==> Handled(Run(limit, es[..n]), es[n])
  }

  lemma HandledStep(w: World, limit: int, e: Event)
    requires WorldInv(w) && StoreInv(w.tables) && Handled(w, e)
    ensures Legal(w, e) && WorldInv(Step(w, limit, e)) && StoreInv(Step(w, limit, e).tables)
  {
    if e.StoreOp? {
      HandlersAreSafe(w.tables, e.op);
      StepKeepsStore(w.tables, limit, e.op, e.at);
    }
    StepKeepsWorld(w, limit, e);
  }

  lemma StartIsInStep()
    ensures WorldInv(StartWorld) && StoreInv(StartWorld.tables)
  {
    assert forall k :: KeyLogged(EmptyTables, k) && PointerOk(EmptyTables, k);
  }

  lemma {:induction false} HandledPrefix(limit: int, es: seq<Event>, n: nat)
    requires HandledRun(limit, es) && n <= |es|
    ensures WorldInv(Run(limit, es[..n])) && StoreInv(Run(limit, es[..n]).tables)
  {
    if n == 0 {
      StartIsInStep();
    } else {
      HandledPrefix(limit, es, n - 1);
      HandledStep(Run(limit, es[..n - 1]), limit, es[n - 1]);
      assert es[..n][..n - 1] == es[..n - 1];
    }
  }

  lemma HandledRunIsLegal(limit: int, es: seq<Event>)
    requires HandledRun(limit, es)
    ensures LegalRun(limit, es) && StoreInv(Run(limit, es).tables)
  {
    forall n | 0 <= n < |es| ensures Legal(Run(limit, es[..n]), es[n]) {
      HandledPrefix(limit, es, n);
      HandledStep(Run(limit, es[..n]), limit, es[n]);
    }
    HandledPrefix(limit, es, |es|);
    assert es[..|es|] == es;
  }

  /** With the handlers' look-ups and names unique across tenants the tables stay in step and every successful reload
      yields the live table, over every interleaving of whole requests and reloads. */
  lemma HandledReloadsAreExact(limit: int, es: seq<Event>, listed: seq<Config>, client: bool)
    requires HandledRun(limit, es)
    requires var w := Run(limit, es); w.started.Some? && Handled(w, Query(listed, client))
    ensures var w := Run(limit, es);
            var (g, out) := Pull(w.gateway, w.tables, w.started.value, listed, client);
            StoreInv(w.tables) && (Succeeded(out) ==> AsMap(g.state.raw) == LiveConfigs(w.tables))
  {
    HandledRunIsLegal(limit, es);
    IncrementalReloadRefinesFullReload(limit, es, listed, client);
  }

  // ---- Transports over runs of pull reloads ----

  /** The reloads a run came to build. */
  ghost function Builds(limit: int, es: seq<Event>): seq<Reload> {
    if es == [] then []
    else
      var before, e := es[..|es| - 1], es[|es| - 1];
      Builds(limit, before) + BuildsIn(Run(limit, before), e)
  }

  ghost function BuildsIn(w: World, e: Event): seq<Reload> {
    if !e.Query? || w.started.None? then []
    else
      var cs := Collected(w.gateway, w.tables, e.listed);
      if cs.None? || !ValidConfigs(cs.value) then [] else [Reload(cs.value, e.client)]
  }

  lemma ReloadSnoc(rs: seq<Reload>, r: Reload)
    ensures AfterReloads(rs + [r]) == AfterReload(AfterReloads(rs), r)
  {
    assert (rs + [r])[..|rs|] == rs;
  }

  lemma PullIsReload(g: Gateway, t: Tables, now: int, listed: seq<Config>, client: bool, k: Keeper)
    requires g.state == k.state && g.next == k.next
    requires Collected(g, t, listed).Some? && ValidConfigs(Collected(g, t, listed).value)
    ensures var g' := Pull(g, t, now, listed, client).0;
            var k' := AfterReload(k, Reload(Collected(g, t, listed).value, client));
            g'.state == k'.state && g'.next == k'.next
  {
  }

  lemma IdleStep(w: World, limit: int, e: Event)
    requires BuildsIn(w, e) == []
    ensures Step(w, limit, e).gateway == w.gateway
  {
  }

  lemma BuildStep(w: World, limit: int, e: Event, rs: seq<Reload>)
    requires w.gateway.state == AfterReloads(rs).state && w.gateway.next == AfterReloads(rs).next
    ensures var w', k := Step(w, limit, e), AfterReloads(rs + BuildsIn(w, e));
            w'.gateway.state == k.state && w'.gateway.next == k.next
  {
    if BuildsIn(w, e) == [] {
      IdleStep(w, limit, e);
      assert rs + [] == rs;
    } else {
      PullIsReload(w.gateway, w.tables, w.started.value, e.listed, e.client, AfterReloads(rs));
      ReloadSnoc(rs, Reload(Collected(w.gateway, w.tables, e.listed).value, e.client));
    }
  }

  /** A run of pull reloads is a run of the reloads it came to build, so what holds of those holds here: in every state
      no two prefixes share a transport, and none that a shutdown pass stopped at any earlier point is held. */
  lemma {:induction false} RunIsBuilds(limit: int, es: seq<Event>)
    ensures var g, k := Run(limit, es).gateway, AfterReloads(Builds(limit, es));
            && g.state == k.state && g.next == k.next
            && Unshared(g.state.runtime) && Owned(g.state.runtime, g.next) && Held(g.state.runtime) !! k.stopped
  {
    if es == [] {
    } else {
      var before := es[..|es| - 1];
      RunIsBuilds(limit, before);
      BuildStep(Run(limit, before), limit, es[|es| - 1], Builds(limit, before));
    }
    StoppedTransportsNeverReturn(Builds(limit, es), |Builds(limit, es)|);
    assert Builds(limit, es)[..|Builds(limit, es)|] == Builds(limit, es);
  }

  // ---- The index follows the live table ----

  /** The index of a state serves the configurations the state holds, and nothing else. */
  ghost predicate Serves(s: State) {
    && IndexScan.WellKept(s.runtime)
    && (forall i, r :: 0 <= i < |s.raw| && r in s.raw[i].body.routers ==>
          r.prefix in s.runtime && IndexScan.ServedAs(s.runtime[r.prefix], s.raw[i], r))
    && (forall p :: p in s.runtime ==> IndexScan.RoutesAny(s.raw, p))
  }

  lemma PullKeepsServing(g: Gateway, t: Tables, now: int, listed: seq<Config>, client: bool)
    requires Serves(g.state)
    ensures Serves(Pull(g, t, now, listed, client).0.state)
  {
    var collected := Collected(g, t, listed);
    if collected.Some? && ValidConfigs(collected.value) {
      var cs := collected.value;
      if BuildFrom(cs, g.state.runtime, client, g.next).Built? {
        IndexScan.IndexEqualsScan(cs, g.state.runtime, client, g.next);
      }
    }
  }

  lemma {:induction false} RunKeepsServing(limit: int, es: seq<Event>)
    ensures Serves(Run(limit, es).gateway.state)
  {
    if es == [] {
    } else {
      var w := Run(limit, es[..|es| - 1]);
      RunKeepsServing(limit, es[..|es| - 1]);
      if es[|es| - 1].Query? && w.started.Some? {
        var Query(listed, client) := es[|es| - 1];
        PullKeepsServing(w.gateway, w.tables, w.started.value, listed, client);
      }
    }
  }

  /** The gateway after a reload that finds the live table. */
  lemma ReloadServesLive(limit: int, es: seq<Event>, listed: seq<Config>, client: bool)
    requires LegalRun(limit, es)
    requires var w := Run(limit, es); w.started.Some? && Legal(w, Query(listed, client))
    requires var w := Run(limit, es); Succeeded(Pull(w.gateway, w.tables, w.started.value, listed, client).1)
    ensures var w := Run(limit, es);
            var s := Pull(w.gateway, w.tables, w.started.value, listed, client).0.state;
            Serves(s) && UniqueKeys(s.raw) && AsMap(s.raw) == LiveConfigs(w.tables)
  {
    var w := Run(limit, es);
    RunKeepsWorld(limit, es);
    PullAgrees(w.gateway, w.tables, w.started.value, listed, client);
    RunKeepsServing(limit, es);
    PullKeepsServing(w.gateway, w.tables, w.started.value, listed, client);
  }

  /** End to end: after a successful reload every router of every live configuration is served as its own configuration
      says: for its tenant, by its server, with the tools it allows, over its protocol, and with a transport exactly
      when it is an MCP router. */
  lemma LiveRoutersAreServed(limit: int, es: seq<Event>, listed: seq<Config>, client: bool, k: Key, r: Router)
    requires LegalRun(limit, es)
    requires var w := Run(limit, es); w.started.Some? && Legal(w, Query(listed, client))
    requires var w := Run(limit, es); Succeeded(Pull(w.gateway, w.tables, w.started.value, listed, client).1)
    requires var live := LiveConfigs(Run(limit, es).tables); k in live && r in live[k].routers
    ensures var w := Run(limit, es);
            var rt := Pull(w.gateway, w.tables, w.started.value, listed, client).0.state.runtime;
            r.prefix in rt && IndexScan.ServedAs(rt[r.prefix], Config(k, LiveConfigs(w.tables)[k]), r)
  {
    var w := Run(limit, es);
    var s := Pull(w.gateway, w.tables, w.started.value, listed, client).0.state;
    ReloadServesLive(limit, es, listed, client);
    MapIsMembership(s.raw, k);
    var c := Config(k, LiveConfigs(w.tables)[k]);
    assert c in s.raw;
    var i :| 0 <= i < |s.raw| && s.raw[i] == c;
  }

  lemma RoutedPrefixIsMapped(raw: seq<Config>, p: string) returns (k: Key, r: Router)
    requires UniqueKeys(raw) && IndexScan.RoutesAny(raw, p)
    ensures k in AsMap(raw) && r in AsMap(raw)[k].routers && r.prefix == p
  {
    var i :| 0 <= i < |raw| && IndexScan.Routes(raw[i], p);
    r :| r in raw[i].body.routers && r.prefix == p;
    k := raw[i].key;
    MapIsMembership(raw, k);
  }

  /** And nothing else is served: every indexed prefix is that of a router of a live configuration. */
  lemma OnlyLiveRoutersAreServed(limit: int, es: seq<Event>, listed: seq<Config>, client: bool, p: string)
    returns (k: Key, r: Router)
    requires LegalRun(limit, es)
    requires var w := Run(limit, es); w.started.Some? && Legal(w, Query(listed, client))
    requires var w := Run(limit, es); Succeeded(Pull(w.gateway, w.tables, w.started.value, listed, client).1)
    requires var w := Run(limit, es); p in Pull(w.gateway, w.tables, w.started.value, listed, client).0.state.runtime
    ensures var live := LiveConfigs(Run(limit, es).tables); k in live && r in live[k].routers && r.prefix == p
  {
    var w := Run(limit, es);
    ReloadServesLive(limit, es, listed, client);
    k, r := RoutedPrefixIsMapped(Pull(w.gateway, w.tables, w.started.value, listed, client).0.state.raw, p);
  }
}
