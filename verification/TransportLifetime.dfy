/** Who holds a transport, over any run of reloads: the shutdown pass never stops a transport the new index holds, and
    no later index holds one it stopped. */
module TransportLifetime {
  import opened Options
  import opened ConfigModel
  import opened RuntimeIndex

  function Held(rt: Runtime): set<nat> {
    set p | p in rt && rt[p].transport.Some? :: rt[p].transport.value
  }

  /** No two prefixes share a transport. */
  ghost predicate Unshared(rt: Runtime) {
    forall p, q :: p in rt && q in rt && p != q && rt[p].transport.Some? ==> rt[p].transport != rt[q].transport
  }

  /** Transports belong to MCP servers, and only numbers below `next` were given out. */
  ghost predicate Owned(rt: Runtime, next: nat) {
    forall p :: p in rt && rt[p].transport.Some? ==> rt[p].mcpServer.Some? && rt[p].transport.value < next
  }

  /** During a build every transport is the one its prefix had before, for a server launched as before, or a new one. */
  ghost predicate BuildKeeps(x: Context, start: nat, b: Build) {
    && start <= b.next
    && Unshared(b.runtime)
    && Owned(b.runtime, b.next)
    && forall p :: p in b.runtime && b.runtime[p].transport.Some? ==>
         || start <= b.runtime[p].transport.value
         || (p in x.prev && x.prev[p].transport == b.runtime[p].transport && x.prev[p].mcpServer.Some?
             && var a, m := x.prev[p].mcpServer.value, b.runtime[p].mcpServer.value;
                a.kind == m.kind && a.command == m.command && a.url == m.url && a.args == m.args)
  }

  lemma {:induction false} RoutersKeep(x: Context, start: nat, b: Build, routers: seq<Router>)
    requires BuildKeeps(x, start, b)
    ensures BuildKeeps(x, start, b.(runtime := IndexRouters(b.runtime, routers)))
    decreases |routers|
  {
    if routers == [] {
    } else {
      var r := routers[0];
      var rt := b.runtime[r.prefix := UnitAt(b.runtime, r.prefix).(router := Some(r))];
      RoutersKeep(x, start, b.(runtime := rt), routers[1..]);
    }
  }

  lemma {:induction false} HttpPrefixesKeep(x: Context, start: nat, b: Build, tenant: string, s: HttpServer,
                                            tools: map<string, Tool>, prefixes: seq<string>)
    requires BuildKeeps(x, start, b)
    ensures BuildKeeps(x, start, b.(runtime := IndexHttpPrefixes(b.runtime, tenant, s, tools, prefixes)))
    decreases |prefixes|
  {
    if prefixes == [] {
    } else {
      var p := prefixes[0];
      var rt := b.runtime[p := HttpUnit(UnitAt(b.runtime, p), tenant, s, tools)];
      HttpPrefixesKeep(x, start, b.(runtime := rt), tenant, s, tools, prefixes[1..]);
    }
  }

  lemma {:induction false} HttpServersKeep(x: Context, start: nat, b: Build, c: Config, servers: seq<HttpServer>)
    requires BuildKeeps(x, start, b)
    ensures BuildKeeps(x, start, IndexHttpServers(b, c, servers))
    decreases |servers|
  {
    if servers == [] {
    } else {
      var s := servers[0];
      HttpPrefixesKeep(x, start, b, c.key.tenant, s, Allowed(ToolMap(c.body.tools), s.allowedTools),
                       PrefixesOf(c.body.routers, s.name));
      HttpServersKeep(x, start, IndexHttpServer(b, c, s), c, servers[1..]);
    }
  }

  lemma UnsharedUpdate(rt: Runtime, p: string, u: Unit)
    requires Unshared(rt)
    requires forall q :: q in rt && q != p ==> rt[q].transport.None? || rt[q].transport != u.transport
    ensures Unshared(rt[p := u])
  {
  }

  lemma McpPrefixKeeps(x: Context, start: nat, b: Build, tenant: string, m: McpServer, p: string)
    requires Unshared(x.prev) && Owned(x.prev, start) && BuildKeeps(x, start, b)
    ensures BuildKeeps(x, start, IndexMcpPrefix(x, b, tenant, m, p))
  {
    var reused := Reusable(x.prev, p, m);
    var u := McpUnit(UnitAt(b.runtime, p), tenant, m, if reused.Some? then reused.value else b.next);
    UnsharedUpdate(b.runtime, p, u);
  }

  lemma {:induction false} McpPrefixesKeep(x: Context, start: nat, b: Build, tenant: string, m: McpServer,
                                           prefixes: seq<string>)
    requires Unshared(x.prev) && Owned(x.prev, start) && BuildKeeps(x, start, b)
    ensures BuildKeeps(x, start, IndexMcpPrefixes(x, b, tenant, m, prefixes))
    decreases |prefixes|
  {
    if !b.failed && prefixes != [] {
      McpPrefixKeeps(x, start, b, tenant, m, prefixes[0]);
      McpPrefixesKeep(x, start, IndexMcpPrefix(x, b, tenant, m, prefixes[0]), tenant, m, prefixes[1..]);
    }
  }

  lemma {:induction false} McpServersKeep(x: Context, start: nat, b: Build, c: Config, servers: seq<McpServer>)
    requires Unshared(x.prev) && Owned(x.prev, start) && BuildKeeps(x, start, b)
    ensures BuildKeeps(x, start, IndexMcpServers(x, b, c, servers))
    decreases |servers|
  {
    if !b.failed && servers != [] {
      var prefixes := PrefixesOf(c.body.routers, servers[0].name);
      McpPrefixesKeep(x, start, b, c.key.tenant, servers[0], prefixes);
      McpServersKeep(x, start, IndexMcpPrefixes(x, b, c.key.tenant, servers[0], prefixes), c, servers[1..]);
    }
  }

  lemma {:induction false} ConfigsKeep(x: Context, start: nat, b: Build, cs: seq<Config>)
    requires Unshared(x.prev) && Owned(x.prev, start) && BuildKeeps(x, start, b)
    ensures BuildKeeps(x, start, IndexConfigs(x, b, cs))
    decreases |cs|
  {
    if !b.failed && cs != [] {
      var c := cs[0];
      var routed := b.(runtime := IndexRouters(b.runtime, c.body.routers));
      RoutersKeep(x, start, b, c.body.routers);
      HttpServersKeep(x, start, routed, c, c.body.servers);
      McpServersKeep(x, start, IndexHttpServers(routed, c, c.body.servers), c, c.body.mcpServers);
      ConfigsKeep(x, start, IndexConfig(x, b, c), cs[1..]);
    }
  }

  // ---- Runs of reloads ----

  /** The gateway's state, every transport a shutdown pass ever stopped, and the next free number. */
  datatype Keeper = Keeper(state: State, stopped: set<nat>, next: nat)

  const StartKeeper := Keeper(EmptyState, {}, 0)

  /** Any list of configurations may be built, validated or not, with or without a discovery client. */
  datatype Reload = Reload(configs: seq<Config>, client: bool)

  function AfterReload(g: Keeper, r: Reload): Keeper {
    match BuildFrom(r.configs, g.state.runtime, r.client, g.next)
    case BuildFailed(next) => g.(next := next)
    case Built(state, stopped, next) => Keeper(state, g.stopped + stopped, next)
  }

  ghost predicate LifetimeInv(g: Keeper) {
    && Unshared(g.state.runtime)
    && Owned(g.state.runtime, g.next)
    && Held(g.state.runtime) !! g.stopped
    && forall t :: t in g.stopped ==> t < g.next
  }

  /** One reload: what the shutdown pass stops was held before and is not held after; nothing that is held after
      was ever stopped; a failed build stops nothing and leaves the state alone. */
  lemma ReloadKeepsLifetimes(g: Keeper, r: Reload)
    requires LifetimeInv(g)
    ensures LifetimeInv(AfterReload(g, r))
    ensures g.stopped <= AfterReload(g, r).stopped <= g.stopped + Held(g.state.runtime)
    ensures BuildFrom(r.configs, g.state.runtime, r.client, g.next).BuildFailed? ==>
              AfterReload(g, r).state == g.state && AfterReload(g, r).stopped == g.stopped
  {
    var x := Context(g.state.runtime, r.client);
    var b := IndexConfigs(x, StartBuild(g.next), r.configs);
    ConfigsKeep(x, g.next, StartBuild(g.next), r.configs);
    if !b.failed {
      var stopped := Stopped(g.state.runtime, b.runtime);
      forall t | t in Held(b.runtime) ensures t !in stopped && t !in g.stopped {
        var p :| p in b.runtime && b.runtime[p].transport == Some(t);
        assert t in g.stopped ==> t in Held(g.state.runtime);
      }
    }
  }

  function AfterReloads(rs: seq<Reload>): Keeper {
    if rs == [] then StartKeeper else AfterReload(AfterReloads(rs[..|rs| - 1]), rs[|rs| - 1])
  }

  /** Over any run of reloads: no sharing, and a transport stopped at any earlier point is not held at any later one. */
  lemma {:induction false} StoppedTransportsNeverReturn(rs: seq<Reload>, n: nat)
    requires n <= |rs|
    ensures LifetimeInv(AfterReloads(rs))
    ensures AfterReloads(rs[..n]).stopped <= AfterReloads(rs).stopped
    ensures Unshared(AfterReloads(rs).state.runtime)
    ensures Held(AfterReloads(rs).state.runtime) !! AfterReloads(rs[..n]).stopped
  {
    if rs != [] {
      var before := rs[..|rs| - 1];
      StoppedTransportsNeverReturn(before, if n < |rs| then n else |rs| - 1);
      ReloadKeepsLifetimes(AfterReloads(before), rs[|rs| - 1]);
      if n < |rs| {
        assert before[..n] == rs[..n];
      } else {
        assert rs[..n] == rs;
      }
    } else {
      assert rs[..n] == [];
    }
  }
}
