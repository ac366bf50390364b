/** Building the prefix-keyed runtime index from a list of configurations, reusing the transports of the previous
    state and stopping those of prefixes that are gone (internal/core/state/state.go, getter.go). */
module RuntimeIndex {
  import opened Options
  import opened ConfigModel

  datatype Proto = NoProto | Http | Stdio | Sse | Streamable

  /** Transports are told apart by number. */
  datatype Unit = Unit(proto: Proto, tenant: string, router: Option<Router>, server: Option<HttpServer>,
                       mcpServer: Option<McpServer>, transport: Option<nat>, tools: map<string, Tool>)

  type Runtime = map<string, Unit>

  datatype State = State(raw: seq<Config>, runtime: Runtime, missingTools: nat)

  /** What a build has done so far; `next` numbers the next new transport. */
  datatype Build = Build(runtime: Runtime, next: nat, missingTools: nat, failed: bool)

  /** What a build looks at besides the configurations: the previous index, and whether there is a discovery client. */
  datatype Context = Context(prev: Runtime, client: bool)

  const EmptyUnit := Unit(NoProto, "", None, None, None, None, map[])

  const EmptyState := State([], map[], 0)

  function UnitAt(rt: Runtime, p: string): Unit {
    if p in rt then rt[p] else EmptyUnit
  }

  function ProtoOf(kind: string): Proto {
    if kind == "stdio" then Stdio
    else if kind == "sse" then Sse
    else if kind == "streamable-http" then Streamable
    else NoProto
  }

  // ---- What one configuration contributes ----

  function ToolMap(tools: seq<Tool>): map<string, Tool> {
    if tools == [] then map[] else ToolMap(tools[..|tools| - 1])[tools[|tools| - 1].name := tools[|tools| - 1]]
  }

  /** The distinct prefixes routed to a server. */
  function PrefixesOf(routers: seq<Router>, server: string): seq<string> {
    if routers == [] then []
    else
      var r := routers[|routers| - 1];
      var before := PrefixesOf(routers[..|routers| - 1], server);
      if r.server == server && r.prefix !in before then before + [r.prefix] else before
  }

  function Allowed(known: map<string, Tool>, names: seq<string>): map<string, Tool> {
    map n | n in names && n in known :: known[n]
  }

  function CountMissing(known: map<string, Tool>, names: seq<string>): nat {
    if names == [] then 0
    else CountMissing(known, names[..|names| - 1]) + if names[|names| - 1] in known then 0 else 1
  }

  function IndexRouters(rt: Runtime, routers: seq<Router>): Runtime
    decreases |routers|
  {
    if routers == [] then rt
    else
      var r := routers[0];
      IndexRouters(rt[r.prefix := UnitAt(rt, r.prefix).(router := Some(r))], routers[1..])
  }

  function HttpUnit(u: Unit, tenant: string, s: HttpServer, tools: map<string, Tool>): Unit {
    u.(proto := Http, tenant := tenant, server := Some(s), tools := tools)
  }

  function IndexHttpPrefixes(rt: Runtime, tenant: string, s: HttpServer, tools: map<string, Tool>,
                             prefixes: seq<string>): Runtime
    decreases |prefixes|
  {
    if prefixes == [] then rt
    else
      var p := prefixes[0];
      IndexHttpPrefixes(rt[p := HttpUnit(UnitAt(rt, p), tenant, s, tools)], tenant, s, tools, prefixes[1..])
  }

  function IndexHttpServer(b: Build, c: Config, s: HttpServer): Build {
    var prefixes := PrefixesOf(c.body.routers, s.name);
    if prefixes == [] then b
    else
      var known := ToolMap(c.body.tools);
      b.(runtime := IndexHttpPrefixes(b.runtime, c.key.tenant, s, Allowed(known, s.allowedTools), prefixes),
         missingTools := b.missingTools + CountMissing(known, s.allowedTools))
  }

  function IndexHttpServers(b: Build, c: Config, servers: seq<HttpServer>): Build
    decreases |servers|
  {
    if servers == [] then b else IndexHttpServers(IndexHttpServer(b, c, servers[0]), c, servers[1..])
  }

  /** Reuse compares the launch data only: type, command, URL and arguments. */
  predicate SameLaunch(a: McpServer, b: McpServer) {
    a.kind == b.kind && a.command == b.command && a.url == b.url && a.args == b.args
  }

  function Reusable(prev: Runtime, p: string, m: McpServer): Option<nat> {
    if p in prev && prev[p].mcpServer.Some? && SameLaunch(prev[p].mcpServer.value, m) then prev[p].transport else None
  }

  predicate CanCreate(client: bool, m: McpServer) {
    if m.discovery.enabled then client else ProtoOf(m.kind) != NoProto
  }

  function McpUnit(u: Unit, tenant: string, m: McpServer, transport: nat): Unit {
    u.(tenant := tenant, mcpServer := Some(m), transport := Some(transport),
       proto := if ProtoOf(m.kind) == NoProto then u.proto else ProtoOf(m.kind))
  }

  function IndexMcpPrefix(x: Context, b: Build, tenant: string, m: McpServer, p: string): Build {
    var reused := Reusable(x.prev, p, m);
    if reused.Some? then
      b.(runtime := b.runtime[p := McpUnit(UnitAt(b.runtime, p), tenant, m, reused.value)])
    else if CanCreate(x.client, m) then
      b.(runtime := b.runtime[p := McpUnit(UnitAt(b.runtime, p), tenant, m, b.next)], next := b.next + 1)
    else
      b.(failed := true)
  }

  function IndexMcpPrefixes(x: Context, b: Build, tenant: string, m: McpServer, prefixes: seq<string>): Build
    decreases |prefixes|
  {
    if b.failed || prefixes == [] then b
    else IndexMcpPrefixes(x, IndexMcpPrefix(x, b, tenant, m, prefixes[0]), tenant, m, prefixes[1..])
  }

  function IndexMcpServers(x: Context, b: Build, c: Config, servers: seq<McpServer>): Build
    decreases |servers|
  {
    if b.failed || servers == [] then b
    else
      var b' := IndexMcpPrefixes(x, b, c.key.tenant, servers[0], PrefixesOf(c.body.routers, servers[0].name));
      IndexMcpServers(x, b', c, servers[1..])
  }

  function IndexConfig(x: Context, b: Build, c: Config): Build {
    var routed := b.(runtime := IndexRouters(b.runtime, c.body.routers));
    IndexMcpServers(x, IndexHttpServers(routed, c, c.body.servers), c, c.body.mcpServers)
  }

  function IndexConfigs(x: Context, b: Build, cs: seq<Config>): Build
    decreases |cs|
  {
    if b.failed || cs == [] then b else IndexConfigs(x, IndexConfig(x, b, cs[0]), cs[1..])
  }

  function StartBuild(next: nat): Build {
    Build(map[], next, 0, false)
  }

  /** The transports the shutdown pass stops: those of prefixes the new index does not have. */
  function Stopped(prev: Runtime, rt: Runtime): set<nat> {
    set p | p in prev && p !in rt && prev[p].mcpServer.Some? && prev[p].transport.Some? :: prev[p].transport.value
  }

  datatype BuildResult = Built(state: State, stopped: set<nat>, next: nat) | BuildFailed(next: nat)

  function BuildFrom(cs: seq<Config>, prev: Runtime, client: bool, next: nat): BuildResult {
    var b := IndexConfigs(Context(prev, client), StartBuild(next), cs);
    if b.failed then BuildFailed(b.next)
    else Built(State(cs, b.runtime, b.missingTools), Stopped(prev, b.runtime), b.next)
  }

  // ---- The build as the gateway runs it ----

  method CollectTools(tools: seq<Tool>) returns (toolMap: map<string, Tool>)
    ensures toolMap == ToolMap(tools)
  {
    toolMap := map[];
    for i := 0 to |tools|
      invariant toolMap == ToolMap(tools[..i])
    {
      assert tools[..i + 1][..i] == tools[..i];
      toolMap := toolMap[tools[i].name := tools[i]];
    }
    assert tools[..|tools|] == tools;
  }

  method CollectPrefixes(routers: seq<Router>) returns (prefixMap: map<string, seq<string>>)
    ensures forall s :: s in prefixMap <==> PrefixesOf(routers, s) != []
    ensures forall s :: s in prefixMap ==> prefixMap[s] == PrefixesOf(routers, s)
  {
    prefixMap := map[];
    for i := 0 to |routers|
      invariant forall s :: s in prefixMap <==> PrefixesOf(routers[..i], s) != []
      invariant forall s :: s in prefixMap ==> prefixMap[s] == PrefixesOf(routers[..i], s)
    {
      assert routers[..i + 1][..i] == routers[..i];
      var r := routers[i];
      if r.server !in prefixMap {
        prefixMap := prefixMap[r.server := [r.prefix]];
      } else if r.prefix !in prefixMap[r.server] {
        prefixMap := prefixMap[r.server := prefixMap[r.server] + [r.prefix]];
      }
    }
    assert routers[..|routers|] == routers;
  }

  method CollectAllowed(toolMap: map<string, Tool>, names: seq<string>)
    returns (allowed: map<string, Tool>, missing: nat)
    ensures allowed == Allowed(toolMap, names) && missing == CountMissing(toolMap, names)
  {
    allowed, missing := map[], 0;
    for i := 0 to |names|
      invariant allowed == Allowed(toolMap, names[..i])
      invariant missing == CountMissing(toolMap, names[..i])
    {
      assert names[..i + 1][..i] == names[..i];
      assert names[..i + 1] == names[..i] + [names[i]];
      if names[i] in toolMap {
        allowed := allowed[names[i] := toolMap[names[i]]];
      } else {
        missing := missing + 1;
      }
    }
    assert names[..|names|] == names;
  }

  method BuildRouters(rt: Runtime, routers: seq<Router>) returns (r: Runtime)
    ensures r == IndexRouters(rt, routers)
  {
    r := rt;
    for i := 0 to |routers|
      invariant IndexRouters(r, routers[i..]) == IndexRouters(rt, routers)
    {
      var router := routers[i];
      r := r[router.prefix := UnitAt(r, router.prefix).(router := Some(router))];
    }
  }

  method BuildHttpServer(b: Build, c: Config, s: HttpServer, toolMap: map<string, Tool>,
                         prefixMap: map<string, seq<string>>) returns (r: Build)
    requires toolMap == ToolMap(c.body.tools)
    requires forall n :: n in prefixMap <==> PrefixesOf(c.body.routers, n) != []
    requires forall n :: n in prefixMap ==> prefixMap[n] == PrefixesOf(c.body.routers, n)
    ensures r == IndexHttpServer(b, c, s)
  {
    if s.name !in prefixMap {
      return b;
    }
    var allowed, missing := CollectAllowed(toolMap, s.allowedTools);
    var prefixes := prefixMap[s.name];
    var rt := b.runtime;
    for j := 0 to |prefixes|
      invariant IndexHttpPrefixes(rt, c.key.tenant, s, allowed, prefixes[j..]) ==
                IndexHttpPrefixes(b.runtime, c.key.tenant, s, allowed, prefixes)
    {
      var p := prefixes[j];
      rt := rt[p := HttpUnit(UnitAt(rt, p), c.key.tenant, s, allowed)];
    }
    r := b.(runtime := rt, missingTools := b.missingTools + missing);
  }

  method BuildMcpServer(x: Context, b: Build, tenant: string, m: McpServer, prefixes: seq<string>) returns (r: Build)
    requires !b.failed
    ensures r == IndexMcpPrefixes(x, b, tenant, m, prefixes)
  {
    r := b;
    for j := 0 to |prefixes|
      invariant !r.failed
      invariant IndexMcpPrefixes(x, r, tenant, m, prefixes[j..]) == IndexMcpPrefixes(x, b, tenant, m, prefixes)
    {
      var p := prefixes[j];
      var transport := Reusable(x.prev, p, m);
      if transport.None? {
        if !CanCreate(x.client, m) {
          return r.(failed := true);
        }
        transport := Some(r.next);
        r := r.(next := r.next + 1);
      }
      r := r.(runtime := r.runtime[p := McpUnit(UnitAt(r.runtime, p), tenant, m, transport.value)]);
    }
  }

  /** One configuration; stops at the first transport that cannot be created. */
  method BuildConfig(x: Context, b: Build, c: Config) returns (r: Build)
    requires !b.failed
    ensures r == IndexConfig(x, b, c)
  {
    var toolMap := CollectTools(c.body.tools);
    var prefixMap := CollectPrefixes(c.body.routers);
    var rt := BuildRouters(b.runtime, c.body.routers);
    ghost var routed := b.(runtime := rt);
    r := b.(runtime := rt);
    for i := 0 to |c.body.servers|
      invariant !r.failed
      invariant IndexHttpServers(r, c, c.body.servers[i..]) == IndexHttpServers(routed, c, c.body.servers)
    {
      r := BuildHttpServer(r, c, c.body.servers[i], toolMap, prefixMap);
    }
    ghost var served := r;
    for i := 0 to |c.body.mcpServers|
      invariant !r.failed
      invariant IndexMcpServers(x, r, c, c.body.mcpServers[i..]) == IndexMcpServers(x, served, c, c.body.mcpServers)
    {
      var m := c.body.mcpServers[i];
      if m.name in prefixMap {
        r := BuildMcpServer(x, r, c.key.tenant, m, prefixMap[m.name]);
        if r.failed {
          return;
        }
      }
    }
  }

  method BuildStateFromConfig(cs: seq<Config>, prev: Runtime, client: bool, next: nat) returns (r: BuildResult)
    ensures r == BuildFrom(cs, prev, client, next)
  {
    var x := Context(prev, client);
    var b := StartBuild(next);
    for i := 0 to |cs|
      invariant !b.failed
      invariant IndexConfigs(x, b, cs[i..]) == IndexConfigs(x, StartBuild(next), cs)
    {
      b := BuildConfig(x, b, cs[i]);
      if b.failed {
        return BuildFailed(b.next);
      }
    }
    var stopped := {};
    var rest := prev.Keys;
    while rest != {}
      invariant rest <= prev.Keys
      invariant stopped == set p | p in prev && p !in rest && p !in b.runtime && prev[p].mcpServer.Some?
                                && prev[p].transport.Some? :: prev[p].transport.value
      decreases |rest|
    {
      var p :| p in rest;
      rest := rest - {p};
      if p !in b.runtime && prev[p].mcpServer.Some? && prev[p].transport.Some? {
        stopped := stopped + {prev[p].transport.value};
      }
    }
    r := Built(State(cs, b.runtime, b.missingTools), stopped, b.next);
  }

  // ---- Getters ----

  function GetTool(s: State, prefix: string, name: string): Option<Tool> {
    if prefix in s.runtime && name in s.runtime[prefix].tools then Some(s.runtime[prefix].tools[name]) else None
  }

  function GetProtoType(s: State, prefix: string): Proto {
    if prefix in s.runtime then s.runtime[prefix].proto else NoProto
  }

  function GetTransport(s: State, prefix: string): Option<nat> {
    if prefix in s.runtime then s.runtime[prefix].transport else None
  }

  function GetTenant(s: State, prefix: string): string {
    if prefix in s.runtime then s.runtime[prefix].tenant else ""
  }

  method GetRouterCount(s: State) returns (count: nat)
    ensures count == |set p | p in s.runtime && s.runtime[p].router.Some?|
  {
    count := 0;
    ghost var counted: set<string> := {};
    var rest := s.runtime.Keys;
    while rest != {}
      invariant rest <= s.runtime.Keys
      invariant counted == set p | p in s.runtime && p !in rest && s.runtime[p].router.Some?
      invariant count == |counted|
      decreases |rest|
    {
      var p :| p in rest;
      rest := rest - {p};
      if s.runtime[p].router.Some? {
        count := count + 1;
        counted := counted + {p};
      }
    }
    assert counted == set p | p in s.runtime && s.runtime[p].router.Some?;
  }
}
