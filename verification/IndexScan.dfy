/** The built index agrees with a direct scan of the configurations it was built from. */
module IndexScan {
  import opened Options
  import opened ConfigModel
  import opened ConfigValidator
  import opened RuntimeIndex
  import opened TransportLifetime

  // ---- The scan: what the configurations say about one router ----

  /** The HTTP server a router names; the last one of that name counts. */
  function HttpNamed(servers: seq<HttpServer>, name: Option<string>): (r: Option<HttpServer>)
    ensures r.Some? ==> r.value in servers && Some(r.value.name) == name
    ensures r.None? <==> forall s :: s in servers ==> Some(s.name) != name
  {
    if servers == [] then None
    else
      var later := HttpNamed(servers[1..], name);
      assert servers == [servers[0]] + servers[1..];
      if later.Some? then later else if Some(servers[0].name) == name then Some(servers[0]) else None
  }

  function McpNamed(servers: seq<McpServer>, name: Option<string>): (r: Option<McpServer>)
    ensures r.Some? ==> r.value in servers && Some(r.value.name) == name
    ensures r.None? <==> forall s :: s in servers ==> Some(s.name) != name
  {
    if servers == [] then None
    else
      var later := McpNamed(servers[1..], name);
      assert servers == [servers[0]] + servers[1..];
      if later.Some? then later else if Some(servers[0].name) == name then Some(servers[0]) else None
  }

  function ScannedTools(c: Config, server: Option<string>): map<string, Tool> {
    match HttpNamed(c.body.servers, server)
    case None => map[]
    case Some(s) => Allowed(ToolMap(c.body.tools), s.allowedTools)
  }

  /** An MCP router keeps its prefix's transport when the launch data did not change, and gets a new one otherwise. */
  ghost predicate TransportOk(x: Context, start: nat, p: string, m: McpServer, transport: Option<nat>) {
    && transport.Some?
    && if Reusable(x.prev, p, m).Some? then transport == x.prev[p].transport else start <= transport.value
  }

  /** What a configuration's router is to be served with, but for which transport it is. */
  ghost predicate ServedAs(u: Unit, c: Config, r: Router) {
    var mcp := McpNamed(c.body.mcpServers, Some(r.server));
    && u.router == Some(r)
    && u.tenant == c.key.tenant
    && u.server == HttpNamed(c.body.servers, Some(r.server))
    && u.tools == ScannedTools(c, Some(r.server))
    && u.mcpServer == mcp
    && u.proto == (if mcp.Some? then ProtoOf(mcp.value.kind) else Http)
    && u.proto != NoProto
    && (u.transport.Some? <==> mcp.Some?)
  }

  ghost predicate UnitMatches(x: Context, start: nat, u: Unit, c: Config, r: Router) {
    var mcp := McpNamed(c.body.mcpServers, Some(r.server));
    ServedAs(u, c, r) && (mcp.Some? ==> TransportOk(x, start, r.prefix, mcp.value, u.transport))
  }

  /** Every MCP unit of an index has a transport and a protocol the gateway speaks. */
  ghost predicate WellKept(rt: Runtime) {
    forall p :: p in rt ==>
      && (rt[p].mcpServer.Some? <==> rt[p].transport.Some?)
      && (rt[p].mcpServer.Some? ==> ProtoOf(rt[p].mcpServer.value.kind) != NoProto)
  }

  // ---- Prefix by prefix ----

  /** `server` is the only server of the configuration that `p` is routed to; None when `p` is not routed. */
  ghost predicate RoutedTo(c: Config, p: string, server: Option<string>) {
    forall n :: p in PrefixesOf(c.body.routers, n) <==> server == Some(n)
  }

  predicate Sends(r: Router, server: string, p: string) {
    r.server == server && r.prefix == p
  }

  lemma {:induction false} PrefixesAreRouted(routers: seq<Router>, n: string, p: string)
    ensures p in PrefixesOf(routers, n) <==> exists i :: 0 <= i < |routers| && Sends(routers[i], n, p)
  {
    if routers == [] {
    } else {
      var m := |routers| - 1;
      PrefixesAreRouted(routers[..m], n, p);
      if p in PrefixesOf(routers[..m], n) {
        var i :| 0 <= i < m && Sends(routers[..m][i], n, p);
        assert Sends(routers[i], n, p);
      }
      if i :| 0 <= i < |routers| && Sends(routers[i], n, p) {
        if i < m {
          assert Sends(routers[..m][i], n, p);
        }
      }
    }
  }

  lemma {:induction false} PrefixesAreDistinct(routers: seq<Router>, n: string)
    ensures NoDuplicates(PrefixesOf(routers, n))
  {
    if routers == [] {
    } else {
      PrefixesAreDistinct(routers[..|routers| - 1], n);
    }
  }

  ghost predicate DistinctRouters(routers: seq<Router>) {
    forall i, j :: 0 <= i < j < |routers| ==> routers[i].prefix != routers[j].prefix
  }

  ghost predicate Routes(c: Config, p: string) {
    exists r :: r in c.body.routers && r.prefix == p
  }

  lemma RouterIsOnlyRoute(c: Config, r: Router)
    requires DistinctRouters(c.body.routers) && r in c.body.routers
    ensures RoutedTo(c, r.prefix, Some(r.server))
  {
    var i :| 0 <= i < |c.body.routers| && c.body.routers[i] == r;
    forall n ensures r.prefix in PrefixesOf(c.body.routers, n) <==> Some(r.server) == Some(n) {
      PrefixesAreRouted(c.body.routers, n, r.prefix);
      if n == r.server {
        assert Sends(c.body.routers[i], n, r.prefix);
      }
    }
  }

  lemma UnroutedPrefix(c: Config, p: string)
    requires !Routes(c, p)
    ensures RoutedTo(c, p, None)
  {
    forall n ensures p !in PrefixesOf(c.body.routers, n) {
      PrefixesAreRouted(c.body.routers, n, p);
    }
  }

  function OneRouted(rt: Runtime, r: Router): Runtime {
    rt[r.prefix := UnitAt(rt, r.prefix).(router := Some(r))]
  }

  lemma {:induction false} RoutersAddPrefixes(rt: Runtime, routers: seq<Router>, p: string)
    ensures p in IndexRouters(rt, routers) <==> p in rt || exists r :: r in routers && r.prefix == p
    decreases |routers|
  {
    if routers == [] {
    } else {
      assert routers == [routers[0]] + routers[1..];
      RoutersAddPrefixes(OneRouted(rt, routers[0]), routers[1..], p);
    }
  }

  lemma {:induction false} RoutersLeaveOthers(rt: Runtime, routers: seq<Router>, p: string)
    requires forall r :: r in routers ==> r.prefix != p
    ensures UnitAt(IndexRouters(rt, routers), p) == UnitAt(rt, p)
    decreases |routers|
  {
    if routers == [] {
    } else {
      assert routers[0] in routers;
      RoutersLeaveOthers(OneRouted(rt, routers[0]), routers[1..], p);
    }
  }

  lemma TailIsDistinct(routers: seq<Router>)
    requires routers != [] && DistinctRouters(routers)
    ensures DistinctRouters(routers[1..])
    ensures forall r :: r in routers[1..] ==> r.prefix != routers[0].prefix
  {
  }

  lemma {:induction false} RouterIsSet(rt: Runtime, routers: seq<Router>, j: nat)
    requires DistinctRouters(routers) && j < |routers|
    ensures var rt', p := IndexRouters(rt, routers), routers[j].prefix;
            p in rt' && rt'[p] == UnitAt(rt, p).(router := Some(routers[j]))
    decreases |routers|
  {
    var rest, one := routers[1..], OneRouted(rt, routers[0]);
    TailIsDistinct(routers);
    if j > 0 {
      RouterIsSet(one, rest, j - 1);
    } else {
      RoutersAddPrefixes(one, rest, routers[0].prefix);
      RoutersLeaveOthers(one, rest, routers[0].prefix);
    }
  }

  lemma RoutersAt(rt: Runtime, routers: seq<Router>, p: string)
    ensures var rt' := IndexRouters(rt, routers);
            && (p in rt' <==> p in rt || exists r :: r in routers && r.prefix == p)
            && ((forall r :: r in routers ==> r.prefix != p) ==> UnitAt(rt', p) == UnitAt(rt, p))
            && (DistinctRouters(routers) ==> forall r :: r in routers && r.prefix == p ==>
                  rt'[p] == UnitAt(rt, p).(router := Some(r)))
  {
    RoutersAddPrefixes(rt, routers, p);
    if forall r :: r in routers ==> r.prefix != p {
      RoutersLeaveOthers(rt, routers, p);
    }
    if DistinctRouters(routers) {
      forall r | r in routers && r.prefix == p
        ensures IndexRouters(rt, routers)[p] == UnitAt(rt, p).(router := Some(r))
      {
        var j :| 0 <= j < |routers| && routers[j] == r;
        RouterIsSet(rt, routers, j);
      }
    }
  }

  lemma {:induction false} HttpPrefixesAt(rt: Runtime, tenant: string, s: HttpServer, tools: map<string, Tool>,
                                          prefixes: seq<string>, p: string)
    ensures var rt' := IndexHttpPrefixes(rt, tenant, s, tools, prefixes);
            && (p in rt' <==> p in rt || p in prefixes)
            && UnitAt(rt', p) == if p in prefixes then HttpUnit(UnitAt(rt, p), tenant, s, tools) else UnitAt(rt, p)
    decreases |prefixes|
  {
    if prefixes == [] {
    } else {
      var q := prefixes[0];
      assert prefixes == [q] + prefixes[1..];
      HttpPrefixesAt(rt[q := HttpUnit(UnitAt(rt, q), tenant, s, tools)], tenant, s, tools, prefixes[1..], p);
    }
  }

  lemma {:induction false} HttpServersAt(b: Build, c: Config, servers: seq<HttpServer>, p: string,
                                         server: Option<string>)
    requires RoutedTo(c, p, server) && (server.Some? ==> p in b.runtime)
    ensures var b' := IndexHttpServers(b, c, servers);
            && b' == b.(runtime := b'.runtime, missingTools := b'.missingTools)
            && (p in b'.runtime <==> p in b.runtime)
            && UnitAt(b'.runtime, p) ==
               match HttpNamed(servers, server)
               case None => UnitAt(b.runtime, p)
               case Some(s) => HttpUnit(UnitAt(b.runtime, p), c.key.tenant, s,
                                        Allowed(ToolMap(c.body.tools), s.allowedTools))
    decreases |servers|
  {
    if servers == [] {
    } else {
      var s := servers[0];
      HttpPrefixesAt(b.runtime, c.key.tenant, s, Allowed(ToolMap(c.body.tools), s.allowedTools),
                     PrefixesOf(c.body.routers, s.name), p);
      HttpServersAt(IndexHttpServer(b, c, s), c, servers[1..], p, server);
    }
  }

  /** The unit at `p` after an MCP server named for it was processed. */
  ghost predicate McpSet(x: Context, start: nat, before: Unit, after: Unit, tenant: string, m: McpServer, p: string) {
    && ProtoOf(m.kind) != NoProto
    && after == before.(tenant := tenant, mcpServer := Some(m), transport := after.transport, proto := ProtoOf(m.kind))
    && TransportOk(x, start, p, m, after.transport)
  }

  lemma {:induction false} McpPrefixesAt(x: Context, start: nat, b: Build, tenant: string, m: McpServer,
                                         prefixes: seq<string>, p: string)
    requires WellKept(x.prev) && ValidDiscovery(m) && start <= b.next
    requires !b.failed && !IndexMcpPrefixes(x, b, tenant, m, prefixes).failed
    ensures var b' := IndexMcpPrefixes(x, b, tenant, m, prefixes);
            && b.next <= b'.next && b'.missingTools == b.missingTools
            && (p in b'.runtime <==> p in b.runtime || p in prefixes)
            && if p in prefixes then McpSet(x, start, UnitAt(b.runtime, p), UnitAt(b'.runtime, p), tenant, m, p)
               else UnitAt(b'.runtime, p) == UnitAt(b.runtime, p)
    decreases |prefixes|
  {
    if prefixes == [] {
    } else {
      var q := prefixes[0];
      assert prefixes == [q] + prefixes[1..];
      McpPrefixesAt(x, start, IndexMcpPrefix(x, b, tenant, m, q), tenant, m, prefixes[1..], p);
    }
  }

  lemma {:induction false} McpServersAt(x: Context, start: nat, b: Build, c: Config, servers: seq<McpServer>, p: string,
                                        server: Option<string>)
    requires WellKept(x.prev) && start <= b.next && (forall m :: m in servers ==> ValidDiscovery(m))
    requires RoutedTo(c, p, server) && (server.Some? ==> p in b.runtime)
    requires !b.failed && !IndexMcpServers(x, b, c, servers).failed
    ensures var b' := IndexMcpServers(x, b, c, servers);
            && b.next <= b'.next && b'.missingTools == b.missingTools
            && (p in b'.runtime <==> p in b.runtime)
            && match McpNamed(servers, server)
               case None => UnitAt(b'.runtime, p) == UnitAt(b.runtime, p)
               case Some(m) => McpSet(x, start, UnitAt(b.runtime, p), UnitAt(b'.runtime, p), c.key.tenant, m, p)
    decreases |servers|
  {
    if servers == [] {
    } else {
      var m := servers[0];
      var prefixes := PrefixesOf(c.body.routers, m.name);
      McpPrefixesAt(x, start, b, c.key.tenant, m, prefixes, p);
      McpServersAt(x, start, IndexMcpPrefixes(x, b, c.key.tenant, m, prefixes), c, servers[1..], p, server);
    }
  }

  /** One configuration leaves other prefixes alone. */
  lemma ConfigAwayFrom(x: Context, b: Build, c: Config, p: string)
    requires WellKept(x.prev) && ValidConfig(c) && !Routes(c, p)
    requires !b.failed && !IndexConfig(x, b, c).failed
    ensures var b' := IndexConfig(x, b, c);
            && b.next <= b'.next
            && (p in b'.runtime <==> p in b.runtime) && UnitAt(b'.runtime, p) == UnitAt(b.runtime, p)
  {
    var routed := b.(runtime := IndexRouters(b.runtime, c.body.routers));
    UnroutedPrefix(c, p);
    RoutersAt(b.runtime, c.body.routers, p);
    HttpServersAt(routed, c, c.body.servers, p, None);
    McpServersAt(x, b.next, IndexHttpServers(routed, c, c.body.servers), c, c.body.mcpServers, p, None);
  }

  /** One configuration indexes each of its routers as the scan says. */
  lemma ConfigAt(x: Context, start: nat, b: Build, c: Config, r: Router)
    requires WellKept(x.prev) && start <= b.next && ValidConfig(c) && DistinctRouters(c.body.routers)
    requires r in c.body.routers && r.prefix !in b.runtime
    requires !b.failed && !IndexConfig(x, b, c).failed
    ensures var b' := IndexConfig(x, b, c);
            && b.next <= b'.next
            && r.prefix in b'.runtime && UnitMatches(x, start, b'.runtime[r.prefix], c, r)
  {
    var routed := b.(runtime := IndexRouters(b.runtime, c.body.routers));
    var p := r.prefix;
    RouterIsOnlyRoute(c, r);
    RoutersAt(b.runtime, c.body.routers, p);
    HttpServersAt(routed, c, c.body.servers, p, Some(r.server));
    McpServersAt(x, start, IndexHttpServers(routed, c, c.body.servers), c, c.body.mcpServers, p, Some(r.server));
    assert HasHttpServer(c.body, r.server) || HasMcpServer(c.body, r.server);
  }

  // ---- All configurations ----

  ghost predicate DistinctRouting(cs: seq<Config>) {
    && (forall i :: 0 <= i < |cs| ==> DistinctRouters(cs[i].body.routers))
    && (forall i, j, p :: 0 <= i < j < |cs| && Routes(cs[i], p) ==> !Routes(cs[j], p))
  }

  lemma LastPrefixes(cs: seq<Config>, j: nat)
    requires cs != [] && j < |cs[|cs| - 1].body.routers|
    ensures var before, routers := AllPrefixes(cs[..|cs| - 1]), cs[|cs| - 1].body.routers;
            && |AllPrefixes(cs)| == |before| + |routers|
            && AllPrefixes(cs)[|before| + j] == Normalized(routers[j].prefix)
  {
  }

  lemma {:induction false} EarlierPrefixes(cs: seq<Config>, k: nat)
    requires k <= |cs|
    ensures AllPrefixes(cs[..k]) <= AllPrefixes(cs)
  {
    if k == |cs| {
      assert cs[..k] == cs;
    } else {
      var front := cs[..|cs| - 1];
      EarlierPrefixes(front, k);
      assert front[..k] == cs[..k];
    }
  }

  /** Where the validator's list holds the routers of a configuration. */
  lemma PrefixPosition(cs: seq<Config>, i: nat, j: nat)
    requires i < |cs| && j < |cs[i].body.routers|
    ensures |AllPrefixes(cs[..i])| + |cs[i].body.routers| == |AllPrefixes(cs[..i + 1])| <= |AllPrefixes(cs)|
    ensures AllPrefixes(cs)[|AllPrefixes(cs[..i])| + j] == Normalized(cs[i].body.routers[j].prefix)
  {
    var upto := cs[..i + 1];
    assert upto[..|upto| - 1] == cs[..i];
    LastPrefixes(upto, j);
    EarlierPrefixes(cs, i + 1);
    assert AllPrefixes(cs)[..|AllPrefixes(upto)|] == AllPrefixes(upto);
  }

  lemma {:induction false} PositionsGrow(cs: seq<Config>, i: nat, k: nat)
    requires i <= k <= |cs|
    ensures |AllPrefixes(cs[..i])| <= |AllPrefixes(cs[..k])|
  {
    if i < k {
      assert cs[..k][..k - 1] == cs[..k - 1];
      PositionsGrow(cs, i, k - 1);
    }
  }

  lemma RoutersOfOneConfigDiffer(cs: seq<Config>, i: nat, j: nat, k: nat)
    requires NoDuplicates(AllPrefixes(cs)) && i < |cs| && j < k < |cs[i].body.routers|
    ensures cs[i].body.routers[j].prefix != cs[i].body.routers[k].prefix
  {
    PrefixPosition(cs, i, j);
    PrefixPosition(cs, i, k);
  }

  lemma RoutersOfTwoConfigsDiffer(cs: seq<Config>, i: nat, k: nat, j: nat, m: nat)
    requires NoDuplicates(AllPrefixes(cs)) && i < j < |cs| && k < |cs[i].body.routers| && m < |cs[j].body.routers|
    ensures cs[i].body.routers[k].prefix != cs[j].body.routers[m].prefix
  {
    PrefixPosition(cs, i, k);
    PrefixPosition(cs, j, m);
    PositionsGrow(cs, i + 1, j);
  }

  /** The validator compares prefixes up to a trailing slash, so valid configurations route every prefix once. */
  lemma ValidRoutingIsDistinct(cs: seq<Config>)
    requires NoDuplicates(AllPrefixes(cs))
    ensures DistinctRouting(cs)
  {
    forall i, j, k | 0 <= i < |cs| && 0 <= j < k < |cs[i].body.routers|
      ensures cs[i].body.routers[j].prefix != cs[i].body.routers[k].prefix
    {
      RoutersOfOneConfigDiffer(cs, i, j, k);
    }
    forall i, j, p | 0 <= i < j < |cs| && Routes(cs[i], p) ensures !Routes(cs[j], p) {
      var r :| r in cs[i].body.routers && r.prefix == p;
      var k :| 0 <= k < |cs[i].body.routers| && cs[i].body.routers[k] == r;
      forall m | 0 <= m < |cs[j].body.routers| ensures cs[j].body.routers[m].prefix != p {
        RoutersOfTwoConfigsDiffer(cs, i, k, j, m);
      }
    }
  }

  ghost predicate RoutesAny(cs: seq<Config>, p: string) {
    exists i :: 0 <= i < |cs| && Routes(cs[i], p)
  }

  lemma {:induction false} ConfigsAwayFrom(x: Context, b: Build, cs: seq<Config>, p: string)
    requires WellKept(x.prev) && (forall c :: c in cs ==> ValidConfig(c)) && !RoutesAny(cs, p)
    requires !b.failed && !IndexConfigs(x, b, cs).failed
    ensures var b' := IndexConfigs(x, b, cs);
            (p in b'.runtime <==> p in b.runtime) && UnitAt(b'.runtime, p) == UnitAt(b.runtime, p)
    decreases |cs|
  {
    if cs == [] {
    } else {
      assert !Routes(cs[0], p) && cs[0] in cs;
      ConfigAwayFrom(x, b, cs[0], p);
      assert forall i :: 0 <= i < |cs[1..]| ==> cs[1..][i] == cs[i + 1];
      ConfigsAwayFrom(x, IndexConfig(x, b, cs[0]), cs[1..], p);
    }
  }

  lemma {:induction false} ConfigsAt(x: Context, start: nat, b: Build, cs: seq<Config>, i: nat, r: Router)
    requires WellKept(x.prev) && start <= b.next && (forall c :: c in cs ==> ValidConfig(c)) && DistinctRouting(cs)
    requires i < |cs| && r in cs[i].body.routers && r.prefix !in b.runtime
    requires !b.failed && !IndexConfigs(x, b, cs).failed
    ensures var b' := IndexConfigs(x, b, cs);
            r.prefix in b'.runtime && UnitMatches(x, start, b'.runtime[r.prefix], cs[i], r)
    decreases |cs|
  {
    var b1, rest := IndexConfig(x, b, cs[0]), cs[1..];
    assert cs[0] in cs;
    assert forall j :: 0 <= j < |rest| ==> rest[j] == cs[j + 1];
    assert Routes(cs[i], r.prefix);
    if i == 0 {
      ConfigAt(x, start, b, cs[0], r);
      assert !RoutesAny(rest, r.prefix);
      ConfigsAwayFrom(x, b1, rest, r.prefix);
    } else {
      ConfigAwayFrom(x, b, cs[0], r.prefix);
      ConfigsAt(x, start, b1, rest, i - 1, r);
    }
  }

  /** The index equals the scan: if the configurations are valid and the build succeeds, every router's prefix is
      indexed with its own configuration's tenant, server, tools, protocol and transport, and nothing else is
      indexed. */
  lemma IndexEqualsScan(cs: seq<Config>, prev: Runtime, client: bool, next: nat)
    requires WellKept(prev) && ValidConfigs(cs) && BuildFrom(cs, prev, client, next).Built?
    ensures var rt := BuildFrom(cs, prev, client, next).state.runtime;
            && (forall i, r :: 0 <= i < |cs| && r in cs[i].body.routers ==>
                  r.prefix in rt && UnitMatches(Context(prev, client), next, rt[r.prefix], cs[i], r))
            && (forall p :: p in rt ==> RoutesAny(cs, p))
            && WellKept(rt)
  {
    var x, b0 := Context(prev, client), StartBuild(next);
    var rt := IndexConfigs(x, b0, cs).runtime;
    ValidRoutingIsDistinct(cs);
    forall i, r | 0 <= i < |cs| && r in cs[i].body.routers
      ensures r.prefix in rt && UnitMatches(x, next, rt[r.prefix], cs[i], r)
    {
      ConfigsAt(x, next, b0, cs, i, r);
    }
    forall p | p in rt ensures RoutesAny(cs, p) {
      if !RoutesAny(cs, p) {
        ConfigsAwayFrom(x, b0, cs, p);
      }
    }
    forall p | p in rt
      ensures (rt[p].mcpServer.Some? <==> rt[p].transport.Some?)
      ensures rt[p].mcpServer.Some? ==> ProtoOf(rt[p].mcpServer.value.kind) != NoProto
    {
      var i :| 0 <= i < |cs| && Routes(cs[i], p);
      var r :| r in cs[i].body.routers && r.prefix == p;
    }
  }

  lemma {:induction false} ToolMapIsLookup(tools: seq<Tool>, n: string)
    ensures n in ToolMap(tools) <==> n in ToolNames(tools)
    ensures n in ToolMap(tools) ==> ToolMap(tools)[n] in tools && ToolMap(tools)[n].name == n
  {
    if tools == [] {
    } else {
      var m := |tools| - 1;
      ToolMapIsLookup(tools[..m], n);
      assert ToolNames(tools) == ToolNames(tools[..m]) + [tools[m].name];
    }
  }

  /** The tools scanned for a router hold a name exactly when the server it names allows it. */
  lemma ScannedToolsAreAllowed(c: Config, server: string, name: string)
    requires ValidConfig(c)
    ensures var tools := ScannedTools(c, Some(server));
            && (name in tools <==> exists h :: h in c.body.servers && h.name == server && name in h.allowedTools)
            && (name in tools ==> tools[name] in c.body.tools && tools[name].name == name)
  {
    ToolMapIsLookup(c.body.tools, name);
    if h :| h in c.body.servers && h.name == server && name in h.allowedTools {
      SameNameSameServer(c.body.servers, HttpNamed(c.body.servers, Some(server)).value, h);
      assert name in ToolNames(c.body.tools);
    }
  }

  lemma RouterIsServed(cs: seq<Config>, prev: Runtime, client: bool, next: nat, i: nat, r: Router)
    requires WellKept(prev) && ValidConfigs(cs) && BuildFrom(cs, prev, client, next).Built?
    requires i < |cs| && r in cs[i].body.routers
    ensures var rt := BuildFrom(cs, prev, client, next).state.runtime;
            r.prefix in rt && ServedAs(rt[r.prefix], cs[i], r)
  {
    IndexEqualsScan(cs, prev, client, next);
  }

  /** A prefix resolves a tool name exactly when the server its own configuration routes it to allows that name,
      and then to the configuration's tool of that name. */
  lemma ToolsResolveAsAllowed(cs: seq<Config>, prev: Runtime, client: bool, next: nat, i: nat, r: Router, name: string)
    requires WellKept(prev) && ValidConfigs(cs) && BuildFrom(cs, prev, client, next).Built?
    requires i < |cs| && r in cs[i].body.routers
    ensures var s := BuildFrom(cs, prev, client, next).state;
            && GetTenant(s, r.prefix) == cs[i].key.tenant
            && GetProtoType(s, r.prefix) != NoProto
            && (GetProtoType(s, r.prefix) != Http <==> GetTransport(s, r.prefix).Some?)
            && (GetTool(s, r.prefix, name).Some? <==>
                exists h :: h in cs[i].body.servers && h.name == r.server && name in h.allowedTools)
            && (GetTool(s, r.prefix, name).Some? ==>
                  GetTool(s, r.prefix, name).value in cs[i].body.tools && GetTool(s, r.prefix, name).value.name == name)
  {
    RouterIsServed(cs, prev, client, next, i, r);
    assert ValidConfig(cs[i]);
    ScannedToolsAreAllowed(cs[i], r.server, name);
  }

  /** The protocol a prefix is served with is the kind of its MCP server, and HTTP without one. */
  lemma ProtocolIsKind(cs: seq<Config>, prev: Runtime, client: bool, next: nat, i: nat, r: Router)
    requires WellKept(prev) && ValidConfigs(cs) && BuildFrom(cs, prev, client, next).Built?
    requires i < |cs| && r in cs[i].body.routers
    ensures var proto := GetProtoType(BuildFrom(cs, prev, client, next).state, r.prefix);
            var mcp := McpNamed(cs[i].body.mcpServers, Some(r.server));
            && (proto == Stdio <==> mcp.Some? && mcp.value.kind == "stdio")
            && (proto == Sse <==> mcp.Some? && mcp.value.kind == "sse")
            && (proto == Streamable <==> mcp.Some? && mcp.value.kind == "streamable-http")
            && (proto == Http <==> mcp.None?)
  {
    RouterIsServed(cs, prev, client, next, i, r);
  }

  lemma SameNameSameServer(servers: seq<HttpServer>, a: HttpServer, b: HttpServer)
    requires NoDuplicates(ServerNames(servers)) && a in servers && b in servers && a.name == b.name
    ensures a == b
  {
    var i :| 0 <= i < |servers| && servers[i] == a;
    var j :| 0 <= j < |servers| && servers[j] == b;
    assert ServerNames(servers)[i] == ServerNames(servers)[j];
  }

  // ---- Counters ----

  lemma {:induction false} NothingMissing(tools: seq<Tool>, names: seq<string>)
    requires forall n :: n in names ==> n in ToolNames(tools)
    ensures CountMissing(ToolMap(tools), names) == 0
  {
    if names == [] {
    } else {
      NothingMissing(tools, names[..|names| - 1]);
      ToolMapIsLookup(tools, names[|names| - 1]);
    }
  }

  /** An allowed name is counted as missing, each time it is listed, exactly when no tool has it. */
  lemma {:induction false} MissingIsCounted(tools: seq<Tool>, names: seq<string>)
    ensures CountMissing(ToolMap(tools), names) == |set i | 0 <= i < |names| && names[i] !in ToolNames(tools)|
  {
    if names == [] {
    } else {
      var m := |names| - 1;
      MissingIsCounted(tools, names[..m]);
      ToolMapIsLookup(tools, names[m]);
      assert (set i | 0 <= i < |names| && names[i] !in ToolNames(tools)) ==
             (set i | 0 <= i < m && names[..m][i] !in ToolNames(tools)) +
               if names[m] in ToolNames(tools) then {} else {m};
    }
  }

  /** The listed names without a tool, over all servers of a configuration that are routed, and over all of them. */
  function MissingOf(c: Config, servers: seq<HttpServer>): nat {
    if servers == [] then 0
    else
      var names := servers[0].allowedTools;
      (if exists r :: r in c.body.routers && r.server == servers[0].name
       then |set i | 0 <= i < |names| && names[i] !in ToolNames(c.body.tools)| else 0) + MissingOf(c, servers[1..])
  }

  function TotalMissing(cs: seq<Config>): nat {
    if cs == [] then 0 else MissingOf(cs[0], cs[0].body.servers) + TotalMissing(cs[1..])
  }

  lemma RoutedServer(c: Config, name: string)
    ensures PrefixesOf(c.body.routers, name) != [] <==> exists r :: r in c.body.routers && r.server == name
  {
    if r :| r in c.body.routers && r.server == name {
      PrefixesAreRouted(c.body.routers, name, r.prefix);
      var i :| 0 <= i < |c.body.routers| && c.body.routers[i] == r;
      assert Sends(c.body.routers[i], name, r.prefix);
    }
    if PrefixesOf(c.body.routers, name) != [] {
      var p := PrefixesOf(c.body.routers, name)[0];
      PrefixesAreRouted(c.body.routers, name, p);
      var i :| 0 <= i < |c.body.routers| && Sends(c.body.routers[i], name, p);
    }
  }

  lemma {:induction false} HttpServersCountMissing(b: Build, c: Config, servers: seq<HttpServer>)
    ensures IndexHttpServers(b, c, servers).missingTools == b.missingTools + MissingOf(c, servers)
    decreases |servers|
  {
    if servers == [] {
    } else {
      RoutedServer(c, servers[0].name);
      MissingIsCounted(c.body.tools, servers[0].allowedTools);
      HttpServersCountMissing(IndexHttpServer(b, c, servers[0]), c, servers[1..]);
    }
  }

  lemma {:induction false} McpPrefixesCountNothing(x: Context, b: Build, tenant: string, m: McpServer,
                                                   prefixes: seq<string>)
    ensures IndexMcpPrefixes(x, b, tenant, m, prefixes).missingTools == b.missingTools
    decreases |prefixes|
  {
    if !b.failed && prefixes != [] {
      McpPrefixesCountNothing(x, IndexMcpPrefix(x, b, tenant, m, prefixes[0]), tenant, m, prefixes[1..]);
    }
  }

  lemma {:induction false} McpServersCountNothing(x: Context, b: Build, c: Config, servers: seq<McpServer>)
    ensures IndexMcpServers(x, b, c, servers).missingTools == b.missingTools
    decreases |servers|
  {
    if !b.failed && servers != [] {
      var prefixes := PrefixesOf(c.body.routers, servers[0].name);
      McpPrefixesCountNothing(x, b, c.key.tenant, servers[0], prefixes);
      McpServersCountNothing(x, IndexMcpPrefixes(x, b, c.key.tenant, servers[0], prefixes), c, servers[1..]);
    }
  }

  lemma {:induction false} ConfigsCountMissing(x: Context, b: Build, cs: seq<Config>)
    requires !b.failed && !IndexConfigs(x, b, cs).failed
    ensures IndexConfigs(x, b, cs).missingTools == b.missingTools + TotalMissing(cs)
    decreases |cs|
  {
    if cs == [] {
    } else {
      var c := cs[0];
      var routed := b.(runtime := IndexRouters(b.runtime, c.body.routers));
      HttpServersCountMissing(routed, c, c.body.servers);
      McpServersCountNothing(x, IndexHttpServers(routed, c, c.body.servers), c, c.body.mcpServers);
      ConfigsCountMissing(x, IndexConfig(x, b, c), cs[1..]);
    }
  }

  /** Whatever the configurations are, valid or not, the missing tools of a build are the names listed by routed servers
      that no tool of their configuration has, each as often as it is listed. */
  lemma MissingToolsAreCounted(cs: seq<Config>, prev: Runtime, client: bool, next: nat)
    requires BuildFrom(cs, prev, client, next).Built?
    ensures BuildFrom(cs, prev, client, next).state.missingTools == TotalMissing(cs)
  {
    ConfigsCountMissing(Context(prev, client), StartBuild(next), cs);
  }

  lemma {:induction false} HttpServersMissNothing(b: Build, c: Config, servers: seq<HttpServer>)
    requires forall s, n :: s in servers && n in s.allowedTools ==> n in ToolNames(c.body.tools)
    ensures IndexHttpServers(b, c, servers).missingTools == b.missingTools
    decreases |servers|
  {
    if servers == [] {
    } else {
      assert servers[0] in servers;
      NothingMissing(c.body.tools, servers[0].allowedTools);
      HttpServersMissNothing(IndexHttpServer(b, c, servers[0]), c, servers[1..]);
    }
  }

  function TotalRouters(cs: seq<Config>): nat {
    if cs == [] then 0 else |cs[0].body.routers| + TotalRouters(cs[1..])
  }

  lemma {:induction false} RoutersAddKeys(rt: Runtime, routers: seq<Router>)
    requires DistinctRouters(routers) && forall r :: r in routers ==> r.prefix !in rt
    ensures |IndexRouters(rt, routers).Keys| == |rt.Keys| + |routers|
    decreases |routers|
  {
    if routers == [] {
    } else {
      var r := routers[0];
      var rt1 := rt[r.prefix := UnitAt(rt, r.prefix).(router := Some(r))];
      assert rt1.Keys == rt.Keys + {r.prefix};
      RoutersAddKeys(rt1, routers[1..]);
    }
  }

  lemma ConfigAddsKeys(x: Context, b: Build, c: Config)
    requires WellKept(x.prev) && ValidConfig(c) && DistinctRouters(c.body.routers)
    requires forall p :: Routes(c, p) ==> p !in b.runtime
    requires !b.failed && !IndexConfig(x, b, c).failed
    ensures |IndexConfig(x, b, c).runtime.Keys| == |b.runtime.Keys| + |c.body.routers|
    ensures IndexConfig(x, b, c).missingTools == b.missingTools
    ensures forall p :: p in IndexConfig(x, b, c).runtime <==> p in b.runtime || Routes(c, p)
  {
    var routed := b.(runtime := IndexRouters(b.runtime, c.body.routers));
    var b' := IndexConfig(x, b, c);
    forall r | r in c.body.routers ensures r.prefix !in b.runtime {
      assert Routes(c, r.prefix);
    }
    RoutersAddKeys(b.runtime, c.body.routers);
    forall p ensures p in b'.runtime <==> p in routed.runtime
             ensures p in b'.runtime <==> p in b.runtime || Routes(c, p)
    {
      RoutersAt(b.runtime, c.body.routers, p);
      if r :| r in c.body.routers && r.prefix == p {
        assert p !in b.runtime;
        ConfigAt(x, b.next, b, c, r);
      } else {
        ConfigAwayFrom(x, b, c, p);
      }
    }
    assert b'.runtime.Keys == routed.runtime.Keys;
    HttpServersMissNothing(routed, c, c.body.servers);
    UnroutedSomewhere(c);
    var p :| !Routes(c, p);
    UnroutedPrefix(c, p);
    HttpServersAt(routed, c, c.body.servers, p, None);
    McpServersAt(x, b.next, IndexHttpServers(routed, c, c.body.servers), c, c.body.mcpServers, p, None);
  }

  /** Some prefix is longer than all that are routed. */
  lemma UnroutedSomewhere(c: Config)
    ensures exists p :: !Routes(c, p)
  {
    var p := LongerThan(c.body.routers);
    assert !Routes(c, p);
  }

  ghost function LongerThan(routers: seq<Router>): (p: string)
    ensures forall r :: r in routers ==> |r.prefix| < |p|
  {
    if routers == [] then "/"
    else
      var q, r := LongerThan(routers[1..]), routers[0].prefix;
      assert routers == [routers[0]] + routers[1..];
      q + r
  }

  lemma {:induction false} ConfigsAddKeys(x: Context, b: Build, cs: seq<Config>)
    requires WellKept(x.prev) && (forall c :: c in cs ==> ValidConfig(c)) && DistinctRouting(cs)
    requires forall p :: RoutesAny(cs, p) ==> p !in b.runtime
    requires !b.failed && !IndexConfigs(x, b, cs).failed
    ensures |IndexConfigs(x, b, cs).runtime.Keys| == |b.runtime.Keys| + TotalRouters(cs)
    ensures IndexConfigs(x, b, cs).missingTools == b.missingTools
    decreases |cs|
  {
    if cs == [] {
    } else {
      var rest := cs[1..];
      assert cs[0] in cs;
      assert forall j :: 0 <= j < |rest| ==> rest[j] == cs[j + 1];
      forall p | Routes(cs[0], p) ensures p !in b.runtime {
        assert RoutesAny(cs, p);
      }
      ConfigAddsKeys(x, b, cs[0]);
      forall p | RoutesAny(rest, p) ensures p !in IndexConfig(x, b, cs[0]).runtime {
        var j :| 0 <= j < |rest| && Routes(rest[j], p);
        assert Routes(cs[j + 1], p) && RoutesAny(cs, p);
      }
      ConfigsAddKeys(x, IndexConfig(x, b, cs[0]), rest);
    }
  }

  /** Validated configurations leave no tool missing, and the router count is the number of routers configured. */
  lemma CountersMatch(cs: seq<Config>, prev: Runtime, client: bool, next: nat)
    requires WellKept(prev) && ValidConfigs(cs) && BuildFrom(cs, prev, client, next).Built?
    ensures var s := BuildFrom(cs, prev, client, next).state;
            && s.missingTools == 0
            && |set p | p in s.runtime && s.runtime[p].router.Some?| == TotalRouters(cs)
  {
    var x := Context(prev, client);
    var s := BuildFrom(cs, prev, client, next).state;
    ValidRoutingIsDistinct(cs);
    ConfigsAddKeys(x, StartBuild(next), cs);
    IndexEqualsScan(cs, prev, client, next);
    assert (set p | p in s.runtime && s.runtime[p].router.Some?) == s.runtime.Keys by {
      forall p | p in s.runtime ensures s.runtime[p].router.Some? {
        var i :| 0 <= i < |cs| && Routes(cs[i], p);
        var r :| r in cs[i].body.routers && r.prefix == p;
      }
    }
  }

  // ---- What a reload does to an old transport ----

  /** A prefix was served by an MCP server of the same kind, command, URL and arguments. */
  ghost predicate LaunchedAs(prev: Runtime, p: string, m: McpServer) {
    && p in prev && prev[p].mcpServer.Some?
    && prev[p].mcpServer.value.kind == m.kind
    && prev[p].mcpServer.value.command == m.command
    && prev[p].mcpServer.value.url == m.url
    && prev[p].mcpServer.value.args == m.args
  }

  /** The MCP server a prefix is routed to still has the launch data its transport was created with. */
  ghost predicate LaunchKept(cs: seq<Config>, prev: Runtime, p: string) {
    exists i, r :: 0 <= i < |cs| && r in cs[i].body.routers && r.prefix == p
                && var m := McpNamed(cs[i].body.mcpServers, Some(r.server));
                   m.Some? && LaunchedAs(prev, p, m.value)
  }

  lemma RoutedTransport(cs: seq<Config>, prev: Runtime, client: bool, next: nat, i: nat, r: Router)
    requires WellKept(prev) && Unshared(prev) && Owned(prev, next) && ValidConfigs(cs)
    requires i < |cs| && r in cs[i].body.routers && r.prefix in prev && prev[r.prefix].transport.Some?
    requires BuildFrom(cs, prev, client, next).Built?
    ensures var res := BuildFrom(cs, prev, client, next);
            var t := prev[r.prefix].transport.value;
            var m := McpNamed(cs[i].body.mcpServers, Some(r.server));
            && t !in res.stopped
            && (t in Held(res.state.runtime) <==> m.Some? && LaunchedAs(prev, r.prefix, m.value))
  {
    var x := Context(prev, client);
    var rt, t := BuildFrom(cs, prev, client, next).state.runtime, prev[r.prefix].transport.value;
    IndexEqualsScan(cs, prev, client, next);
    ConfigsKeep(x, next, StartBuild(next), cs);
    if t in Held(rt) {
      var q :| q in rt && rt[q].transport == Some(t);
    }
  }

  /** After a successful reload an old transport is still held or was stopped, except exactly when its prefix is
      still routed but no longer to a server with the same launch data: then it is neither, and keeps running. */
  lemma ReplacedTransportIsLeaked(cs: seq<Config>, prev: Runtime, client: bool, next: nat, p: string)
    requires WellKept(prev) && Unshared(prev) && Owned(prev, next) && ValidConfigs(cs)
    requires p in prev && prev[p].transport.Some? && BuildFrom(cs, prev, client, next).Built?
    ensures var res := BuildFrom(cs, prev, client, next);
            var t := prev[p].transport.value;
            (t in Held(res.state.runtime) || t in res.stopped) <==> (RoutesAny(cs, p) ==> LaunchKept(cs, prev, p))
  {
    forall i, r | 0 <= i < |cs| && r in cs[i].body.routers && r.prefix == p
      ensures var res := BuildFrom(cs, prev, client, next);
              var m := McpNamed(cs[i].body.mcpServers, Some(r.server));
              && prev[p].transport.value !in res.stopped
              && (prev[p].transport.value in Held(res.state.runtime) <==> m.Some? && LaunchedAs(prev, p, m.value))
    {
      RoutedTransport(cs, prev, client, next, i, r);
    }
    if !RoutesAny(cs, p) {
      IndexEqualsScan(cs, prev, client, next);
    } else {
      var i :| 0 <= i < |cs| && Routes(cs[i], p);
      var r :| r in cs[i].body.routers && r.prefix == p;
    }
  }

  lemma {:induction false} HttpServersDoNotFail(b: Build, c: Config, servers: seq<HttpServer>)
    ensures IndexHttpServers(b, c, servers).failed == b.failed
    decreases |servers|
  {
    if servers == [] {
    } else {
      HttpServersDoNotFail(IndexHttpServer(b, c, servers[0]), c, servers[1..]);
    }
  }

  /** A prefix can be served by an MCP server: its old transport will do, or a new one can be created. */
  predicate Servable(x: Context, m: McpServer, p: string) {
    || (p in x.prev && x.prev[p].mcpServer.Some? && x.prev[p].transport.Some?
        && x.prev[p].mcpServer.value.kind == m.kind
        && x.prev[p].mcpServer.value.command == m.command
        && x.prev[p].mcpServer.value.url == m.url
        && x.prev[p].mcpServer.value.args == m.args)
    || (m.discovery.enabled && x.client)
    || (!m.discovery.enabled && (m.kind == "stdio" || m.kind == "sse" || m.kind == "streamable-http"))
  }

  lemma {:induction false} McpPrefixesBuild(x: Context, b: Build, tenant: string, m: McpServer, prefixes: seq<string>)
    requires !b.failed
    ensures !IndexMcpPrefixes(x, b, tenant, m, prefixes).failed <==> forall p :: p in prefixes ==> Servable(x, m, p)
    decreases |prefixes|
  {
    if prefixes == [] {
    } else {
      var b1 := IndexMcpPrefix(x, b, tenant, m, prefixes[0]);
      assert prefixes == [prefixes[0]] + prefixes[1..];
      assert b1.failed <==> !Servable(x, m, prefixes[0]);
      if b1.failed {
        assert prefixes[0] in prefixes;
      } else {
        McpPrefixesBuild(x, b1, tenant, m, prefixes[1..]);
      }
    }
  }

  /** Every prefix routed to an MCP server of the configuration can be served by it. */
  ghost predicate AllServable(x: Context, c: Config, servers: seq<McpServer>) {
    forall m, r :: m in servers && r in c.body.routers && r.server == m.name ==> Servable(x, m, r.prefix)
  }

  lemma ServableByRouters(x: Context, c: Config, m: McpServer)
    ensures (forall p :: p in PrefixesOf(c.body.routers, m.name) ==> Servable(x, m, p)) <==>
            AllServable(x, c, [m])
  {
    forall p ensures p in PrefixesOf(c.body.routers, m.name) <==>
                     exists r :: r in c.body.routers && r.server == m.name && r.prefix == p
    {
      PrefixesAreRouted(c.body.routers, m.name, p);
      if r :| r in c.body.routers && r.server == m.name && r.prefix == p {
        var i :| 0 <= i < |c.body.routers| && c.body.routers[i] == r;
        assert Sends(c.body.routers[i], m.name, p);
      }
    }
    assert m in [m];
  }

  lemma {:induction false} McpServersBuild(x: Context, b: Build, c: Config, servers: seq<McpServer>)
    requires !b.failed
    ensures !IndexMcpServers(x, b, c, servers).failed <==> AllServable(x, c, servers)
    decreases |servers|
  {
    if servers == [] {
    } else {
      var m := servers[0];
      var prefixes := PrefixesOf(c.body.routers, m.name);
      McpPrefixesBuild(x, b, c.key.tenant, m, prefixes);
      ServableByRouters(x, c, m);
      assert servers == [m] + servers[1..];
      var b1 := IndexMcpPrefixes(x, b, c.key.tenant, m, prefixes);
      if !b1.failed {
        McpServersBuild(x, b1, c, servers[1..]);
      }
    }
  }

  lemma {:induction false} ConfigsBuild(x: Context, b: Build, cs: seq<Config>)
    requires !b.failed
    ensures !IndexConfigs(x, b, cs).failed <==> forall c :: c in cs ==> AllServable(x, c, c.body.mcpServers)
    decreases |cs|
  {
    if cs == [] {
    } else {
      var c := cs[0];
      var routed := b.(runtime := IndexRouters(b.runtime, c.body.routers));
      HttpServersDoNotFail(routed, c, c.body.servers);
      McpServersBuild(x, IndexHttpServers(routed, c, c.body.servers), c, c.body.mcpServers);
      assert cs == [c] + cs[1..];
      if !IndexConfig(x, b, c).failed {
        ConfigsBuild(x, IndexConfig(x, b, c), cs[1..]);
      }
    }
  }

  /** A build succeeds exactly when every routed prefix of every MCP server can be served: by a transport of the
      previous state with the same launch data, through the discovery client, or by a new transport of a known kind. */
  lemma BuildsExactlyWhenServable(cs: seq<Config>, prev: Runtime, client: bool, next: nat)
    ensures BuildFrom(cs, prev, client, next).Built? <==>
            forall c, m, r :: c in cs && m in c.body.mcpServers && r in c.body.routers && r.server == m.name ==>
              Servable(Context(prev, client), m, r.prefix)
  {
    var x := Context(prev, client);
    ConfigsBuild(x, StartBuild(next), cs);
    if forall c, m, r :: c in cs && m in c.body.mcpServers && r in c.body.routers && r.server == m.name ==>
         Servable(x, m, r.prefix)
    {
      forall c | c in cs ensures AllServable(x, c, c.body.mcpServers) {
      }
    } else {
      var c, m, r :| c in cs && m in c.body.mcpServers && r in c.body.routers && r.server == m.name
                  && !Servable(x, m, r.prefix);
      assert !AllServable(x, c, c.body.mcpServers);
    }
  }

  // A server that moved: same name and prefix, another URL.

  const OldServer := McpServer("sse", "s", "", [], "http://old", Discovery(false, "", ""), "")

  const MovedServer := OldServer.(url := "http://new")

  function OneServer(m: McpServer): seq<Config> {
    [Config(Key("t", "n"), Body([Router("s", "/p", "")], [], [], [m], ""))]
  }

  lemma OneServerIsValid(m: McpServer)
    requires m.name == "s" && !m.discovery.enabled
    ensures ValidConfigs(OneServer(m))
  {
    var cs := OneServer(m);
    assert cs[..0] == [] && AllPrefixes([]) == [];
    assert AllPrefixes(cs) == [Normalized("/p")];
    assert ByteLength("n") == ByteLength("") + CharBytes('n');
    assert m in cs[0].body.mcpServers;
  }

  lemma FirstBuildIsKept(cs: seq<Config>)
    requires ValidConfigs(cs) && BuildFrom(cs, map[], false, 0).Built?
    ensures var first := BuildFrom(cs, map[], false, 0);
            WellKept(first.state.runtime) && Unshared(first.state.runtime) && Owned(first.state.runtime, first.next)
  {
    IndexEqualsScan(cs, map[], false, 0);
    ConfigsKeep(Context(map[], false), 0, StartBuild(0), cs);
  }

  /** An SSE server is served wherever it is routed to, whatever was there before. */
  lemma OneServerIsServed(m: McpServer, prev: Runtime, next: nat)
    requires m.name == "s" && m.kind == "sse" && !m.discovery.enabled && WellKept(prev)
    ensures var built := BuildFrom(OneServer(m), prev, false, next);
            && ValidConfigs(OneServer(m)) && built.Built?
            && "/p" in built.state.runtime && built.state.runtime["/p"].mcpServer == Some(m)
            && built.state.runtime["/p"].transport.Some?
  {
    OneServerIsValid(m);
    BuildsExactlyWhenServable(OneServer(m), prev, false, next);
    IndexEqualsScan(OneServer(m), prev, false, next);
  }

  /** A leak on concrete data: after a server moved, the transport to its old address is neither held nor stopped. */
  lemma MovedServerLeaksTransport()
    ensures var first := BuildFrom(OneServer(OldServer), map[], false, 0);
            && first.Built? && "/p" in first.state.runtime && first.state.runtime["/p"].transport.Some?
            && var t := first.state.runtime["/p"].transport.value;
               var second := BuildFrom(OneServer(MovedServer), first.state.runtime, false, first.next);
               second.Built? && t !in Held(second.state.runtime) && t !in second.stopped
  {
    var first := BuildFrom(OneServer(OldServer), map[], false, 0);
    OneServerIsServed(OldServer, map[], 0);
    FirstBuildIsKept(OneServer(OldServer));
    OneServerIsServed(MovedServer, first.state.runtime, first.next);
    ReplacedTransportIsLeaked(OneServer(MovedServer), first.state.runtime, false, first.next, "/p");
  }

  /** Runs of validated reloads: every state the gateway holds meets the precondition of the scan theorem. */
  lemma {:induction false} ValidatedRunsAreWellKept(rs: seq<Reload>)
    requires forall r :: r in rs ==> ValidConfigs(r.configs)
    ensures WellKept(AfterReloads(rs).state.runtime)
  {
    if rs == [] {
    } else {
      var before, last := rs[..|rs| - 1], rs[|rs| - 1];
      ValidatedRunsAreWellKept(before);
      var g := AfterReloads(before);
      if BuildFrom(last.configs, g.state.runtime, last.client, g.next).Built? {
        IndexEqualsScan(last.configs, g.state.runtime, last.client, g.next);
      }
    }
  }
}
