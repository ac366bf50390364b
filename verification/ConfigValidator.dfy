/** Validation of a list of configurations (internal/common/config/validator.go). The methods collect errors
    the way the source does; `ValidConfigs` says what a list without errors satisfies. */
module ConfigValidator {
  import opened ConfigModel

  const MAX_NAME_LENGTH := 50

  /** How many bytes a character takes in UTF-8. */
  function CharBytes(c: char): nat {
    if c as int < 0x80 then 1 else if c as int < 0x800 then 2 else if c as int < 0x1_0000 then 3 else 4
  }

  /** The length of a string as Go counts it: in bytes. */
  function ByteLength(s: string): nat {
    if s == "" then 0 else ByteLength(s[..|s| - 1]) + CharBytes(s[|s| - 1])
  }

  datatype ValidationError =
    | NameTooLong(config: string)
    | DuplicateServer(server: string)
    | DuplicateTool(tool: string)
    | UnknownServer(server: string)
    | UnknownTool(tool: string, server: string)
    | EmptyServiceName(server: string)
    | UnsupportedRegistry(server: string)
    | DiscoveryUnsupported(server: string)
    | DuplicatePrefix(prefix: string, configs: seq<string>)

  // ---- What validity means ----

  ghost predicate NoDuplicates<T>(s: seq<T>) {
    forall i, j :: 0 <= i < j < |s| ==> s[i] != s[j]
  }

  function ServerNames(servers: seq<HttpServer>): (r: seq<string>)
    ensures |r| == |servers| && forall i :: 0 <= i < |r| ==> r[i] == servers[i].name
  {
    seq(|servers|, i requires 0 <= i < |servers| => servers[i].name)
  }

  function ToolNames(tools: seq<Tool>): (r: seq<string>)
    ensures |r| == |tools| && forall i :: 0 <= i < |r| ==> r[i] == tools[i].name
  {
    seq(|tools|, i requires 0 <= i < |tools| => tools[i].name)
  }

  ghost predicate HasHttpServer(b: Body, name: string) {
    exists s :: s in b.servers && s.name == name
  }

  ghost predicate HasMcpServer(b: Body, name: string) {
    exists m :: m in b.mcpServers && m.name == name
  }

  predicate ValidDiscovery(m: McpServer) {
    m.discovery.enabled ==>
      && m.discovery.serviceName != ""
      && (m.discovery.registry == "" || m.discovery.registry == "nacos")
      && (m.kind == "sse" || m.kind == "streamable-http")
  }

  ghost predicate ValidConfig(c: Config) {
    && ByteLength(c.key.name) <= MAX_NAME_LENGTH
    && NoDuplicates(ServerNames(c.body.servers))
    && NoDuplicates(ToolNames(c.body.tools))
    && (forall m :: m in c.body.mcpServers ==> ValidDiscovery(m))
    && (forall r :: r in c.body.routers ==> HasHttpServer(c.body, r.server) || HasMcpServer(c.body, r.server))
    && (forall s, n :: s in c.body.servers && n in s.allowedTools ==> n in ToolNames(c.body.tools))
  }

  /** A prefix with one trailing slash removed; the empty prefix is the root. */
  function Normalized(prefix: string): string {
    var trimmed := if prefix != "" && prefix[|prefix| - 1] == '/' then prefix[..|prefix| - 1] else prefix;
    if trimmed == "" then "/" else trimmed
  }

  function RouterPrefixes(routers: seq<Router>): (r: seq<string>)
    ensures |r| == |routers| && forall i :: 0 <= i < |r| ==> r[i] == Normalized(routers[i].prefix)
  {
    seq(|routers|, i requires 0 <= i < |routers| => Normalized(routers[i].prefix))
  }

  /** The normalised prefixes of all routers of all configurations, in order. */
  function AllPrefixes(cs: seq<Config>): seq<string> {
    if cs == [] then [] else AllPrefixes(cs[..|cs| - 1]) + RouterPrefixes(cs[|cs| - 1].body.routers)
  }

  ghost predicate ValidConfigs(cs: seq<Config>) {
    && NoDuplicates(AllPrefixes(cs))
    && forall c :: c in cs ==> ValidConfig(c)
  }

  // ---- The checks ----

  method ValidateDiscovery(m: McpServer) returns (errors: seq<ValidationError>)
    ensures errors == [] <==> ValidDiscovery(m)
  {
    errors := [];
    if !m.discovery.enabled {
      return;
    }
    if m.discovery.serviceName == "" {
      errors := errors + [EmptyServiceName(m.name)];
    }
    if m.discovery.registry != "" && m.discovery.registry != "nacos" {
      errors := errors + [UnsupportedRegistry(m.name)];
    }
    if m.kind != "sse" && m.kind != "streamable-http" {
      errors := errors + [DiscoveryUnsupported(m.name)];
    }
  }

  /** The first loop of each kind: names seen so far, and an error for each repetition. */
  method CheckRepeats(names: seq<string>, dup: string -> ValidationError)
    returns (errors: seq<ValidationError>, seen: set<string>)
    ensures errors == [] <==> NoDuplicates(names)
    ensures forall n :: n in seen <==> n in names
  {
    errors, seen := [], {};
    for i := 0 to |names|
      invariant errors == [] <==> NoDuplicates(names[..i])
      invariant forall n :: n in seen <==> n in names[..i]
    {
      assert names[..i + 1] == names[..i] + [names[i]];
      if names[i] in seen {
        errors := errors + [dup(names[i])];
        var j :| 0 <= j < i && names[..i][j] == names[i];
        assert names[..i + 1][j] == names[..i + 1][i];
      } else {
        assert NoDuplicates(names[..i]) ==> NoDuplicates(names[..i + 1]);
        assert NoDuplicates(names[..i + 1]) ==> NoDuplicates(names[..i]) by {
          assert forall j :: 0 <= j < i ==> names[..i + 1][j] == names[..i][j];
        }
      }
      seen := seen + {names[i]};
    }
    assert names[..|names|] == names;
  }

  lemma NamedServers(b: Body, n: string)
    ensures n in ServerNames(b.servers) <==> HasHttpServer(b, n)
  {
    var names := ServerNames(b.servers);
    if n in names {
      var i :| 0 <= i < |names| && names[i] == n;
      assert b.servers[i] in b.servers;
    }
    if HasHttpServer(b, n) {
      var s :| s in b.servers && s.name == n;
      var i :| 0 <= i < |b.servers| && b.servers[i] == s;
      assert names[i] == n;
    }
  }

  /** Adds the MCP servers' names to the known ones and checks their discovery settings. */
  method CheckMcpServers(servers: seq<McpServer>, known: set<string>)
    returns (errors: seq<ValidationError>, names: set<string>)
    ensures errors == [] <==> forall m :: m in servers ==> ValidDiscovery(m)
    ensures forall n :: n in names <==> n in known || exists m :: m in servers && m.name == n
  {
    errors, names := [], known;
    for i := 0 to |servers|
      invariant errors == [] <==> forall m :: m in servers[..i] ==> ValidDiscovery(m)
      invariant forall n :: n in names <==> n in known || exists m :: m in servers[..i] && m.name == n
    {
      assert servers[..i + 1] == servers[..i] + [servers[i]];
      names := names + {servers[i].name};
      var more := ValidateDiscovery(servers[i]);
      errors := errors + more;
    }
    assert servers[..|servers|] == servers;
  }

  method CheckRouters(routers: seq<Router>, names: set<string>) returns (errors: seq<ValidationError>)
    ensures errors == [] <==> forall r :: r in routers ==> r.server in names
  {
    errors := [];
    for i := 0 to |routers|
      invariant errors == [] <==> forall j :: 0 <= j < i ==> routers[j].server in names
    {
      if routers[i].server !in names {
        errors := errors + [UnknownServer(routers[i].server)];
      }
    }
  }

  method CheckServers(servers: seq<HttpServer>, toolNames: set<string>) returns (errors: seq<ValidationError>)
    ensures errors == [] <==> forall s, n :: s in servers && n in s.allowedTools ==> n in toolNames
  {
    errors := [];
    for i := 0 to |servers|
      invariant errors == [] <==> forall j, n :: 0 <= j < i && n in servers[j].allowedTools ==> n in toolNames
    {
      var more := CheckAllowed(servers[i], toolNames);
      errors := errors + more;
    }
  }

  method ValidateSingle(c: Config) returns (errors: seq<ValidationError>)
    ensures errors == [] <==> ValidConfig(c)
  {
    errors := [];
    if ByteLength(c.key.name) > MAX_NAME_LENGTH {
      errors := [NameTooLong(c.key.name)];
    }
    var b := c.body;
    var repeated, httpNames := CheckRepeats(ServerNames(b.servers), n => DuplicateServer(n));
    var repeatedTools, toolNames := CheckRepeats(ToolNames(b.tools), n => DuplicateTool(n));
    var discovery, serverNames := CheckMcpServers(b.mcpServers, httpNames);
    var unrouted := CheckRouters(b.routers, serverNames);
    var unknownTools := CheckServers(b.servers, toolNames);
    errors := errors + repeated + repeatedTools + discovery + unrouted + unknownTools;
    forall n ensures n in serverNames <==> HasHttpServer(b, n) || HasMcpServer(b, n) {
      NamedServers(b, n);
    }
  }

  method CheckAllowed(s: HttpServer, toolNames: set<string>) returns (errors: seq<ValidationError>)
    ensures errors == [] <==> forall n :: n in s.allowedTools ==> n in toolNames
  {
    errors := [];
    for i := 0 to |s.allowedTools|
      invariant errors == [] <==> forall j :: 0 <= j < i ==> s.allowedTools[j] in toolNames
    {
      if s.allowedTools[i] !in toolNames {
        errors := errors + [UnknownTool(s.allowedTools[i], s.name)];
      }
    }
  }

  function Occurrences(s: seq<string>, p: string): nat {
    if s == [] then 0 else Occurrences(s[..|s| - 1], p) + if s[|s| - 1] == p then 1 else 0
  }

  function LocationCount(located: map<string, seq<string>>, p: string): nat {
    if p in located then |located[p]| else 0
  }

  /** One location is recorded for each occurrence of a prefix. */
  ghost predicate Counts(located: map<string, seq<string>>, prefixes: seq<string>) {
    forall p :: LocationCount(located, p) == Occurrences(prefixes, p)
  }

  lemma {:induction false} OccursWhenListed(s: seq<string>, p: string)
    ensures p in s <==> Occurrences(s, p) > 0
  {
    if s == [] {
    } else {
      OccursWhenListed(s[..|s| - 1], p);
      assert s == s[..|s| - 1] + [s[|s| - 1]];
    }
  }

  lemma {:induction false} RepeatsOccurTwice(s: seq<string>)
    ensures NoDuplicates(s) <==> forall p :: Occurrences(s, p) <= 1
  {
    if s == [] {
    } else {
      var n := |s| - 1;
      var before := s[..n];
      RepeatsOccurTwice(before);
      OccursWhenListed(before, s[n]);
      if s[n] in before {
        var i :| 0 <= i < n && before[i] == s[n];
        assert s[i] == s[n];
        assert Occurrences(s, s[n]) > 1;
      } else if NoDuplicates(before) {
        assert Occurrences(before, s[n]) == 0;
        assert forall p :: Occurrences(before, p) <= 1;
        assert forall p :: Occurrences(s, p) == Occurrences(before, p) + if p == s[n] then 1 else 0;
        assert forall i :: 0 <= i < n ==> before[i] == s[i];
      } else {
        var p :| Occurrences(before, p) > 1;
        assert Occurrences(s, p) > 1;
        var i, j :| 0 <= i < j < n && before[i] == before[j];
        assert s[i] == s[j];
      }
    }
  }

  lemma CountsStep(located: map<string, seq<string>>, prefixes: seq<string>, p: string, file: string)
    requires Counts(located, prefixes)
    ensures Counts(located[p := (if p in located then located[p] else []) + [file]], prefixes + [p])
  {
    var located' := located[p := (if p in located then located[p] else []) + [file]];
    assert (prefixes + [p])[..|prefixes|] == prefixes;
    forall q ensures LocationCount(located', q) == Occurrences(prefixes + [p], q) {
      assert LocationCount(located, q) == Occurrences(prefixes, q);
    }
  }

  lemma CountsDecide(located: map<string, seq<string>>, prefixes: seq<string>)
    requires Counts(located, prefixes)
    ensures NoDuplicates(prefixes) <==> forall p :: p in located ==> |located[p]| <= 1
  {
    RepeatsOccurTwice(prefixes);
    if forall p :: p in located ==> |located[p]| <= 1 {
      forall p ensures Occurrences(prefixes, p) <= 1 {
        assert LocationCount(located, p) == Occurrences(prefixes, p);
      }
      assert NoDuplicates(prefixes);
    } else {
      var p :| p in located && |located[p]| > 1;
      assert LocationCount(located, p) == Occurrences(prefixes, p);
      assert !(Occurrences(prefixes, p) <= 1);
      assert !NoDuplicates(prefixes);
    }
  }

  method LocateRouters(located: map<string, seq<string>>, c: Config, ghost before: seq<string>)
    returns (r: map<string, seq<string>>)
    requires Counts(located, before)
    ensures Counts(r, before + RouterPrefixes(c.body.routers))
  {
    r := located;
    var routers := c.body.routers;
    ghost var now := before;
    for j := 0 to |routers|
      invariant now == before + RouterPrefixes(routers[..j])
      invariant Counts(r, now)
    {
      var p := Normalized(routers[j].prefix);
      var known := if p in r then r[p] else [];
      CountsStep(r, now, p, c.key.name);
      r := r[p := known + [c.key.name]];
      now := now + [p];
      assert RouterPrefixes(routers[..j + 1]) == RouterPrefixes(routers[..j]) + [p];
    }
    assert routers[..|routers|] == routers;
  }

  method LocatePrefixes(cs: seq<Config>) returns (located: map<string, seq<string>>)
    ensures Counts(located, AllPrefixes(cs))
  {
    located := map[];
    for i := 0 to |cs|
      invariant Counts(located, AllPrefixes(cs[..i]))
    {
      located := LocateRouters(located, cs[i], AllPrefixes(cs[..i]));
      assert cs[..i + 1][..i] == cs[..i];
    }
    assert cs[..|cs|] == cs;
  }

  method CheckPrefixes(located: map<string, seq<string>>) returns (errors: seq<ValidationError>)
    ensures errors == [] <==> forall p :: p in located ==> |located[p]| <= 1
  {
    errors := [];
    var rest := located.Keys;
    while rest != {}
      invariant rest <= located.Keys
      invariant errors == [] <==> forall p :: p in located && p !in rest ==> |located[p]| <= 1
      decreases |rest|
    {
      var p :| p in rest;
      rest := rest - {p};
      if |located[p]| > 1 {
        errors := errors + [DuplicatePrefix(p, located[p])];
      }
    }
  }

  method ValidateMCPConfigs(cs: seq<Config>) returns (errors: seq<ValidationError>)
    ensures errors == [] <==> ValidConfigs(cs)
  {
    var located := LocatePrefixes(cs);
    errors := CheckPrefixes(located);
    CountsDecide(located, AllPrefixes(cs));
    ghost var distinct := errors == [];
    for i := 0 to |cs|
      invariant errors == [] <==> distinct && forall j :: 0 <= j < i ==> ValidConfig(cs[j])
    {
      var more := ValidateSingle(cs[i]);
      errors := errors + more;
    }
  }

  // ---- What the checks compare ----

  /** The longer prefix is the shorter one and a slash, and the shorter has something else at its end. */
  predicate SlashLonger(shorter: string, longer: string) {
    shorter != "" && shorter[|shorter| - 1] != '/' && longer == shorter + "/"
  }

  /** Two prefixes count as one exactly when they are the same up to one slash at the end. The empty prefix and one or
      two slashes are all the root. */
  lemma PrefixesClashExactly(p: string, q: string)
    ensures Normalized(p) == Normalized(q) <==>
            || p == q
            || SlashLonger(p, q) || SlashLonger(q, p)
            || (p in ["", "/", "//"] && q in ["", "/", "//"])
  {
    NormalizedCases(p);
    NormalizedCases(q);
  }

  lemma NormalizedCases(p: string)
    ensures Normalized(p) == "/" <==> p in ["", "/", "//"]
    ensures Normalized(p) != "/" ==>
              p != "" && if p[|p| - 1] == '/' then p == Normalized(p) + "/" else p == Normalized(p)
  {
    assert "/" == "" + "/" && "//" == "/" + "/";
    if p != "" && p[|p| - 1] == '/' {
      assert p == p[..|p| - 1] + "/";
    }
  }

  /** All characters are from the range of code points that take n bytes in UTF-8. */
  predicate TakesEach(s: string, n: nat) {
    && 1 <= n <= 4
    && forall i :: 0 <= i < |s| ==>
         if n == 1 then s[i] as int <= 0x7F
         else if n == 2 then 0x80 <= s[i] as int <= 0x7FF
         else if n == 3 then 0x800 <= s[i] as int <= 0xFFFF
         else 0x1_0000 <= s[i] as int
  }

  lemma {:induction false} AlikeCharacters(s: string, n: nat)
    requires TakesEach(s, n)
    ensures ByteLength(s) == n * |s|
  {
    if s == "" {
    } else {
      AlikeCharacters(s[..|s| - 1], n);
      assert n * |s| == n * (|s| - 1) + n;
    }
  }

  /** A name is too long exactly when it takes more than fifty bytes: fifty ASCII characters fit, and so do sixteen of
      three bytes each. */
  lemma NamesHaveFiftyBytes(c: Config, n: nat)
    requires TakesEach(c.key.name, n)
    ensures ValidConfig(c) ==> n * |c.key.name| <= 50
    ensures n * |c.key.name| <= 50 && c.body == Body([], [], [], [], "") ==> ValidConfig(c)
  {
    AlikeCharacters(c.key.name, n);
  }
}
