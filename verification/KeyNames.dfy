/** The strings that rate limits and breakers are kept under (internal/core/governance/ratelimit.go, circuitbreaker.go):
    the parts of a call's origin, joined by bars. */
module KeyNames {
  import opened GovernanceRuntime
  import opened GovernanceKeys

  /** strings.Join. */
  function Join(parts: seq<string>, sep: char): string {
    if parts == [] then ""
    else if |parts| == 1 then parts[0]
    else Join(parts[..|parts| - 1], sep) + [sep] + parts[|parts| - 1]
  }

  /** strings.Split. */
  function Split(s: string, sep: char): (parts: seq<string>)
    ensures |parts| > 0
  {
    if s == "" then [""]
    else
      var before, c := Split(s[..|s| - 1], sep), s[|s| - 1];
      if c == sep then before + [""] else before[..|before| - 1] + [before[|before| - 1] + [c]]
  }

  lemma {:induction false} SplitPlain(p: string, sep: char)
    requires sep !in p
    ensures Split(p, sep) == [p]
  {
    if p == "" {
    } else {
      SplitPlain(p[..|p| - 1], sep);
      assert p == p[..|p| - 1] + [p[|p| - 1]];
    }
  }

  lemma {:induction false} SplitLast(s: string, p: string, sep: char)
    requires sep !in p
    ensures Split(s + [sep] + p, sep) == Split(s, sep) + [p]
  {
    var all := s + [sep] + p;
    if p == "" {
      assert all[..|all| - 1] == s;
    } else {
      var front := p[..|p| - 1];
      SplitLast(s, front, sep);
      assert all[..|all| - 1] == s + [sep] + front && p == front + [p[|p| - 1]];
    }
  }

  ghost predicate Without(parts: seq<string>, sep: char) {
    forall i :: 0 <= i < |parts| ==> sep !in parts[i]
  }

  /** Parts without the separator can be read back from the joined string. */
  lemma {:induction false} SplitOfJoin(parts: seq<string>, sep: char)
    requires parts != [] && Without(parts, sep)
    ensures Split(Join(parts, sep), sep) == parts
  {
    var front, last := parts[..|parts| - 1], parts[|parts| - 1];
    if |parts| == 1 {
      SplitPlain(last, sep);
    } else {
      SplitOfJoin(front, sep);
      SplitLast(Join(front, sep), last, sep);
    }
  }

  // ---- Origins and their keys ----

  /** Where a call comes from; `client` is the client's identity, or "anonymous". */
  datatype Origin = Origin(tenant: string, prefix: string, server: string, tool: string, client: string)

  function BreakerParts(o: Origin): seq<string> {
    [o.tenant, o.prefix, o.server, o.tool]
  }

  function BreakerKey(o: Origin): string {
    Join(BreakerParts(o), '|')
  }

  /** What one token of a dimension contributes; tokens the code does not know contribute nothing. */
  function TokenParts(o: Origin, token: string): seq<string> {
    if token == "tenant" then [o.tenant]
    else if token == "prefix" then [o.prefix]
    else if token == "server" then [o.server]
    else if token == "tool" then [o.tool]
    else if token == "client" then [o.client]
    else []
  }

  function ChosenParts(o: Origin, tokens: seq<string>): seq<string> {
    if tokens == [] then []
    else ChosenParts(o, tokens[..|tokens| - 1]) + TokenParts(o, tokens[|tokens| - 1])
  }

  function RateParts(o: Origin, dimension: string): (parts: seq<string>)
    ensures parts != []
  {
    var chosen := ChosenParts(o, Split(dimension, '_'));
    if chosen == [] then [o.tenant, o.server, o.tool] else chosen
  }

  method RateKey(o: Origin, dimension: string) returns (key: string)
    ensures key == Join(RateParts(o, dimension), '|')
  {
    var tokens := Split(dimension, '_');
    var parts := [];
    for i := 0 to |tokens|
      invariant parts == ChosenParts(o, tokens[..i])
    {
      assert tokens[..i + 1][..i] == tokens[..i];
      match tokens[i] {
        case "tenant" => parts := parts + [o.tenant];
        case "prefix" => parts := parts + [o.prefix];
        case "server" => parts := parts + [o.server];
        case "tool" => parts := parts + [o.tool];
        case "client" => parts := parts + [o.client];
        case _ =>
      }
    }
    assert tokens[..|tokens|] == tokens;
    if |parts| == 0 {
      parts := [o.tenant, o.server, o.tool];
    }
    key := Join(parts, '|');
  }

  ghost predicate WithoutBars(o: Origin) {
    '|' !in o.tenant && '|' !in o.prefix && '|' !in o.server && '|' !in o.tool && '|' !in o.client
  }

  lemma {:induction false} ChosenWithoutBars(o: Origin, tokens: seq<string>)
    requires WithoutBars(o)
    ensures Without(ChosenParts(o, tokens), '|')
  {
    if tokens == [] {
    } else {
      ChosenWithoutBars(o, tokens[..|tokens| - 1]);
    }
  }

  /** When no part of an origin holds a bar, two calls share a breaker key exactly when they come from the same tenant,
      prefix, server and tool. */
  lemma BreakerKeysTellOriginsApart(o: Origin, o': Origin)
    requires WithoutBars(o) && WithoutBars(o')
    ensures BreakerKey(o) == BreakerKey(o') <==>
            o.tenant == o'.tenant && o.prefix == o'.prefix && o.server == o'.server && o.tool == o'.tool
  {
    SplitOfJoin(BreakerParts(o), '|');
    SplitOfJoin(BreakerParts(o'), '|');
    var a, b := BreakerParts(o), BreakerParts(o');
    assert a == b <==> a[0] == b[0] && a[1] == b[1] && a[2] == b[2] && a[3] == b[3];
  }

  /** So over every interleaving calls of different origins never hold one breaker. */
  lemma OriginsShareNoBreaker(steps: seq<Step>, c: nat, d: nat, o: Origin, o': Origin)
    requires WithoutBars(o) && WithoutBars(o') && BreakerParts(o) != BreakerParts(o')
    requires var s := Run(StartSystem, steps);
             && Holds(s, c).Some? && Holds(s, c).value.0 == BreakerKey(o)
             && Holds(s, d).Some? && Holds(s, d).value.0 == BreakerKey(o')
    ensures Holds(Run(StartSystem, steps), c).value.1 != Holds(Run(StartSystem, steps), d).value.1
  {
    KeysShareNoBreaker(steps);
    BreakerKeysTellOriginsApart(o, o');
  }

  /** The two origins agree on every part that a token of the dimension names. */
  ghost predicate AgreeOn(o: Origin, o': Origin, tokens: seq<string>) {
    && ("tenant" in tokens ==> o.tenant == o'.tenant)
    && ("prefix" in tokens ==> o.prefix == o'.prefix)
    && ("server" in tokens ==> o.server == o'.server)
    && ("tool" in tokens ==> o.tool == o'.tool)
    && ("client" in tokens ==> o.client == o'.client)
  }

  predicate NamesNothing(tokens: seq<string>) {
    "tenant" !in tokens && "prefix" !in tokens && "server" !in tokens && "tool" !in tokens && "client" !in tokens
  }

  lemma AgreeSnoc(o: Origin, o': Origin, tokens: seq<string>, token: string)
    ensures AgreeOn(o, o', tokens + [token]) <==>
            AgreeOn(o, o', tokens) && TokenParts(o, token) == TokenParts(o', token)
    ensures NamesNothing(tokens + [token]) <==> NamesNothing(tokens) && TokenParts(o, token) == []
    ensures |TokenParts(o, token)| == |TokenParts(o', token)|
  {
    assert TokenParts(o, token) != [] ==>
             (TokenParts(o, token) == TokenParts(o', token) <==> TokenParts(o, token)[0] == TokenParts(o', token)[0]);
  }

  lemma SameSplit(a: seq<string>, b: seq<string>, c: seq<string>, d: seq<string>)
    requires |a| == |c|
    ensures a + b == c + d <==> a == c && b == d
  {
    if a + b == c + d {
      assert a == (a + b)[..|a|] && c == (c + d)[..|a|];
      assert b == (a + b)[|a|..] && d == (c + d)[|a|..];
    }
  }

  lemma {:induction false} ChosenPartsAgree(o: Origin, o': Origin, tokens: seq<string>)
    ensures |ChosenParts(o, tokens)| == |ChosenParts(o', tokens)|
    ensures ChosenParts(o, tokens) == ChosenParts(o', tokens) <==> AgreeOn(o, o', tokens)
    ensures ChosenParts(o, tokens) == [] <==> NamesNothing(tokens)
  {
    if tokens == [] {
    } else {
      var front, last := tokens[..|tokens| - 1], tokens[|tokens| - 1];
      ChosenPartsAgree(o, o', front);
      AgreeSnoc(o, o', front, last);
      assert front + [last] == tokens;
      SameSplit(ChosenParts(o, front), TokenParts(o, last), ChosenParts(o', front), TokenParts(o', last));
    }
  }

  /** And they share a rate key exactly when they agree on every part that the dimension names; a dimension that names
      none stands for tenant, server and tool. */
  lemma RateKeysTellPartsApart(o: Origin, o': Origin, dimension: string)
    requires WithoutBars(o) && WithoutBars(o')
    ensures var tokens := Split(dimension, '_');
            Join(RateParts(o, dimension), '|') == Join(RateParts(o', dimension), '|') <==>
              if NamesNothing(tokens) then o.tenant == o'.tenant && o.server == o'.server && o.tool == o'.tool
              else AgreeOn(o, o', tokens)
  {
    var tokens := Split(dimension, '_');
    ChosenWithoutBars(o, tokens);
    ChosenWithoutBars(o', tokens);
    SplitOfJoin(RateParts(o, dimension), '|');
    SplitOfJoin(RateParts(o', dimension), '|');
    ChosenPartsAgree(o, o', tokens);
    var a, b := [o.tenant, o.server, o.tool], [o'.tenant, o'.server, o'.tool];
    assert a == b <==> a[0] == b[0] && a[1] == b[1] && a[2] == b[2];
  }

  lemma TwoTokens(dimension: string, a: string, b: string)
    requires '_' !in a && '_' !in b && dimension == a + ['_'] + b
    ensures Split(dimension, '_') == [a, b]
  {
    SplitPlain(a, '_');
    SplitLast(a, b, '_');
  }

  /** Under the default dimension calls share a bucket exactly when they are of one tenant and one tool. */
  lemma DefaultDimension(o: Origin, o': Origin, dimension: string)
    requires WithoutBars(o) && WithoutBars(o') && dimension == "tenant_tool"
    ensures Join(RateParts(o, dimension), '|') == Join(RateParts(o', dimension), '|') <==>
            o.tenant == o'.tenant && o.tool == o'.tool
  {
    var tokens := Split(dimension, '_');
    TwoTokens(dimension, "tenant", "tool");
    assert tokens[0] == "tenant" && tokens[1] == "tool";
    RateKeysTellPartsApart(o, o', dimension);
  }

  /** With bars they need not: two tenants that share one breaker. */
  lemma BarsMixTenants()
    ensures var o, o' := Origin("a|b", "c", "s", "t", ""), Origin("a", "b", "c|s", "t", "");
            o.tenant != o'.tenant && BreakerKey(o) == BreakerKey(o')
  {
    JoinOfFour("a|b", "c", "s", "t");
    JoinOfFour("a", "b", "c|s", "t");
    assert "a|b" + "|" + "c" + "|" + "s" + "|" + "t" == "a" + "|" + "b" + "|" + "c|s" + "|" + "t";
  }

  lemma JoinOfFour(a: string, b: string, c: string, d: string)
    ensures Join([a, b, c, d], '|') == a + "|" + b + "|" + c + "|" + d
  {
    assert [a, b][..1] == [a] && Join([a, b], '|') == a + "|" + b;
    assert [a, b, c][..2] == [a, b] && Join([a, b, c], '|') == a + "|" + b + "|" + c;
    assert [a, b, c, d][..3] == [a, b, c];
  }
}
